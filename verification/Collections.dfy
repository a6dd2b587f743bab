/** Sizes of finite sets and of sequences without repetition. */
module Collections {
  ghost predicate Distinct<T>(s: seq<T>) {
    forall i, j | 0 <= i < j < |s| :: s[i] != s[j]
  }

  lemma JoinDistinct<T>(s: seq<T>, t: seq<T>)
    requires Distinct(s) && Distinct(t) && forall x | x in s :: x !in t
    ensures Distinct(s + t)
  {
    forall i, j | 0 <= i < j < |s + t| ensures (s + t)[i] != (s + t)[j] {
      if i < |s| <= j { assert s[i] in s && t[j - |s|] in t; }
    }
  }

  lemma {:induction false} SubsetSize<T>(a: set<T>, b: set<T>)
    requires a <= b
    ensures |a| <= |b|
  {
    if a != {} {
      var x :| x in a;
      SubsetSize(a - {x}, b - {x});
    }
  }

  lemma {:induction false} DistinctCardinality<T>(s: seq<T>, within: set<T>)
    requires Distinct(s) && forall x | x in s :: x in within
    ensures |s| <= |within|
    ensures |s| == |within| ==> forall x | x in within :: x in s
  {
    if s != [] {
      var front, last := s[..|s| - 1], s[|s| - 1];
      assert s == front + [last];
      DistinctCardinality(front, within - {last});
    }
  }

  lemma {:induction false} DistinctCovers<T>(s: seq<T>, all: set<T>)
    requires Distinct(s) && forall x :: x in s <==> x in all
    ensures |s| == |all|
  {
    if s != [] {
      var front, last := s[..|s| - 1], s[|s| - 1];
      assert s == front + [last];
      forall x ensures x in front <==> x in all - {last} {
        if x in front { var i :| 0 <= i < |front| && front[i] == x; assert s[i] == x; }
      }
      DistinctCovers(front, all - {last});
    }
  }

  /** The entries of a shared log that belong to one owner, in order. */
  function Owned<T>(log: seq<(string, T)>, owner: string): seq<T> {
    if log == [] then []
    else
      var last := log[|log| - 1];
      Owned(log[..|log| - 1], owner) + if last.0 == owner then [last.1] else []
  }

  lemma OwnedAppend<T>(log: seq<(string, T)>, who: string, entry: T, owner: string)
    ensures Owned(log + [(who, entry)], owner) == Owned(log, owner) + if who == owner then [entry] else []
  {
    assert (log + [(who, entry)])[..|log|] == log;
  }

  /** The lengths of finitely many strings are bounded. */
  lemma {:induction false} LengthBound(names: set<string>) returns (n: nat)
    ensures forall x | x in names :: |x| <= n
  {
    n := 0;
    if names != {} {
      var x :| x in names;
      var m := LengthBound(names - {x});
      n := if |x| > m then |x| else m;
    }
  }
}
