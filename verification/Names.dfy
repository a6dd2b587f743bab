/** The names the engine generates for delegated nodes: "dyn-<agent>-<n>". */
module Names {

  function Decimal(n: nat): string {
    var digit := ['0' + (n % 10) as char];
    if n < 10 then digit else Decimal(n / 10) + digit
  }

  function DynamicName(agent: string, n: nat): string {
    "dyn-" + agent + "-" + Decimal(n)
  }

  /** The value of a string of decimal digits; characters below '0' count as zero. */
  function Value(s: string): nat {
    if s == [] then 0
    else
      var c := s[|s| - 1];
      10 * Value(s[..|s| - 1]) + if c < '0' then 0 else c as int - '0' as int
  }

  lemma {:induction false} DecimalRoundTrip(n: nat)
    ensures Decimal(n) != [] && '-' !in Decimal(n)
    ensures Value(Decimal(n)) == n
  {
    var digit := '0' + (n % 10) as char;
    if n < 10 {
      assert Decimal(n) == [digit];
      assert Value([]) == 0;
      assert [digit][..0] == [];
    } else {
      DecimalRoundTrip(n / 10);
      assert Decimal(n) == Decimal(n / 10) + [digit];
      assert Decimal(n)[..|Decimal(n)| - 1] == Decimal(n / 10);
    }
  }

  lemma LaterDashIsInside(p: string, d: string, q: string, e: string)
    requires p + "-" + d == q + "-" + e && |p| > |q|
    ensures '-' in e
  {
    assert (p + "-" + d)[|p|] == '-' == (q + "-" + e)[|p|] == e[|p| - |q| - 1];
  }

  /** Strings that agree and end in dash-free parts after a dash have the same last part. */
  lemma LastPartUnique(p: string, d: string, q: string, e: string)
    requires p + "-" + d == q + "-" + e && '-' !in d && '-' !in e
    ensures d == e
  {
    if |p| > |q| { LaterDashIsInside(p, d, q, e); }
    if |q| > |p| { LaterDashIsInside(q, e, p, d); }
    assert d == (p + "-" + d)[|p| + 1..] == (q + "-" + e)[|q| + 1..] == e;
  }

  /** Agent names may contain dashes and digits, yet the counter is always recoverable, so
      names made with different counters differ. */
  lemma DynamicNamesDistinct(a: string, i: nat, b: string, j: nat)
    requires DynamicName(a, i) == DynamicName(b, j)
    ensures i == j
  {
    DecimalRoundTrip(i);
    DecimalRoundTrip(j);
    assert DynamicName(a, i) == ("dyn-" + a) + "-" + Decimal(i);
    assert DynamicName(b, j) == ("dyn-" + b) + "-" + Decimal(j);
    LastPartUnique("dyn-" + a, Decimal(i), "dyn-" + b, Decimal(j));
  }
}
