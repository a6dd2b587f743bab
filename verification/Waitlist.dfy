/** The prompt queue (cmd/forge/waitlist.go): one pass starts pending items, keeping running
    counters through many failure exits, and each item is launched at most once. */
module Waitlist {
  datatype Status = Pending | Running | Paused | Completed | Failed

  datatype Item = Item(id: string, group: string, sequential: bool, attachments: nat, status: Status)

  predicate Active(item: Item) {
    item.status == Running || item.status == Paused
  }

  predicate ActiveIn(item: Item, group: string) {
    Active(item) && item.group == group
  }

  ghost function ActiveItems(items: seq<Item>): set<int> {
    set i | 0 <= i < |items| && Active(items[i])
  }

  ghost function ActiveInGroup(items: seq<Item>, group: string): set<int> {
    set i | 0 <= i < |items| && ActiveIn(items[i], group)
  }

  function At(counters: map<string, int>, group: string): int {
    if group in counters then counters[group] else 0
  }

  /** The counters of a pass tell the truth. */
  ghost predicate Counted(items: seq<Item>, total: int, groups: map<string, int>) {
    && total == |ActiveItems(items)|
    && forall g | g != "" :: At(groups, g) == |ActiveInGroup(items, g)|
  }

  function Adjusted(groups: map<string, int>, group: string, change: int): map<string, int> {
    if group == "" then groups else groups[group := At(groups, group) + change]
  }

  /** Starting or stopping one item moves each counter by one. */
  lemma StatusCounts(items: seq<Item>, i: nat, status: Status, total: int, groups: map<string, int>)
    requires i < |items| && Counted(items, total, groups)
    ensures var change := Change(items[i], status);
      Counted(items[i := items[i].(status := status)], total + change, Adjusted(groups, items[i].group, change))
  {
    var after, change := items[i := items[i].(status := status)], Change(items[i], status);
    TotalCounts(items, i, status);
    forall g | g != "" ensures At(Adjusted(groups, items[i].group, change), g) == |ActiveInGroup(after, g)| {
      GroupCounts(items, i, status, g);
      assert At(groups, g) == |ActiveInGroup(items, g)|;
    }
    hide ActiveInGroup, ActiveItems, Change;
  }

  function Change(item: Item, status: Status): int {
    (if Active(item.(status := status)) then 1 else 0) - if Active(item) then 1 else 0
  }

  lemma TotalCounts(items: seq<Item>, i: nat, status: Status)
    requires i < |items|
    ensures |ActiveItems(items[i := items[i].(status := status)])| == |ActiveItems(items)| + Change(items[i], status)
  {
    TotalMoves(items, items[i := items[i].(status := status)], i);
  }

  lemma TotalMoves(items: seq<Item>, after: seq<Item>, i: nat)
    requires i < |items| == |after|
    requires forall j | 0 <= j < |items| && j != i :: after[j] == items[j]
    ensures |ActiveItems(after)| - (if Active(after[i]) then 1 else 0) == |ActiveItems(items)| - (if Active(items[i]) then 1 else 0)
  {
    hide Active;
    SizesDiffer(ActiveItems(items), ActiveItems(after), i);
  }

  lemma GroupCounts(items: seq<Item>, i: nat, status: Status, g: string)
    requires i < |items|
    ensures |ActiveInGroup(items[i := items[i].(status := status)], g)|
         == |ActiveInGroup(items, g)| + if items[i].group == g then Change(items[i], status) else 0
  {
    GroupMoves(items, items[i := items[i].(status := status)], i, g);
  }

  lemma GroupMoves(items: seq<Item>, after: seq<Item>, i: nat, g: string)
    requires i < |items| == |after|
    requires forall j | 0 <= j < |items| && j != i :: after[j] == items[j]
    ensures |ActiveInGroup(after, g)| - (if ActiveIn(after[i], g) then 1 else 0)
         == |ActiveInGroup(items, g)| - (if ActiveIn(items[i], g) then 1 else 0)
  {
    hide ActiveIn;
    SizesDiffer(ActiveInGroup(items, g), ActiveInGroup(after, g), i);
  }

  lemma SizesDiffer(a: set<int>, b: set<int>, i: int)
    requires forall j | j != i :: j in a <==> j in b
    ensures |a| - (if i in a then 1 else 0) == |b| - (if i in b then 1 else 0)
  {
    forall j ensures j in a - {i} <==> j in b - {i} {}
    assert a - {i} == b - {i};
    assert i in a ==> a == a - {i} + {i};
    assert i in b ==> b == b - {i} + {i};
  }

  /** The same items; a pass only takes pending ones forward. */
  ghost predicate Forward(before: seq<Item>, after: seq<Item>) {
    && |before| == |after|
    && forall i | 0 <= i < |before| ::
         && after[i] == before[i].(status := after[i].status)
         && (before[i].status == Pending ==> after[i].status == Pending || after[i].status == Running || after[i].status == Failed)
         && (before[i].status != Pending ==> after[i] == before[i])
  }

  predicate Guarded(item: Item) {
    item.group != "" && item.sequential
  }

  /** A sequential item of a group may start only when the group is idle. */
  ghost predicate MayStartAlone(before: seq<Item>, i: nat) {
    i < |before| && before[i].status == Pending && (Guarded(before[i]) ==> ActiveInGroup(before, before[i].group) == {})
  }

  /** Of the items before `i`, no sequential one of `group` is still pending. */
  ghost predicate InTurn(items: seq<Item>, i: nat, group: string) {
    forall j | 0 <= j < i && j < |items| && Guarded(items[j]) && items[j].group == group :: items[j].status != Pending
  }

  /** Of the items before `i` only sequential ones of busy groups are pending. */
  ghost predicate PassedOver(items: seq<Item>, i: nat) {
    forall j | 0 <= j < i && j < |items| && items[j].status == Pending ::
      Guarded(items[j]) && ActiveInGroup(items, items[j].group) != {}
  }

  ghost predicate Willing(writes: seq<bool>) {
    forall i | 0 <= i < |writes| :: writes[i]
  }

  /** The items that went from pending to running, in order. */
  function Launches(before: seq<Item>, after: seq<Item>): seq<string>
    requires |before| == |after|
  {
    if before == [] then []
    else
      var n := |before| - 1;
      Launches(before[..n], after[..n])
      + if before[n].status == Pending && after[n].status == Running then [after[n].id] else []
  }

  ghost predicate NoRepeats(s: seq<string>) {
    forall i, j | 0 <= i < j < |s| :: s[i] != s[j]
  }

  /** Nothing that was launched looks pending. */
  ghost predicate Marked(items: seq<Item>, launched: seq<string>) {
    forall i | 0 <= i < |items| && items[i].id in launched :: items[i].status != Pending
  }

  ghost predicate DistinctIds(items: seq<Item>) {
    forall i, j | 0 <= i < j < |items| :: items[i].id != items[j].id
  }

  ghost predicate Issued(items: seq<Item>, issued: set<string>) {
    forall i | 0 <= i < |items| :: items[i].id in issued
  }

  /** What stays true between any two operations, whatever writes fail and whenever the process
      restarts: no item was launched twice, and no launched item is pending, in memory or on disk. */
  ghost predicate LaunchedOnce(items: seq<Item>, disk: seq<Item>, launched: seq<string>) {
    NoRepeats(launched) && Marked(items, launched) && Marked(disk, launched)
  }

  lemma RemovedItem(items: seq<Item>, i: nat, disk: seq<Item>, launched: seq<string>, issued: set<string>)
    requires i < |items| && DistinctIds(items) && DistinctIds(disk) && LaunchedOnce(items, disk, launched) && Issued(items, issued)
    ensures var left := items[..i] + items[i + 1..];
      && DistinctIds(left) && Issued(left, issued)
      && LaunchedOnce(left, disk, launched) && LaunchedOnce(left, left, launched)
  {
    hide NoRepeats;
    var left := items[..i] + items[i + 1..];
    forall k | 0 <= k < |left| ensures left[k] == items[if k < i then k else k + 1] {}
    hide Marked;
    LeftMarked(items, left, i, launched);
  }

  lemma LeftMarked(items: seq<Item>, left: seq<Item>, i: nat, launched: seq<string>)
    requires Marked(items, launched) && |left| == |items| - 1
    requires forall k | 0 <= k < |left| :: left[k] == items[if k < i then k else k + 1]
    ensures Marked(left, launched)
  {
  }

  class WaitlistManager {
    var items: seq<Item>
    var disk: seq<Item>
    var launched: seq<string>
    var runtimeFailed: bool
    const maxWorkers: int
    /** Whether the coming writes of the queue work; all that are not listed do. */
    var writes: seq<bool>
    /** Identities ever given to an item. */
    ghost var issued: set<string>

    ghost predicate Valid()
      reads this
    {
      && DistinctIds(items) && DistinctIds(disk) && LaunchedOnce(items, disk, launched)
      && Issued(items, issued) && Issued(disk, issued) && forall id | id in launched :: id in issued
    }

    constructor (maxWorkers: int, writes: seq<bool>)
      ensures Valid() && items == [] && launched == [] && this.maxWorkers == maxWorkers && this.writes == writes
    {
      this.maxWorkers, this.writes := maxWorkers, writes;
      items, disk, launched, runtimeFailed, issued := [], [], [], false, {};
    }

    /** Write the queue; the environment decides whether that works. */
    method Save() returns (ok: bool)
      modifies this`disk, this`writes
      ensures disk == if ok then items else old(disk)
      ensures ok == (old(writes) == [] || old(writes)[0])
      ensures writes == if old(writes) == [] then [] else old(writes)[1..]
      ensures Willing(old(writes)) ==> ok && Willing(writes)
    {
      ok := writes == [] || writes[0];
      if writes != [] { writes := writes[1..]; }
      if ok { disk := items; }
    }

    /** Queue a new item under a random identity; a queue that cannot be written stays as it was. */
    method Enqueue(id: string, group: string, sequential: bool, attachments: nat) returns (queued: bool)
      requires Valid() && id !in issued
      modifies this`items, this`disk, this`writes, this`issued
      ensures Valid() && issued == old(issued) + {id}
      ensures queued ==> |old(items)| < 1000 && disk == items
                         && items == old(items) + [Item(id, Placed(group, sequential), sequential, attachments, Pending)]
      ensures !queued ==> items == old(items) && disk == old(disk)
    {
      hide NoRepeats;
      issued := issued + {id};
      if |items| >= 1000 { return false; }
      items := items + [Item(id, if sequential && group == "" then "sequential" else group, sequential, attachments, Pending)];
      queued := Save();
      if !queued { items := items[..|items| - 1]; }
    }

    /** Drop an item that is not active. The disk may still hold it. */
    method Remove(id: string)
      requires Valid()
      modifies this`items, this`disk, this`writes
      ensures Valid()
      ensures items == old(items) || exists i :: 0 <= i < |old(items)| && old(items)[i].id == id && !Active(old(items)[i])
                                                && items == old(items)[..i] + old(items)[i + 1..]
    {
      hide DistinctIds, LaunchedOnce, Issued;
      for i := 0 to |items|
        invariant items == old(items) && disk == old(disk)
      {
        if items[i].id == id {
          if Active(items[i]) { return; }
          RemovedItem(items, i, disk, launched, issued);
          items := items[..i] + items[i + 1..];
          var saved := Save();
          return;
        }
      }
    }

    /** A change of status from outside; completed and failed are final. */
    method UpdateStatus(id: string, status: Status)
      requires Valid() && status != Pending
      modifies this`items, this`disk, this`writes
      ensures Valid() && |items| == |old(items)|
      ensures forall i | 0 <= i < |items| ::
        items[i] == if items[i].id == id && !Final(old(items)[i]) then old(items)[i].(status := status) else old(items)[i]
    {
      hide NoRepeats, Marked;
      for i := 0 to |items|
        invariant items == old(items) && disk == old(disk)
        invariant forall k | 0 <= k < i :: items[k].id != id
      {
        if items[i].id == id {
          if Final(items[i]) { return; }
          StatusMarks(items, i, status, launched);
          items := items[i := items[i].(status := status)];
          var saved := Save();
          return;
        }
      }
    }

    /** The runtime stopped: what was active, and when it was overloaded also what was pending, has
        failed, and nothing starts any more. No affected executions means all of them. */
    method StopRuntime(overloaded: bool, affected: set<string>)
      requires Valid()
      modifies this`items, this`disk, this`writes, this`runtimeFailed
      ensures Valid() && runtimeFailed && |items| == |old(items)|
      ensures forall i | 0 <= i < |items| :: items[i] == Stopped(old(items)[i], overloaded, affected)
    {
      hide NoRepeats;
      runtimeFailed := true;
      for i := 0 to |items|
        invariant runtimeFailed && |items| == |old(items)| && disk == old(disk) && DistinctIds(items) && Marked(items, launched) && Issued(items, issued)
        invariant forall k | 0 <= k < i :: items[k] == Stopped(old(items)[k], overloaded, affected)
        invariant forall k | i <= k < |items| :: items[k] == old(items)[k]
      {
        if Active(items[i]) || (overloaded && items[i].status == Pending) {
          if overloaded || affected == {} || items[i].id in affected { items := items[i := items[i].(status := Failed)]; }
        }
      }
      var saved := Save();
    }

    /** A restart: what the disk shows as active has failed. */
    method Load()
      requires Valid()
      modifies this`items, this`disk, this`writes, this`runtimeFailed
      ensures Valid() && !runtimeFailed && |items| == |old(disk)| && ActiveItems(items) == {}
      ensures forall i | 0 <= i < |items| ::
        items[i] == if Active(old(disk)[i]) then old(disk)[i].(status := Failed) else old(disk)[i]
    {
      hide NoRepeats;
      runtimeFailed := false;
      items := disk;
      var dirty := false;
      for i := 0 to |items|
        invariant !runtimeFailed && |items| == |disk| && disk == old(disk) && DistinctIds(items) && Marked(items, launched) && Issued(items, issued)
        invariant forall k | 0 <= k < i :: items[k] == if Active(disk[k]) then disk[k].(status := Failed) else disk[k]
        invariant forall k | i <= k < |items| :: items[k] == disk[k]
      {
        if Active(items[i]) {
          items := items[i := items[i].(status := Failed)];
          dirty := true;
        }
      }
      if dirty { var saved := Save(); }
    }

    method CountActive() returns (total: int, groups: map<string, int>)
      ensures Counted(items, total, groups)
    {
      total, groups := 0, map[];
      for i := 0 to |items|
        invariant Counted(items[..i], total, groups)
      {
        assert items[..i + 1] == items[..i] + [items[i]];
        CountedNext(items[..i], items[i], total, groups);
        if Active(items[i]) {
          total := total + 1;
          if items[i].group != "" { groups := groups[items[i].group := At(groups, items[i].group) + 1]; }
        }
      }
      assert items[..|items|] == items;
    }

    /** Change the status of an item, and the counters with it. */
    method Mark(i: nat, status: Status, total: int, groups: map<string, int>) returns (total': int, groups': map<string, int>)
      requires i < |items| && Counted(items, total, groups) && Active(items[i]) != Active(items[i].(status := status))
      requires DistinctIds(items) && Marked(items, launched) && (status == Pending ==> items[i].id !in launched)
      modifies this`items
      ensures items == SetStatus(old(items), i, status) && DistinctIds(items) && Marked(items, launched)
      ensures Issued(old(items), issued) ==> Issued(items, issued)
      ensures Counted(items, total', groups') && total' == total + if Active(items[i]) then 1 else -1
    {
      hide Counted, DistinctIds, Marked;
      StatusCounts(items, i, status, total, groups);
      StatusMarks(items, i, status, launched);
      items := items[i := items[i].(status := status)];
      var change := if Active(items[i]) then 1 else -1;
      total' := total + change;
      groups' := if items[i].group != "" then groups[items[i].group := At(groups, items[i].group) + change] else groups;
    }

    /** The last finished item of the same group before `i`, whose files are inherited. */
    method Predecessor(i: nat) returns (previous: string, found: bool)
      requires i < |items| && DistinctIds(items)
      ensures found <==> exists j :: 0 <= j < i && Precedes(items[j], items[i])
      ensures found ==> exists j :: LastBefore(items, j, i) && items[j].id == previous
      ensures found ==> items[i].group != ""
    {
      previous, found := "", false;
      for j := 0 to |items|
        invariant j <= i
        invariant found <==> exists k :: 0 <= k < j && Precedes(items[k], items[i])
        invariant found ==> exists k :: 0 <= k < j && items[k].id == previous && Precedes(items[k], items[i])
                                        && forall m | k < m < j :: !Precedes(items[m], items[i])
      {
        if items[j].id == items[i].id { break; }
        if items[i].group != "" && items[j].group == items[i].group
           && (items[j].status == Completed || items[j].status == Failed) {
          previous, found := items[j].id, true;
        }
      }
      if found {
        var k :| 0 <= k < i && items[k].id == previous && Precedes(items[k], items[i])
                 && forall m | k < m < i :: !Precedes(items[m], items[i]);
        assert LastBefore(items, k, i);
      }
    }

    /** Everything that has to work between the durable start of an item and its launch. */
    method PrepareLaunch(i: nat) returns (ready: bool)
      requires i < |items| && DistinctIds(items)
    {
      var previous, found := Predecessor(i);
      var copied: bool, resolved: bool, made: bool := *, *, *;
      if found && !copied { return false; }
      if !resolved || !made { return false; }
      for a := 0 to items[i].attachments {
        var moved: bool := *;
        if !moved { return false; }
      }
      var managed: bool, written: bool := *, *;
      return managed && written;
    }

    /** One step of a pass. */
    method Visit(i: nat, total: int, groups: map<string, int>)
      returns (total': int, groups': map<string, int>, stop: bool, ghost started: bool)
      requires i < |items| && total < maxWorkers && Counted(items, total, groups)
      requires Valid() && PassedOver(items, i)
      modifies this`items, this`disk, this`writes, this`launched
      ensures Valid() && Counted(items, total', groups') && total' <= total + 1
      ensures if started then StartedAt(i, old(items), items) else items == old(items)
      ensures !stop ==> PassedOver(items, i + 1)
      ensures launched == if started && items[i].status == Running then old(launched) + [items[i].id] else old(launched)
      ensures if started then Written(i, items, disk) else disk == old(disk)
      ensures Willing(old(writes)) ==> Willing(writes) && !stop
    {
      hide Counted, DistinctIds, Marked, PassedOver, StartedAt, NoRepeats, Willing, Written, Issued;
      total', groups', stop, started := total, groups, false, false;
      var item := items[i];
      if item.status != Pending {
        PassedNext(items, i);
        return;
      }
      if Guarded(item) && item.group in groups && groups[item.group] > 0 {
        BusyGroup(items, total, groups, item.group);
        PassedNext(items, i);
        return;
      }
      MayStart(items, i, total, groups);
      NotLaunchedYet(items, i, launched);
      ghost var before := items;
      total', groups' := Mark(i, Running, total, groups);
      var saved := Save();
      if !saved {
        total', groups' := Mark(i, Pending, total', groups');
        assert items == before;
        stop := true;
        return;
      }
      started := true;
      StillPassedOver(before, items, i, Running);
      StillPassedOver(before, SetStatus(before, i, Failed), i, Failed);
      total', groups' := Launch(i, total', groups', before);
    }

    /** The rest of a start, once it is durable: the item is launched, or it fails. */
    method Launch(i: nat, total: int, groups: map<string, int>, ghost before: seq<Item>)
      returns (total': int, groups': map<string, int>)
      requires i < |before| && items == SetStatus(before, i, Running) && disk == items
      requires Valid() && items[i].id !in launched && Counted(items, total, groups)
      modifies this`items, this`disk, this`writes, this`launched
      ensures Valid() && Counted(items, total', groups') && total' <= total && Written(i, items, disk)
      ensures items == SetStatus(before, i, Running) || items == SetStatus(before, i, Failed)
      ensures launched == if items[i].status == Running then old(launched) + [items[i].id] else old(launched)
      ensures Willing(old(writes)) ==> Willing(writes)
    {
      assert items[i].id in issued;
      hide Counted, DistinctIds, Marked, NoRepeats, Willing, Written, Issued;
      SavedIsWritten(before, items, disk, i);
      var ready := PrepareLaunch(i);
      if ready {
        LaunchIsNew(items, launched, i);
        launched := launched + [items[i].id];
      } else {
        total', groups' := Mark(i, Failed, total, groups);
        assert items == SetStatus(before, i, Failed);
        var recorded := Save();
        return;
      }
      return total, groups;
    }

    /** One pass over the queue, from the front. Its counters stay true through every exit, so the
        queue never runs more than it did or the limit allows. What it starts, it starts in turn:
        the queue at that moment is the final one before the item and the old one from it on. The
        items launched are exactly those that went from pending to running, in order, and each of
        them is durably running. Unless a write is refused, an item is left pending only when the
        limit is reached or its group is busy. */
    method Pump()
      requires Valid()
      modifies this`items, this`disk, this`writes, this`launched
      ensures Valid() && Forward(old(items), items)
      ensures runtimeFailed ==> items == old(items)
      ensures |ActiveItems(items)| <= Max(|ActiveItems(old(items))|, maxWorkers)
      ensures forall g | OneByOne(items, g) :: |ActiveInGroup(items, g)| <= Max(|ActiveInGroup(old(items), g)|, 1)
      ensures forall i | 0 <= i < |items| && items[i] != old(items)[i] && Guarded(items[i]) ::
        && ActiveInGroup(items[..i] + old(items)[i..], items[i].group) == {}
        && InTurn(items, i, items[i].group)
      ensures launched == old(launched) + Launches(old(items), items)
      ensures forall i | 0 <= i < |items| && items[i].status == Running && old(items)[i].status == Pending ::
        i < |disk| && disk[i] == items[i]
      ensures !runtimeFailed && Willing(old(writes)) ==> |ActiveItems(items)| >= maxWorkers || PassedOver(items, |items|)
    {
      hide Counted, DistinctIds, LaunchedOnce, PassedOver, ActiveItems, ActiveInGroup, StartedAt, OneByOne, Launches, Willing;
      hide Exclusive, Issued, Forward, Proper;
      ghost var first := items;
      NothingYet(first, disk);
      if runtimeFailed { return; }
      var total, groups := CountActive();
      TotalIs(items, total, groups);
      ghost var cut, reached := false, 0;
      for i := 0 to |items|
        invariant |items| == |first| && Valid() && Counted(items, total, groups) && !cut && reached == i
        invariant Pumped(first, items, i) && launched == old(launched) + Launches(first[..i], items[..i])
        invariant total <= Max(|ActiveItems(first)|, maxWorkers)
        invariant PassedOver(items, i) && Recorded(first, items, disk, i)
        invariant Willing(old(writes)) ==> Willing(writes)
      {
        if total >= maxWorkers {
          cut := true;
          break;
        }
        var stop;
        ghost var started, before, onDisk;
        before, onDisk := items, disk;
        total, groups, stop, started := Visit(i, total, groups);
        if started { StartMoves(first, before, items, disk, i); } else { VisitMoves(first, items, disk, i); }
        TotalIs(items, total, groups);
        reached := i + 1;
        if stop {
          cut := true;
          break;
        }
      }
      TotalIs(items, total, groups);
      RestStays(first, items, disk, reached);
      PassEnds(first, items, disk);
    }
  }

  function Placed(group: string, sequential: bool): string {
    if sequential && group == "" then "sequential" else group
  }

  predicate Final(item: Item) {
    item.status == Completed || item.status == Failed
  }

  function Stopped(item: Item, overloaded: bool, affected: set<string>): Item {
    if if overloaded then !Final(item) else Active(item) && (affected == {} || item.id in affected)
    then item.(status := Failed) else item
  }

  /** A finished item of the same group. */
  predicate Precedes(a: Item, b: Item) {
    b.group != "" && a.group == b.group && Final(a)
  }

  ghost predicate LastBefore(items: seq<Item>, j: int, i: nat) {
    && 0 <= j < i < |items| && Precedes(items[j], items[i])
    && forall m | j < m < i :: !Precedes(items[m], items[i])
  }

  function Max(a: int, b: int): int {
    if a > b then a else b
  }

  /** All items of the group are sequential. */
  ghost predicate OneByOne(items: seq<Item>, g: string) {
    g != "" && forall i | 0 <= i < |items| && items[i].group == g :: items[i].sequential
  }

  ghost predicate Exclusive(before: seq<Item>, after: seq<Item>) {
    forall g | OneByOne(after, g) :: |ActiveInGroup(after, g)| <= Max(|ActiveInGroup(before, g)|, 1)
  }

  /** Item `k` was started when its group was idle and no earlier one of it was pending. */
  ghost predicate Proper(first: seq<Item>, items: seq<Item>, k: nat)
    requires k < |items| == |first|
  {
    items[k] != first[k] && Guarded(items[k]) ==>
      && ActiveInGroup(items[..k] + first[k..], items[k].group) == {}
      && InTurn(items, k, items[k].group)
  }

  /** What the first `i` steps of a pass have done. */
  ghost predicate Pumped(first: seq<Item>, items: seq<Item>, i: nat) {
    && i <= |items| == |first| && items[i..] == first[i..]
    && Forward(first, items) && Exclusive(first, items)
    && forall k | 0 <= k < i :: Proper(first, items, k)
  }

  /** The items that the pass set running are durably running. */
  ghost predicate Recorded(first: seq<Item>, items: seq<Item>, disk: seq<Item>, i: nat)
    requires |items| == |first|
  {
    forall k | 0 <= k < i && k < |items| && items[k].status == Running && first[k].status == Pending ::
      k < |disk| && disk[k] == items[k]
  }

  /** Every other item is on disk as it is in memory, and item `i` too unless it has failed. */
  ghost predicate Written(i: nat, items: seq<Item>, disk: seq<Item>) {
    && |disk| == |items|
    && forall k | 0 <= k < |items| && (k != i || items[i].status == Running) :: disk[k] == items[k]
  }

  lemma SavedIsWritten(before: seq<Item>, items: seq<Item>, disk: seq<Item>, i: nat)
    requires i < |before| && items == SetStatus(before, i, Running) && disk == items
    ensures Written(i, items, disk)
    ensures Written(i, SetStatus(before, i, Failed), disk)
    ensures Written(i, SetStatus(before, i, Failed), SetStatus(before, i, Failed))
  {
  }

  lemma NothingYet(items: seq<Item>, disk: seq<Item>)
    ensures Pumped(items, items, 0) && PassedOver(items, 0) && Recorded(items, items, disk, |items|)
    ensures Launches(items[..0], items[..0]) == [] && Launches(items, items) == []
    ensures Forward(items, items) && Exclusive(items, items)
  {
    NoLaunches(items);
  }

  lemma {:induction false} NoLaunches(items: seq<Item>)
    ensures Launches(items, items) == []
  {
    if items != [] { NoLaunches(items[..|items| - 1]); }
  }

  lemma LaunchesNext(first: seq<Item>, items: seq<Item>, i: nat)
    requires i < |items| == |first|
    ensures Launches(first[..i + 1], items[..i + 1])
         == Launches(first[..i], items[..i]) + if first[i].status == Pending && items[i].status == Running then [items[i].id] else []
  {
    assert first[..i + 1][..i] == first[..i] && items[..i + 1][..i] == items[..i];
  }

  lemma VisitMoves(first: seq<Item>, items: seq<Item>, disk: seq<Item>, i: nat)
    requires i < |items| && Pumped(first, items, i) && Recorded(first, items, disk, i)
    ensures Pumped(first, items, i + 1) && Recorded(first, items, disk, i + 1)
    ensures Launches(first[..i + 1], items[..i + 1]) == Launches(first[..i], items[..i])
  {
    LaunchesNext(first, items, i);
    assert items[i] == items[i..][0] == first[i..][0] == first[i];
    assert items[i + 1..] == items[i..][1..] == first[i..][1..] == first[i + 1..];
    hide Forward, Exclusive, InTurn, ActiveInGroup;
  }

  /** The items that a pass did not reach stay as they were. */
  lemma {:induction false} RestStays(first: seq<Item>, items: seq<Item>, disk: seq<Item>, i: nat)
    requires Pumped(first, items, i) && Recorded(first, items, disk, i)
    ensures Pumped(first, items, |items|) && Recorded(first, items, disk, |items|)
    ensures Launches(first, items) == Launches(first[..i], items[..i])
    decreases |items| - i
  {
    if i < |items| {
      VisitMoves(first, items, disk, i);
      RestStays(first, items, disk, i + 1);
    } else {
      assert first[..i] == first && items[..i] == items;
    }
  }

  lemma PassEnds(first: seq<Item>, items: seq<Item>, disk: seq<Item>)
    requires Pumped(first, items, |items|) && Recorded(first, items, disk, |items|)
    ensures Forward(first, items)
    ensures forall g | OneByOne(items, g) :: |ActiveInGroup(items, g)| <= Max(|ActiveInGroup(first, g)|, 1)
    ensures forall i | 0 <= i < |items| && items[i] != first[i] && Guarded(items[i]) ::
      ActiveInGroup(items[..i] + first[i..], items[i].group) == {} && InTurn(items, i, items[i].group)
    ensures forall i | 0 <= i < |items| && items[i].status == Running && first[i].status == Pending ::
      i < |disk| && disk[i] == items[i]
  {
    hide ActiveInGroup, InTurn, OneByOne;
    forall i | 0 <= i < |items| && items[i] != first[i] && Guarded(items[i])
      ensures ActiveInGroup(items[..i] + first[i..], items[i].group) == {} && InTurn(items, i, items[i].group)
    {
      assert Proper(first, items, i);
    }
  }

  lemma StartMoves(first: seq<Item>, before: seq<Item>, after: seq<Item>, disk: seq<Item>, i: nat)
    requires Pumped(first, before, i) && StartedAt(i, before, after) && Written(i, after, disk)
    ensures Pumped(first, after, i + 1) && Recorded(first, after, disk, i + 1)
    ensures Launches(first[..i + 1], after[..i + 1])
         == Launches(first[..i], before[..i]) + if after[i].status == Running then [after[i].id] else []
  {
    assert before[i] == before[i..][0] == first[i..][0] == first[i];
    assert after[i + 1..] == before[i..][1..] == first[i..][1..] == first[i + 1..];
    assert after[..i] == before[..i];
    LaunchesNext(first, after, i);
    ForwardStep(first, before, after, i);
    ExclusiveStep(first, before, after, i);
    forall k | 0 <= k < i + 1 ensures Proper(first, after, k) { ProperStep(first, before, after, i, k); }
    hide Forward, Exclusive, Proper, InTurn, MayStartAlone;
  }

  lemma ProperStep(first: seq<Item>, before: seq<Item>, after: seq<Item>, i: nat, k: nat)
    requires Pumped(first, before, i) && StartedAt(i, before, after) && k <= i
    ensures Proper(first, after, k)
  {
    hide ActiveInGroup, Forward, Exclusive;
    if k < i {
      assert Proper(first, before, k);
      assert after[..k] == before[..k];
      forall g | InTurn(before, k, g) ensures InTurn(after, k, g) {}
    } else {
      assert after[..i] + first[i..] == before[..i] + before[i..] == before;
    }
  }

  lemma ForwardStep(first: seq<Item>, before: seq<Item>, after: seq<Item>, i: nat)
    requires StartedAt(i, before, after) && Forward(first, before) && i < |first| && before[i] == first[i]
    ensures Forward(first, after)
  {
    hide InTurn, ActiveInGroup;
  }

  lemma ExclusiveStep(first: seq<Item>, before: seq<Item>, after: seq<Item>, i: nat)
    requires StartedAt(i, before, after) && Exclusive(first, before)
    ensures Exclusive(first, after)
  {
    var status := after[i].status;
    forall g | OneByOne(after, g) ensures |ActiveInGroup(after, g)| <= Max(|ActiveInGroup(first, g)|, 1) {
      assert forall j | 0 <= j < |before| :: before[j].group == after[j].group && before[j].sequential == after[j].sequential;
      assert OneByOne(before, g);
      GroupCounts(before, i, status, g);
      hide ActiveInGroup;
      if before[i].group == g { assert Guarded(before[i]); }
    }
  }

  function SetStatus(items: seq<Item>, i: nat, status: Status): seq<Item>
    requires i < |items|
  {
    items[i := items[i].(status := status)]
  }

  /** What starting item `i` does, and when it may. */
  ghost predicate StartedAt(i: nat, before: seq<Item>, after: seq<Item>) {
    && i < |before| && (after == SetStatus(before, i, Running) || after == SetStatus(before, i, Failed))
    && MayStartAlone(before, i)
    && (Guarded(before[i]) ==> InTurn(after, i, before[i].group))
  }

  lemma StatusMarks(items: seq<Item>, i: nat, status: Status, launched: seq<string>)
    requires i < |items| && DistinctIds(items) && Marked(items, launched)
    requires status == Pending ==> items[i].id !in launched
    ensures DistinctIds(SetStatus(items, i, status)) && Marked(SetStatus(items, i, status), launched)
  {
  }

  lemma NotLaunchedYet(items: seq<Item>, i: nat, launched: seq<string>)
    requires i < |items| && Marked(items, launched) && items[i].status == Pending
    ensures items[i].id !in launched
  {
  }

  lemma LaunchIsNew(items: seq<Item>, launched: seq<string>, i: nat)
    requires i < |items| && DistinctIds(items) && Marked(items, launched) && NoRepeats(launched)
    requires items[i].status == Running && items[i].id !in launched
    ensures Marked(items, launched + [items[i].id]) && NoRepeats(launched + [items[i].id])
  {
  }

  lemma CountedNext(done: seq<Item>, item: Item, total: int, groups: map<string, int>)
    requires Counted(done, total, groups)
    ensures Counted(done + [item], if Active(item) then total + 1 else total, if Active(item) then Adjusted(groups, item.group, 1) else groups)
  {
    var after := done + [item];
    assert ActiveItems(after) == ActiveItems(done) + if Active(item) then {|done|} else {};
    var later := if Active(item) then Adjusted(groups, item.group, 1) else groups;
    forall g | g != "" ensures At(later, g) == |ActiveInGroup(after, g)| {
      assert At(groups, g) == |ActiveInGroup(done, g)|;
      CountedInGroup(done, item, g);
    }
  }

  lemma CountedInGroup(done: seq<Item>, item: Item, g: string)
    ensures |ActiveInGroup(done + [item], g)| == |ActiveInGroup(done, g)| + if Active(item) && item.group == g then 1 else 0
  {
    assert ActiveInGroup(done + [item], g) == ActiveInGroup(done, g) + if Active(item) && item.group == g then {|done|} else {};
  }

  lemma TotalIs(items: seq<Item>, total: int, groups: map<string, int>)
    requires Counted(items, total, groups)
    ensures total == |ActiveItems(items)|
  {
  }

  lemma PassedNext(items: seq<Item>, i: nat)
    requires i < |items| && PassedOver(items, i)
    requires items[i].status == Pending ==> Guarded(items[i]) && ActiveInGroup(items, items[i].group) != {}
    ensures PassedOver(items, i + 1)
  {
    hide ActiveInGroup;
  }

  lemma BusyGroup(items: seq<Item>, total: int, groups: map<string, int>, group: string)
    requires Counted(items, total, groups) && group != "" && At(groups, group) > 0
    ensures ActiveInGroup(items, group) != {}
  {
  }

  lemma MayStart(items: seq<Item>, i: nat, total: int, groups: map<string, int>)
    requires i < |items| && Counted(items, total, groups) && (Guarded(items[i]) ==> At(groups, items[i].group) <= 0)
    requires PassedOver(items, i) && items[i].status == Pending
    ensures StartedAt(i, items, SetStatus(items, i, Running)) && StartedAt(i, items, SetStatus(items, i, Failed))
  {
    if Guarded(items[i]) { IdleGroup(items, i, total, groups); }
  }

  /** When the group is idle, no earlier sequential item of it has been passed over. */
  lemma IdleGroup(items: seq<Item>, i: nat, total: int, groups: map<string, int>)
    requires i < |items| && Guarded(items[i]) && Counted(items, total, groups) && At(groups, items[i].group) <= 0
    requires PassedOver(items, i) && items[i].status == Pending
    ensures MayStartAlone(items, i)
    ensures forall status :: InTurn(SetStatus(items, i, status), i, items[i].group)
  {
    assert At(groups, items[i].group) == |ActiveInGroup(items, items[i].group)|;
  }

  lemma StillPassedOver(before: seq<Item>, after: seq<Item>, i: nat, status: Status)
    requires i < |before| && before[i].status == Pending && after == SetStatus(before, i, status)
    requires PassedOver(before, i) && status != Pending
    ensures PassedOver(after, i + 1)
  {
    forall j | 0 <= j < i + 1 && after[j].status == Pending
      ensures Guarded(after[j]) && ActiveInGroup(after, after[j].group) != {}
    {
      var k :| k in ActiveInGroup(before, before[j].group);
      assert k in ActiveInGroup(after, after[j].group);
    }
  }
}
