/** How a snapshot file is replaced (runtime/memory/persistence.go, runtime/agent/effects.go,
    runtime/agent/execution_store.go): renames and removes, each free to fail, with a crash
    possible before any of them. */
module Replacement {
  datatype File<+D> = Missing | Holds(data: D)

  datatype Files<+D> = Files(main: File<D>, previous: File<D>, temporary: File<D>)

  /** Loading falls back to the previous snapshot, and then to nothing. */
  function Load<D>(f: Files<D>): File<D> {
    if f.main.Holds? then f.main else f.previous
  }

  /** The operations of one replacement, in the order the code reaches them. */
  datatype Stage = Install | ClearBackup | SetAside | InstallAgain | PutBack | DropBackup | Ended(saved: bool)

  /** One operation, which works or fails. Renaming a missing file fails; setting aside a missing
      main file is not an error. */
  function Step<D>(stage: Stage, f: Files<D>, works: bool): (Stage, Files<D>) {
    match stage
    case Install =>
      if works && f.temporary.Holds? then (Ended(true), Files(f.temporary, f.previous, Missing)) else (ClearBackup, f)
    case ClearBackup =>
      (SetAside, if works then f.(previous := Missing) else f)
    case SetAside =>
      if f.main.Missing? then (InstallAgain, f)
      else if works then (InstallAgain, Files(Missing, f.main, f.temporary))
      else (Ended(false), f)
    case InstallAgain =>
      if works && f.temporary.Holds? then (DropBackup, Files(f.temporary, f.previous, Missing)) else (PutBack, f)
    case PutBack =>
      (Ended(false), if works && f.previous.Holds? then Files(f.previous, Missing, f.temporary) else f)
    case DropBackup =>
      (Ended(true), if works then f.(previous := Missing) else f)
    case Ended(_) => (stage, f)
  }

  /** `fate` says which operations work; when it runs out, the process has crashed. */
  function Run<D>(stage: Stage, f: Files<D>, fate: seq<bool>): (Stage, Files<D>)
    decreases |fate|
  {
    if fate == [] || stage.Ended? then (stage, f)
    else
      var (following, g) := Step(stage, f, fate[0]);
      Run(following, g, fate[1..])
  }

  /** What a replacement of `old` by `new` may leave: one of the two, the new one after success,
      the old one after an error. */
  predicate Kept<D(==)>(was: File<D>, next: File<D>, stage: Stage, f: Files<D>) {
    && (Load(f) == was || Load(f) == next)
    && (stage == Ended(true) ==> Load(f) == next)
    && (stage == Ended(false) ==> Load(f) == was)
  }

  /** The main file is there, or there is nothing to lose. */
  predicate Intact<D>(f: Files<D>) {
    f.main.Holds? || f.previous.Missing?
  }

  /** What holds on the way. */
  ghost predicate Underway<D>(was: File<D>, next: File<D>, stage: Stage, f: Files<D>) {
    match stage
    case Install => f.temporary == next && f.main == was && Intact(f)
    case ClearBackup => f.temporary == next && f.main == was && Intact(f)
    case SetAside => f.temporary == next && f.main == was && Intact(f)
    case InstallAgain => f.temporary == next && f.main == Missing && f.previous == was
    case PutBack => f.main == Missing && f.previous == was
    case DropBackup => f.main == next
    case Ended(saved) => Kept(was, next, stage, f)
  }

  lemma {:induction false} RunKeeps<D>(was: File<D>, next: File<D>, stage: Stage, f: Files<D>, fate: seq<bool>)
    requires Underway(was, next, stage, f) && next.Holds?
    ensures var (stage', g) := Run(stage, f, fate); Underway(was, next, stage', g) && Kept(was, next, stage', g)
    decreases |fate|
  {
    if fate != [] && !stage.Ended? {
      var (following, g) := Step(stage, f, fate[0]);
      RunKeeps(was, next, following, g, fate[1..]);
    }
  }

  /** Whatever fails and wherever it crashes. */
  ghost predicate Safe<D(!new)>(f: Files<D>) {
    forall fate :: Kept(Load(f), f.temporary, Run(Install, f, fate).0, Run(Install, f, fate).1)
  }

  /** One replacement is safe exactly when the main file is there or there is nothing to lose. */
  lemma SafeExactlyWhenIntact<D(!new)>(f: Files<D>)
    requires f.temporary.Holds?
    ensures Safe(f) <==> Intact(f)
  {
    if Intact(f) {
      forall fate ensures Kept(Load(f), f.temporary, Run(Install, f, fate).0, Run(Install, f, fate).1) {
        RunKeeps(Load(f), f.temporary, Install, f, fate);
      }
    } else {
      var (stage, g) := Run(Install, f, Fatal());
      BackupLost(f);
      assert !Kept(Load(f), f.temporary, Run(Install, f, Fatal()).0, Run(Install, f, Fatal()).1);
    }
  }

  /** The renames of the new file fail; the backup is removed. */
  function Fatal(): seq<bool> { [false, true, true, false, false] }

  lemma BackupLost<D>(f: Files<D>)
    requires f.main.Missing? && f.temporary.Holds?
    ensures Run(Install, f, Fatal()) == (Ended(false), Files(Missing, Missing, f.temporary))
  {
    var g := f.(previous := Missing);
    assert Fatal()[1..] == [true, true, false, false];
    assert Run(Install, f, Fatal()) == Run(ClearBackup, f, [true, true, false, false]);
    assert [true, true, false, false][1..] == [true, false, false];
    assert Run(ClearBackup, f, [true, true, false, false]) == Run(SetAside, g, [true, false, false]);
    assert [true, false, false][1..] == [false, false];
    assert Run(SetAside, g, [true, false, false]) == Run(InstallAgain, g, [false, false]);
    assert [false, false][1..] == [false];
    assert Run(InstallAgain, g, [false, false]) == Run(PutBack, g, [false]);
    assert [false][1..] == [];
  }

  // ---------- retrying ----------

  /** The execution store repeats a failed replacement, up to a number of attempts. */
  function Retry<D>(f: Files<D>, fates: seq<seq<bool>>): (Stage, Files<D>)
    requires fates != []
    decreases |fates|
  {
    var (stage, g) := Run(Install, f, fates[0]);
    if |fates| > 1 && stage == Ended(false) then Retry(g, fates[1..]) else (stage, g)
  }

  const ATTEMPTS: nat := 5

  ghost predicate SafeRetry<D(!new)>(f: Files<D>, attempts: nat) {
    forall fates: seq<seq<bool>> | 0 < |fates| <= attempts ::
      Kept(Load(f), f.temporary, Retry(f, fates).0, Retry(f, fates).1)
  }

  /** With a second attempt, a snapshot can be lost: a failed rename back leaves the only copy as
      the backup, which the next attempt removes. So retrying is safe exactly when there is nothing
      to lose, and otherwise only for a single attempt with the main file in place. */
  lemma SafeRetryExactly<D(!new)>(f: Files<D>, attempts: nat)
    requires f.temporary.Holds? && attempts > 0
    ensures SafeRetry(f, attempts) <==> Load(f).Missing? || (attempts == 1 && f.main.Holds?)
  {
    if Load(f).Missing? {
      forall fates: seq<seq<bool>> | 0 < |fates| <= attempts
        ensures Kept(Load(f), f.temporary, Retry(f, fates).0, Retry(f, fates).1)
      {
        NothingToLose(f, fates);
      }
    } else if f.main.Missing? {
      BackupLost(f);
      assert Retry(f, [Fatal()]) == Run(Install, f, Fatal());
      assert !Kept(Load(f), f.temporary, Retry(f, [Fatal()]).0, Retry(f, [Fatal()]).1);
    } else if attempts == 1 {
      forall fates: seq<seq<bool>> | 0 < |fates| <= attempts
        ensures Kept(Load(f), f.temporary, Retry(f, fates).0, Retry(f, fates).1)
      {
        RunKeeps(Load(f), f.temporary, Install, f, fates[0]);
      }
    } else {
      LostOnRetry(f);
      assert !Kept(Load(f), f.temporary, Retry(f, [Fatal(), Fatal()]).0, Retry(f, [Fatal(), Fatal()]).1);
    }
  }

  lemma {:induction false} NothingToLose<D>(f: Files<D>, fates: seq<seq<bool>>)
    requires f.temporary.Holds? && Load(f).Missing? && fates != []
    ensures Kept(Missing, f.temporary, Retry(f, fates).0, Retry(f, fates).1)
    decreases |fates|
  {
    RunKeeps(Missing, f.temporary, Install, f, fates[0]);
    var (stage, g) := Run(Install, f, fates[0]);
    if |fates| > 1 && stage == Ended(false) {
      TemporaryStays(Install, f, fates[0]);
      NothingToLose(g, fates[1..]);
    }
  }

  /** A replacement that ends with an error still has its temporary file. */
  lemma {:induction false} TemporaryStays<D>(stage: Stage, f: Files<D>, fate: seq<bool>)
    requires stage != DropBackup && stage != Ended(true)
    requires Run(stage, f, fate).0 == Ended(false)
    ensures Run(stage, f, fate).1.temporary == f.temporary
    decreases |fate|
  {
    if fate != [] && !stage.Ended? {
      var (following, g) := Step(stage, f, fate[0]);
      if following != DropBackup && following != Ended(true) { TemporaryStays(following, g, fate[1..]); }
      else { DroppingSucceeds(g, fate[1..]); }
    }
  }

  lemma EndsHere<D>(stage: Stage, f: Files<D>, fate: seq<bool>)
    requires fate != [] && Step(stage, f, fate[0]).0.Ended? && !stage.Ended?
    ensures Run(stage, f, fate) == Step(stage, f, fate[0])
  {
    var (following, g) := Step(stage, f, fate[0]);
    assert Run(following, g, fate[1..]) == (following, g);
  }

  lemma DroppingSucceeds<D>(f: Files<D>, fate: seq<bool>)
    ensures Run(DropBackup, f, fate).0 != Ended(false)
  {
    if fate != [] { assert Run(DropBackup, f, fate) == Run(Ended(true), Step(DropBackup, f, fate[0]).1, fate[1..]); }
  }

  lemma LostOnRetry<D>(f: Files<D>)
    requires f.main.Holds? && f.temporary.Holds?
    ensures Retry(f, [Fatal(), Fatal()]) == (Ended(false), Files(Missing, Missing, f.temporary))
  {
    var aside := Files(Missing, f.main, f.temporary);
    StrandedBackup(f);
    BackupLost(aside);
    assert [Fatal(), Fatal()][1..] == [Fatal()];
    assert Retry(aside, [Fatal()]) == Run(Install, aside, Fatal());
  }

  lemma StrandedBackup<D>(f: Files<D>)
    requires f.main.Holds? && f.temporary.Holds?
    ensures Run(Install, f, Fatal()) == (Ended(false), Files(Missing, f.main, f.temporary))
  {
    var g, h := f.(previous := Missing), Files(Missing, f.main, f.temporary);
    assert Fatal()[1..] == [true, true, false, false];
    assert Run(Install, f, Fatal()) == Run(ClearBackup, f, [true, true, false, false]);
    assert [true, true, false, false][1..] == [true, false, false];
    assert Run(ClearBackup, f, [true, true, false, false]) == Run(SetAside, g, [true, false, false]);
    assert [true, false, false][1..] == [false, false];
    assert Run(SetAside, g, [true, false, false]) == Run(InstallAgain, h, [false, false]);
    assert [false, false][1..] == [false];
    assert Run(InstallAgain, h, [false, false]) == Run(PutBack, h, [false]);
    assert [false][1..] == [];
  }

  // ---------- many replacements in a row ----------

  /** One save: the snapshot to write, and what happens. */
  datatype Saving<+D> = Saving(data: D, fate: seq<bool>)

  /** The files after a series of saves, each starting where the last one, or its crash, left off. */
  function FilesAfter<D>(f: Files<D>, saves: seq<Saving<D>>): Files<D> {
    if saves == [] then f
    else
      var before := FilesAfter(f, saves[..|saves| - 1]);
      var last := saves[|saves| - 1];
      Run(Install, before.(temporary := Holds(last.data)), last.fate).1
  }

  /** The main file was in place whenever a save began. */
  ghost predicate AlwaysIntact<D>(f: Files<D>, saves: seq<Saving<D>>) {
    forall i | 0 <= i < |saves| :: Intact(FilesAfter(f, saves[..i]))
  }

  /** How save `i` of a series ended. */
  function Outcome<D>(f: Files<D>, saves: seq<Saving<D>>, i: nat): Stage
    requires i < |saves|
  {
    Run(Install, FilesAfter(f, saves[..i]).(temporary := Holds(saves[i].data)), saves[i].fate).0
  }

  /** Snapshot `i` can be what loads: it was not reported as failed, and no later one as saved. */
  ghost predicate Latest<D>(f: Files<D>, saves: seq<Saving<D>>, i: nat)
    requires i < |saves|
  {
    Outcome(f, saves, i) != Ended(false) && forall k | i < k < |saves| :: Outcome(f, saves, k) != Ended(true)
  }

  /** A durable snapshot is never lost and never invented: after any series of saves, with any
      faults and crashes, what loads was written by a save that did not report an error, and no
      later save reported success; or it is the initial one, and no save reported success. */
  lemma {:induction false} SeriesLoads<D>(f: Files<D>, saves: seq<Saving<D>>)
    requires AlwaysIntact(f, saves)
    ensures var l := Load(FilesAfter(f, saves));
      || (exists i :: 0 <= i < |saves| && l == Holds(saves[i].data) && Latest(f, saves, i))
      || (l == Load(f) && forall k | 0 <= k < |saves| :: Outcome(f, saves, k) != Ended(true))
  {
    hide Outcome, FilesAfter, Load;
    if saves == [] {
      NothingSaved(f);
    } else {
      var front := saves[..|saves| - 1];
      FrontIntact(f, saves);
      SeriesLoads(f, front);
      SameOutcomes(f, saves);
      LastSave(f, saves);
      if Outcome(f, saves, |saves| - 1) != Ended(true) { StillLatest(f, saves); }
      forall i | 0 <= i < |front| ensures front[i] == saves[i] {}
    }
  }

  lemma NothingSaved<D>(f: Files<D>)
    ensures FilesAfter(f, []) == f
  {
  }

  lemma FrontIntact<D>(f: Files<D>, saves: seq<Saving<D>>)
    requires saves != [] && AlwaysIntact(f, saves)
    ensures AlwaysIntact(f, saves[..|saves| - 1]) && Intact(FilesAfter(f, saves[..|saves| - 1]))
  {
    hide FilesAfter;
    var front := saves[..|saves| - 1];
    forall i | 0 <= i < |front| ensures Intact(FilesAfter(f, front[..i])) { assert front[..i] == saves[..i]; }
  }

  /** What loads after the last save is its snapshot, unless that was reported as failed, or what
      loaded before it, unless it was reported as saved. */
  lemma LastSave<D>(f: Files<D>, saves: seq<Saving<D>>)
    requires saves != [] && Intact(FilesAfter(f, saves[..|saves| - 1]))
    ensures var n := |saves| - 1;
      var l := Load(FilesAfter(f, saves));
      || (l == Holds(saves[n].data) && Outcome(f, saves, n) != Ended(false))
      || (l == Load(FilesAfter(f, saves[..n])) && Outcome(f, saves, n) != Ended(true))
  {
    var n := |saves| - 1;
    var before := FilesAfter(f, saves[..n]);
    var start := before.(temporary := Holds(saves[n].data));
    RunKeeps(Load(before), Holds(saves[n].data), Install, start, saves[n].fate);
    hide Run;
  }

  lemma SameOutcomes<D>(f: Files<D>, saves: seq<Saving<D>>)
    requires saves != []
    ensures forall i | 0 <= i < |saves| - 1 :: Outcome(f, saves[..|saves| - 1], i) == Outcome(f, saves, i)
  {
    hide Run, FilesAfter;
    var front := saves[..|saves| - 1];
    forall i | 0 <= i < |front| ensures Outcome(f, front, i) == Outcome(f, saves, i) { assert front[..i] == saves[..i]; }
  }

  lemma StillLatest<D>(f: Files<D>, saves: seq<Saving<D>>)
    requires saves != [] && Outcome(f, saves, |saves| - 1) != Ended(true)
    ensures forall i | 0 <= i < |saves| - 1 && Latest(f, saves[..|saves| - 1], i) :: Latest(f, saves, i)
  {
    hide Outcome;
    SameOutcomes(f, saves);
  }

  // ---------- the code ----------

  class SnapshotFile<D> {
    var files: Files<D>

    constructor (files: Files<D>)
      ensures this.files == files
    {
      this.files := files;
    }

    method Rename(works: bool)
      modifies this
      ensures files == if works && old(files).temporary.Holds?
                       then Files(old(files).temporary, old(files).previous, Missing) else old(files)
    {
      if works && files.temporary.Holds? { files := Files(files.temporary, files.previous, Missing); }
    }

    /** The renames and removes of one replacement. */
    method Replace(fate: seq<bool>) returns (r: Stage)
      modifies this
      ensures (r, files) == Run(Install, old(files), fate)
    {
      ghost var all := Run(Install, files, fate);
      if |fate| == 0 { return Install; }
      var found := files.temporary.Holds?;
      Rename(fate[0]);
      if fate[0] && found {
        EndsHere(Install, old(files), fate);
        return Ended(true);
      }
      assert all == Run(ClearBackup, files, fate[1..]);
      if |fate| == 1 { return ClearBackup; }
      if fate[1] { files := files.(previous := Missing); }
      assert fate[1..][1..] == fate[2..];
      assert all == Run(SetAside, files, fate[2..]);
      if |fate| == 2 { return SetAside; }
      assert fate[2..][1..] == fate[3..];
      if files.main.Holds? {
        if !fate[2] {
          EndsHere(SetAside, files, fate[2..]);
          return Ended(false);
        }
        files := Files(Missing, files.main, files.temporary);
      }
      assert all == Run(InstallAgain, files, fate[3..]);
      if |fate| == 3 { return InstallAgain; }
      Rename(fate[3]);
      assert fate[3..][1..] == fate[4..];
      if !(fate[3] && found) {
        assert all == Run(PutBack, files, fate[4..]);
        if |fate| == 4 { return PutBack; }
        EndsHere(PutBack, files, fate[4..]);
        if fate[4] && files.previous.Holds? { files := Files(files.previous, Missing, files.temporary); }
        return Ended(false);
      }
      assert all == Run(DropBackup, files, fate[4..]);
      if |fate| == 4 { return DropBackup; }
      EndsHere(DropBackup, files, fate[4..]);
      if fate[4] { files := files.(previous := Missing); }
      return Ended(true);
    }

    /** Save a snapshot. An error leaves what was there, success the new one, a crash either. */
    method Save(data: D, fate: seq<bool>) returns (r: Stage)
      modifies this
      ensures Intact(old(files)) ==> Kept(Load(old(files)), Holds(data), r, files)
      ensures files == FilesAfter(old(files), [Saving(data, fate)])
    {
      files := files.(temporary := Holds(data));
      ghost var start := files;
      if Intact(start) { RunKeeps(Load(start), Holds(data), Install, start, fate); }
      r := Replace(fate);
    }

    /** The execution store's loop over attempts. */
    method SaveWithRetries(data: D, fates: seq<seq<bool>>) returns (r: Stage)
      requires |fates| == ATTEMPTS
      modifies this
      ensures (r, files) == Retry(old(files).(temporary := Holds(data)), fates)
    {
      files := files.(temporary := Holds(data));
      ghost var all := Retry(files, fates);
      r := Install;
      for attempt := 0 to |fates|
        invariant attempt < |fates| ==> Retry(files, fates[attempt..]) == all
        invariant attempt == |fates| ==> (r, files) == all
      {
        assert fates[attempt..][1..] == fates[attempt + 1..];
        r := Replace(fates[attempt]);
        if r != Ended(false) { return; }
      }
    }
  }
}
