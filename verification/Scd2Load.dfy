/** A whole SCD2 load (plugins/strategy/scd2-py/store.py), call by call: resolve, register, read both
    tables, merge the delta and commit the snapshot, under the key "target@timestamp". A load may stop after
    any call and be tried again. An empty delta ends it early, before the merge and before the commit, and
    that is what a retry after a crash between the two finds. */
module Scd2Load {
  import opened Options
  import Cat = Catalog
  import opened FormatLedger
  import opened FormatStore
  import opened Scd2
  import opened Scd2History
  import Text

  datatype Job = Job(source: string, target: string, spec: Spec, ts: int)

  /** The key of the load of a target at a timestamp. */
  function KeyAt(target: string, ts: int): (key: string)
    ensures key != ""
  {
    target + "@" + Text.Integer(ts)
  }

  function Key(job: Job): string {
    KeyAt(job.target, job.ts)
  }

  /** Where an attempt stands: the next call it makes, with what it learned so far. */
  datatype Stage =
    | Resolving
    | Registering
    | ReadingSource(branch: string)
    | ReadingTarget(branch: string, source: seq<Row>)
    | Merging(branch: string, delta: seq<Row>)
    | Committing(branch: string, result: WriteResult)
    | Finished(result: WriteResult)
    | Raised

  datatype Stores = Stores(fmt: Fmt, cat: Cat.Cat)

  const NO_CHANGE := WriteResult(0, "", false)

  /** What the comparison of the two tables leads to: a KeyError, nothing to do, or a merge. */
  ghost function Compared(job: Job, branch: string, source: seq<Row>, target: seq<Row>): Stage {
    if Raises(job.spec, source, target) then Raised
    else
      var delta := Delta(job.spec, source, target, job.ts);
      if delta == [] then Finished(NO_CHANGE) else Merging(branch, delta)
  }

  ghost function Advance(s: Stores, job: Job, stage: Stage): (Stores, Stage) {
    match stage
    case Resolving =>
      (s, if Cat.LookUp(s.cat, job.source, "").Ref? then Registering else Raised)
    case Registering =>
      var (cat, a) := Cat.Register(s.cat, job.target, "", "");
      (s.(cat := cat), if a.Ref? then ReadingSource(a.branch) else Raised)
    case ReadingSource(branch) => (s, ReadingTarget(branch, RowsOf(s.fmt, job.source)))
    case ReadingTarget(branch, source) => (s, Compared(job, branch, source, RowsOf(s.fmt, job.target)))
    case Merging(branch, delta) =>
      var (fmt, result) := MergeOnce(s.fmt, job.target, job.spec.VersionKey(), delta, Key(job));
      (s.(fmt := fmt), Committing(branch, result))
    case Committing(branch, result) =>
      var (cat, a) := Cat.Commit(s.cat, job.target, branch, result.snapshot, "", Key(job));
      (s.(cat := cat), if a.Landed? then Finished(result) else Raised)
    case _ => (s, stage)
  }

  /** An attempt that makes n calls and then stops, for good or by a crash. */
  ghost function Go(s: Stores, job: Job, stage: Stage, n: nat): (Stores, Stage)
    decreases n
  {
    if n == 0 then (s, stage)
    else
      var (s', stage') := Advance(s, job, stage);
      Go(s', job, stage', n - 1)
  }

  /** The calls of a whole attempt. */
  const CALLS: nat := 6

  lemma {:induction false} GoStopped(s: Stores, job: Job, stage: Stage, n: nat)
    requires stage.Raised? || stage.Finished?
    ensures Go(s, job, stage, n) == (s, stage)
    decreases n
  {
    if n > 0 {
      GoStopped(s, job, stage, n - 1);
    }
  }

  function RegisteredAt(s: Stores, job: Job): Stores {
    s.(cat := Cat.Register(s.cat, job.target, "", "").0)
  }

  /** A load whose tables resolve comes to compare them. */
  lemma GoReads(s: Stores, job: Job, branch: string)
    requires Cat.LookUp(s.cat, job.source, "").Ref?
    requires Cat.Register(s.cat, job.target, "", "").1.Ref? && branch == Cat.Register(s.cat, job.target, "", "").1.branch
    ensures Go(s, job, Resolving, CALLS)
      == Go(RegisteredAt(s, job), job, Compared(job, branch, RowsOf(s.fmt, job.source), RowsOf(s.fmt, job.target)), 2)
  {
    var s1, source := RegisteredAt(s, job), RowsOf(s.fmt, job.source);
    assert Go(s, job, Resolving, 6) == Go(s, job, Registering, 5);
    assert Go(s, job, Registering, 5) == Go(s1, job, ReadingSource(branch), 4);
    assert Go(s1, job, ReadingSource(branch), 4) == Go(s1, job, ReadingTarget(branch, source), 3);
  }

  /** The write side: merge, then commit what the merge minted. */
  method WriteDelta(cat: Cat.Catalog, fmt: FormatServicer, job: Job, branch: string, delta: seq<Row>) returns (result: Option<WriteResult>)
    modifies cat, fmt
    ensures var (s, stage) := Go(Stores(old(fmt.View()), old(cat.View())), job, Merging(branch, delta), 2);
      && Stores(fmt.View(), cat.View()) == s
      && result == if stage.Finished? then Some(stage.result) else None
  {
    var merged := fmt.Merge(job.target, job.spec.VersionKey(), delta, Key(job));
    var c := cat.CommitTable(job.target, branch, merged.snapshot, "", Key(job));
    result := if c.Landed? then Some(merged) else None;
  }

  method ApplyLoad(cat: Cat.Catalog, fmt: FormatServicer, job: Job) returns (result: Option<WriteResult>)
    modifies cat, fmt
    ensures var (s, stage) := Go(Stores(old(fmt.View()), old(cat.View())), job, Resolving, CALLS);
      && Stores(fmt.View(), cat.View()) == s
      && result == if stage.Finished? then Some(stage.result) else None
  {
    ghost var s0 := Stores(fmt.View(), cat.View());
    var sourceRef := cat.GetTable(job.source, "");
    if !sourceRef.Ref? {
      GoStopped(s0, job, Raised, 5);
      return None;
    }
    var targetRef := cat.RegisterTable(job.target, "", "");
    ghost var s1 := Stores(fmt.View(), cat.View());
    if !targetRef.Ref? {
      GoStopped(s1, job, Raised, 4);
      return None;
    }
    GoReads(s0, job, targetRef.branch);
    var sourceRows := fmt.Resolve(job.source);
    var targetRows := fmt.Resolve(job.target);
    var delta := ComputeDelta(job.spec, sourceRows, targetRows, job.ts);
    if delta.None? {
      GoStopped(s1, job, Raised, 2);
      return None;
    }
    if delta.value == [] {
      GoStopped(s1, job, Finished(NO_CHANGE), 2);
      return Some(NO_CHANGE);
    }
    result := WriteDelta(cat, fmt, job, targetRef.branch, delta.value);
  }

  // ----- where an attempt is after n calls -----

  /** What its writes need to succeed. */
  predicate Writable(s: Stores, job: Job) {
    && job.target != "" && "main" in s.cat.branches
    && (Key(job) in s.fmt.ledger ==> s.fmt.ledger[Key(job)].snapshot != "")
  }

  /** What an attempt needs to reach its end. */
  ghost predicate Runnable(s: Stores, job: Job) {
    && Writable(s, job) && Cat.LookUp(s.cat, job.source, "").Ref?
    && !Raises(job.spec, RowsOf(s.fmt, job.source), RowsOf(s.fmt, job.target))
  }

  function DeltaAt(s: Stores, job: Job): seq<Row> {
    Delta(job.spec, RowsOf(s.fmt, job.source), RowsOf(s.fmt, job.target), job.ts)
  }

  function MergedAt(s: Stores, job: Job): (Fmt, WriteResult) {
    MergeOnce(s.fmt, job.target, job.spec.VersionKey(), DeltaAt(s, job), Key(job))
  }

  function CommittedBy(s: Stores, job: Job): Stores {
    var (fmt, result) := MergedAt(s, job);
    Stores(fmt, Cat.Commit(RegisteredAt(s, job).cat, job.target, "main", result.snapshot, "", Key(job)).0)
  }

  /** Where the read side is after n calls. */
  function ReadAt(s: Stores, job: Job, n: nat): (Stores, Stage)
    requires n <= 4
  {
    var s1, source := RegisteredAt(s, job), RowsOf(s.fmt, job.source);
    if n == 0 then (s, Resolving)
    else if n == 1 then (s, Registering)
    else if n == 2 then (s1, ReadingSource("main"))
    else if n == 3 then (s1, ReadingTarget("main", source))
    else (s1, if DeltaAt(s, job) == [] then Finished(NO_CHANGE) else Merging("main", DeltaAt(s, job)))
  }

  lemma ReadAdvances(s: Stores, job: Job, n: nat)
    requires Runnable(s, job) && n < 4
    ensures Advance(ReadAt(s, job, n).0, job, ReadAt(s, job, n).1) == ReadAt(s, job, n + 1)
  {
  }

  lemma {:induction false} ReadsTo(s: Stores, job: Job, n: nat)
    requires Runnable(s, job) && n <= 4
    ensures Go(s, job, Resolving, n) == ReadAt(s, job, n)
  {
    if n > 0 {
      ReadsTo(s, job, n - 1);
      GoSplit(s, job, Resolving, n - 1, 1);
      ReadAdvances(s, job, n - 1);
      GoOne(ReadAt(s, job, n - 1).0, job, ReadAt(s, job, n - 1).1);
    }
  }

  lemma GoOne(s: Stores, job: Job, stage: Stage)
    ensures Go(s, job, stage, 1) == Advance(s, job, stage)
  {
    var (s', stage') := Advance(s, job, stage);
    assert Go(s', job, stage', 0) == (s', stage');
  }

  lemma {:induction false} GoSplit(s: Stores, job: Job, stage: Stage, m: nat, n: nat)
    ensures var mid := Go(s, job, stage, m); Go(s, job, stage, m + n) == Go(mid.0, job, mid.1, n)
    decreases m
  {
    if m > 0 {
      var (s', stage') := Advance(s, job, stage);
      GoSplit(s', job, stage', m - 1, n);
    }
  }

  /** The merge's result is what the ledger has under the key. */
  lemma MergedResult(s: Stores, job: Job)
    requires Writable(s, job)
    ensures var (fmt, result) := MergedAt(s, job);
      && Key(job) in fmt.ledger && fmt.ledger[Key(job)].snapshot == result.snapshot != ""
      && (Key(job) in s.fmt.ledger ==> fmt == s.fmt)
      && (Key(job) !in s.fmt.ledger ==> result.snapshot == TableSnapshot(fmt, job.target))
  {
    var d := DeltaAt(s, job);
    WriteResultIs(s.fmt, job.target, FormatStore.Merge(RowsOf(s.fmt, job.target), job.spec.VersionKey(), d), |d|, Key(job));
  }

  lemma MergeAdvances(s: Stores, job: Job)
    ensures Advance(RegisteredAt(s, job), job, Merging("main", DeltaAt(s, job)))
      == (RegisteredAt(s, job).(fmt := MergedAt(s, job).0), Committing("main", MergedAt(s, job).1))
  {
  }

  lemma CommitAdvances(s: Stores, job: Job)
    requires Writable(s, job)
    ensures Advance(RegisteredAt(s, job).(fmt := MergedAt(s, job).0), job, Committing("main", MergedAt(s, job).1))
      == (CommittedBy(s, job), Finished(MergedAt(s, job).1))
  {
    MergedResult(s, job);
    CommitLands(RegisteredAt(s, job).cat, job.target, MergedAt(s, job).1.snapshot, Key(job));
  }

  lemma CommitLands(c: Cat.Cat, target: string, snapshot: string, key: string)
    requires target != "" && target in c.tables && "main" in c.branches && snapshot != ""
    ensures Cat.Commit(c, target, "main", snapshot, "", key).1.Landed?
  {
  }

  /** Where the write side is after n calls of its own. */
  function WrittenAt(s: Stores, job: Job, n: nat): (Stores, Stage) {
    if n == 1 then (RegisteredAt(s, job).(fmt := MergedAt(s, job).0), Committing("main", MergedAt(s, job).1))
    else (CommittedBy(s, job), Finished(MergedAt(s, job).1))
  }

  lemma WritesTo(s: Stores, job: Job, n: nat)
    requires Writable(s, job) && n >= 1
    ensures Go(RegisteredAt(s, job), job, Merging("main", DeltaAt(s, job)), n) == WrittenAt(s, job, n)
  {
    MergeAdvances(s, job);
    if n >= 2 {
      CommitAdvances(s, job);
      GoStopped(CommittedBy(s, job), job, Finished(MergedAt(s, job).1), n - 2);
    }
  }

  lemma StopsEnded(s: Stores, job: Job, s1: Stores, m: nat, n: nat)
    requires Go(s, job, Resolving, m) == (s1, Finished(NO_CHANGE))
    ensures Go(s, job, Resolving, m + n) == (s1, Finished(NO_CHANGE))
  {
    GoStopped(s1, job, Finished(NO_CHANGE), n);
    GoSplit(s, job, Resolving, m, n);
  }

  lemma StopsMerged(s: Stores, job: Job, m: nat, n: nat)
    requires Writable(s, job) && n >= 1
    requires Go(s, job, Resolving, m) == (RegisteredAt(s, job), Merging("main", DeltaAt(s, job)))
    ensures Go(s, job, Resolving, m + n) == WrittenAt(s, job, n)
  {
    WritesTo(s, job, n);
    GoSplit(s, job, Resolving, m, n);
  }

  /** Where an attempt is after n calls: still reading, ended early, merged, or done. */
  lemma StopsAt(s: Stores, job: Job, n: nat)
    requires Runnable(s, job)
    ensures var (s', stage') := Go(s, job, Resolving, n);
      if n <= 1 then s' == s
      else if n <= 4 || DeltaAt(s, job) == [] then
        s' == RegisteredAt(s, job) && (n >= 4 && DeltaAt(s, job) == [] ==> stage' == Finished(NO_CHANGE))
      else if n == 5 then s' == RegisteredAt(s, job).(fmt := MergedAt(s, job).0)
      else s' == CommittedBy(s, job) && stage' == Finished(MergedAt(s, job).1)
  {
    var m: nat :| m == if n <= 4 then n else 4;
    ReadsTo(s, job, m);
    if n > 4 {
      if DeltaAt(s, job) == [] {
        StopsEnded(s, job, RegisteredAt(s, job), m, n - m);
      } else {
        StopsMerged(s, job, m, n - m);
      }
    }
  }

  // ----- when catalog and table are linked -----

  /** After an attempt that stops after n calls, whatever came before it, catalog and table are linked
      exactly so: as they were, if it stopped before the merge or had nothing to change; if it merged and
      stopped before the commit, only if the merge was a repeat and they were linked; if it committed, as
      for the full refresh. */
  lemma StoppedLinksIff(s: Stores, job: Job, n: nat)
    requires Runnable(s, job)
    ensures var s', key, t := Go(s, job, Resolving, n).0, Key(job), job.target;
      var nextSnapshot := SnapshotOf(t, VersionOf(s.fmt, t) + 1);
      Linked(s'.fmt, s'.cat, t) <==>
        if n < 5 || DeltaAt(s, job) == [] then Linked(s.fmt, s.cat, t)
        else if n >= CALLS && key !in s.cat.commitKeys then
          key in s.fmt.ledger ==> s.fmt.ledger[key].snapshot == TableSnapshot(s.fmt, t)
        else if key in s.fmt.ledger then Linked(s.fmt, s.cat, t)
        else Cat.CommittedAt(s.cat, t, "main") == nextSnapshot
  {
    StopsAt(s, job, n);
    if n >= 5 && DeltaAt(s, job) != [] {
      MergeLinkIff(s, job);
      WritesLinkIff(s, job);
    }
  }

  lemma MergeLinkIff(s: Stores, job: Job)
    ensures var t := job.target;
      Linked(MergedAt(s, job).0, RegisteredAt(s, job).cat, t) <==>
        if Key(job) in s.fmt.ledger then Linked(s.fmt, s.cat, t)
        else Cat.CommittedAt(s.cat, t, "main") == SnapshotOf(t, VersionOf(s.fmt, t) + 1)
  {
    var t, d := job.target, DeltaAt(s, job);
    WriteLinksIff(s.fmt, RegisteredAt(s, job).cat, t, FormatStore.Merge(RowsOf(s.fmt, t), job.spec.VersionKey(), d), |d|, Key(job));
  }

  lemma WritesLinkIff(s: Stores, job: Job)
    requires Writable(s, job)
    ensures var t := job.target;
      Linked(MergedAt(s, job).0, CommittedBy(s, job).cat, t) <==>
        if Key(job) !in s.cat.commitKeys then
          Key(job) in s.fmt.ledger ==> s.fmt.ledger[Key(job)].snapshot == TableSnapshot(s.fmt, t)
        else if Key(job) in s.fmt.ledger then Linked(s.fmt, s.cat, t)
        else Cat.CommittedAt(s.cat, t, "main") == SnapshotOf(t, VersionOf(s.fmt, t) + 1)
  {
    MergeLinkIff(s, job);
    MergedResult(s, job);
    CommitLinksIff(MergedAt(s, job).0, RegisteredAt(s, job).cat, job.target, Key(job));
  }

  // ----- a crash and a retry -----

  /** A load later than everything in the table, under a key not written with. */
  ghost predicate FreshLoad(s: Stores, job: Job, latest: int) {
    && job.source != job.target && job.target != "" && latest < job.ts
    && Cat.LookUp(s.cat, job.source, "").Ref? && "main" in s.cat.branches
    && Loads(job.spec, RowsOf(s.fmt, job.source), RowsOf(s.fmt, job.target), latest)
    && Key(job) !in s.fmt.ledger
  }

  /** And never committed, on a table the catalog is linked to. */
  ghost predicate NewLoad(s: Stores, job: Job, latest: int) {
    FreshLoad(s, job, latest) && Key(job) !in s.cat.commitKeys && Linked(s.fmt, s.cat, job.target)
  }

  lemma NewLoadRuns(s: Stores, job: Job, latest: int)
    requires FreshLoad(s, job, latest)
    ensures Runnable(s, job)
  {
    NeverRaises(job.spec, RowsOf(s.fmt, job.source), RowsOf(s.fmt, job.target), latest);
  }

  /** The load's data is in the table: another attempt has nothing to change. */
  ghost predicate Settled(s: Stores, job: Job) {
    Runnable(s, job) && DeltaAt(s, job) == []
  }

  /** What the merge of a new load leaves in the format. */
  lemma MergedFormat(s: Stores, job: Job)
    requires job.source != job.target && Key(job) !in s.fmt.ledger
    ensures var fmt, v := MergedAt(s, job).0, VersionOf(s.fmt, job.target) + 1;
      && RowsOf(fmt, job.source) == RowsOf(s.fmt, job.source)
      && RowsOf(fmt, job.target) == Loaded(job.spec, RowsOf(s.fmt, job.source), RowsOf(s.fmt, job.target), job.ts)
      && TableSnapshot(fmt, job.target) == SnapshotOf(job.target, v)
      && Key(job) in fmt.ledger && fmt.ledger[Key(job)].snapshot == SnapshotOf(job.target, v) != ""
  {
    SnapshotOfNotEmpty(job.target, VersionOf(s.fmt, job.target) + 1);
  }

  /** Once a new load is in the table, comparing again finds nothing. */
  lemma LoadedSettles(spec: Spec, source: seq<Row>, rows: seq<Row>, latest: int, ts: int)
    requires Loads(spec, source, rows, latest) && latest < ts
    ensures var rows' := Loaded(spec, source, rows, ts); Delta(spec, source, rows', ts) == [] && !Raises(spec, source, rows')
  {
    var rows' := Loaded(spec, source, rows, ts);
    HistoryIsKept(spec, source, rows, latest, ts);
    PresentIsSource(spec, source, rows, latest, ts, ts);
    NothingToDo(spec, source, rows', ts, ts);
    NeverRaises(spec, source, rows', ts);
  }

  lemma MergedSettles(s: Stores, job: Job, latest: int, s': Stores)
    requires FreshLoad(s, job, latest)
    requires s'.fmt == MergedAt(s, job).0 && s'.cat.branches == s.cat.branches && s.cat.tables <= s'.cat.tables
    ensures Settled(s', job)
  {
    MergedFormat(s, job);
    LoadedSettles(job.spec, RowsOf(s.fmt, job.source), RowsOf(s.fmt, job.target), latest, job.ts);
  }

  /** An attempt at a settled load changes no table and no commit. */
  lemma SettledStays(s: Stores, job: Job, n: nat)
    requires Settled(s, job)
    ensures var (s', stage') := Go(s, job, Resolving, n);
      && s'.fmt == s.fmt && s'.cat.commits == s.cat.commits && Settled(s', job)
      && (n >= 4 ==> stage' == Finished(NO_CHANGE))
  {
    StopsAt(s, job, n);
  }

  lemma StoppedCanRetry(s: Stores, job: Job, latest: int, n: nat)
    requires NewLoad(s, job, latest)
    ensures var s' := Go(s, job, Resolving, n).0;
      if n < 5 then NewLoad(s', job, latest) && DeltaAt(s', job) == DeltaAt(s, job) else Settled(s', job)
  {
    NewLoadRuns(s, job, latest);
    StopsAt(s, job, n);
    if n >= 5 && DeltaAt(s, job) != [] {
      MergedSettles(s, job, latest, Go(s, job, Resolving, n).0);
    }
  }

  /** A snapshot of a later version than the table's own is never the one the catalog names. */
  lemma BehindAfterMerge(s: Stores, job: Job)
    requires Linked(s.fmt, s.cat, job.target)
    ensures Cat.CommittedAt(s.cat, job.target, "main") != SnapshotOf(job.target, VersionOf(s.fmt, job.target) + 1)
  {
    var v := VersionOf(s.fmt, job.target);
    SnapshotOfNotEmpty(job.target, v + 1);
    if SnapshotOf(job.target, v) == SnapshotOf(job.target, v + 1) {
      SnapshotOfInjective(job.target, v, v + 1);
    }
  }

  /** A load that stops after n calls and is then retried to its end: the retry always finishes, and
      catalog and table are linked exactly unless the first attempt stopped between its merge and its
      commit with something to change. */
  lemma RetryLinksIff(s: Stores, job: Job, latest: int, n: nat)
    requires NewLoad(s, job, latest)
    ensures var s1 := Go(s, job, Resolving, n).0;
      var (s2, stage) := Go(s1, job, Resolving, CALLS);
      && stage.Finished?
      && (Linked(s2.fmt, s2.cat, job.target) <==> !(n == 5 && DeltaAt(s, job) != []))
  {
    var s1 := Go(s, job, Resolving, n).0;
    NewLoadRuns(s, job, latest);
    StoppedCanRetry(s, job, latest, n);
    StoppedLinksIff(s, job, n);
    BehindAfterMerge(s, job);
    if n < 5 {
      NewLoadRuns(s1, job, latest);
    }
    StopsAt(s1, job, CALLS);
    StoppedLinksIff(s1, job, CALLS);
  }

  /** Attempts at one load, one after the other, each stopping where it likes. */
  ghost function Retried(s: Stores, job: Job, stops: seq<nat>): Stores {
    if stops == [] then s
    else Go(Retried(s, job, stops[..|stops|-1]), job, Resolving, stops[|stops|-1]).0
  }

  lemma {:induction false} SettledForever(s: Stores, job: Job, stops: seq<nat>)
    requires Settled(s, job)
    ensures var s' := Retried(s, job, stops);
      s'.fmt == s.fmt && s'.cat.commits == s.cat.commits && Settled(s', job)
  {
    if stops != [] {
      SettledForever(s, job, stops[..|stops|-1]);
      SettledStays(Retried(s, job, stops[..|stops|-1]), job, stops[|stops|-1]);
    }
  }

  /** The crash point: merged and not committed. */
  lemma AfterMerge(s: Stores, job: Job, latest: int) returns (s1: Stores)
    requires NewLoad(s, job, latest) && DeltaAt(s, job) != []
    ensures s1 == Go(s, job, Resolving, 5).0 && Settled(s1, job)
    ensures RowsOf(s1.fmt, job.target) == Loaded(job.spec, RowsOf(s.fmt, job.source), RowsOf(s.fmt, job.target), job.ts)
    ensures TableSnapshot(s1.fmt, job.target) == SnapshotOf(job.target, VersionOf(s.fmt, job.target) + 1)
    ensures s1.cat.commits == s.cat.commits
  {
    s1 := Go(s, job, Resolving, 5).0;
    NewLoadRuns(s, job, latest);
    StopsAt(s, job, 5);
    MergedFormat(s, job);
    StoppedCanRetry(s, job, latest, 5);
  }

  /** The history that leaves the catalog behind: a load with something to change crashes between its merge
      and its commit. Then no retry of it, however often, ever commits: the table holds the load, and the
      catalog still names the snapshot before it. */
  lemma CrashLeavesCatalogBehind(s: Stores, job: Job, latest: int, stops: seq<nat>)
    requires NewLoad(s, job, latest) && DeltaAt(s, job) != []
    ensures var s' := Retried(Go(s, job, Resolving, 5).0, job, stops);
      var rows, source := RowsOf(s.fmt, job.target), RowsOf(s.fmt, job.source);
      && RowsOf(s'.fmt, job.target) == Loaded(job.spec, source, rows, job.ts)
      && Cat.CommittedAt(s'.cat, job.target, "main") == TableSnapshot(s.fmt, job.target)
      && TableSnapshot(s'.fmt, job.target) == SnapshotOf(job.target, VersionOf(s.fmt, job.target) + 1)
      && !Linked(s'.fmt, s'.cat, job.target)
  {
    var s1 := AfterMerge(s, job, latest);
    SettledForever(s1, job, stops);
    BehindAfterMerge(s, job);
  }

  /** It does happen: the first load of any non-empty source has something to change. */
  lemma FirstLoadChanges(s: Stores, job: Job)
    requires RowsOf(s.fmt, job.target) == [] && RowsOf(s.fmt, job.source) != []
    ensures DeltaAt(s, job) != []
  {
    var source := RowsOf(s.fmt, job.source);
    assert IndexOf(job.spec, []) == Index([], map[]);
    assert Changes(job.spec, map[], source[|source|-1], job.ts) == [Version(job.spec, source[|source|-1], job.ts)];
  }
}
