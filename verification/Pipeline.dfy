/** The full-refresh pipeline (plugins/strategy/fullrefresh-py/store.py): five capability calls threaded by
    one idempotency key, over the effect-leg ledger of the format (plugins/composition/harness.py) and the
    catalog. `Advance` is one call of the strategy, so a crash is a history that stops advancing. Here an
    attempt runs with nobody else writing; PipelineRuns takes its write apart and lets others in between. */
module Pipeline {
  import opened Options
  import Cat = Catalog
  import opened FormatLedger
  import opened FormatStore

  // ----- the strategy -----

  datatype Spec = Spec(source: string, target: string, sql: string, runId: string)

  /** The key of the whole run, given to the write and to the commit. */
  function Key(spec: Spec): (key: string)
    ensures key != ""
  {
    if spec.runId != "" then spec.runId else spec.source + "->" + spec.target
  }

  /** Where an attempt stands: the next call it makes, with what it learned so far. */
  datatype Stage =
    | Resolving
    | Registering
    | Querying(branch: string)
    | Writing(branch: string, rows: seq<Row>)
    | Committing(branch: string, result: WriteResult)
    | Finished(result: WriteResult)
    | Raised

  datatype Stores = Stores(fmt: Fmt, cat: Cat.Cat)

  function Start(spec: Spec): Stage {
    if spec.sql == "" then Raised else Resolving
  }

  /** The next call of an attempt. The engine answers the query with any rows, or fails. */
  function Advance(s: Stores, spec: Spec, stage: Stage, query: Option<seq<Row>>): (Stores, Stage) {
    match stage
    case Resolving =>
      (s, if Cat.LookUp(s.cat, spec.source, "").Ref? then Registering else Raised)
    case Registering =>
      var (cat, a) := Cat.Register(s.cat, spec.target, "", "");
      (s.(cat := cat), if a.Ref? then Querying(a.branch) else Raised)
    case Querying(branch) =>
      (s, if query.Some? then Writing(branch, query.value) else Raised)
    case Writing(branch, rows) =>
      var (fmt, result) := OverwriteOnce(s.fmt, spec.target, rows, Key(spec));
      (s.(fmt := fmt), Committing(branch, result))
    case Committing(branch, result) =>
      var (cat, a) := Cat.Commit(s.cat, spec.target, branch, result.snapshot, "", Key(spec));
      (s.(cat := cat), if a.Landed? then Finished(result) else Raised)
    case _ => (s, stage)
  }

  /** An attempt that makes n calls and then stops. */
  function Go(s: Stores, spec: Spec, stage: Stage, query: Option<seq<Row>>, n: nat): (Stores, Stage)
    decreases n
  {
    if n == 0 then (s, stage)
    else
      var (s', stage') := Advance(s, spec, stage, query);
      Go(s', spec, stage', query, n - 1)
  }

  lemma {:induction false} GoStopped(s: Stores, spec: Spec, query: Option<seq<Row>>, n: nat)
    ensures Go(s, spec, Raised, query, n) == (s, Raised)
    decreases n
  {
    if n > 0 {
      GoStopped(s, spec, query, n - 1);
    }
  }

  method ApplyStrategy(cat: Cat.Catalog, fmt: FormatServicer, spec: Spec, query: Option<seq<Row>>) returns (result: Option<WriteResult>)
    modifies cat, fmt
    ensures var (s, stage) := Go(Stores(old(fmt.View()), old(cat.View())), spec, Start(spec), query, 5);
      && Stores(fmt.View(), cat.View()) == s
      && result == if stage.Finished? then Some(stage.result) else None
  {
    ghost var s := Stores(fmt.View(), cat.View());
    if spec.sql == "" {
      GoStopped(s, spec, query, 5);
      return None;
    }
    var sourceRef := cat.GetTable(spec.source, "");
    if !sourceRef.Ref? {
      GoStopped(s, spec, query, 4);
      return None;
    }
    var targetRef := cat.RegisterTable(spec.target, "", "");
    if !targetRef.Ref? {
      GoStopped(Stores(fmt.View(), cat.View()), spec, query, 3);
      return None;
    }
    if query.None? {
      GoStopped(Stores(fmt.View(), cat.View()), spec, query, 2);
      return None;
    }
    var w := fmt.Overwrite(spec.target, query.value, Key(spec));
    var c := cat.CommitTable(spec.target, targetRef.branch, w.snapshot, "", Key(spec));
    result := if c.Landed? then Some(w) else None;
  }

  /** What an attempt needs to reach its end: a source that resolves, a target name and an engine that
      answers. */
  predicate Runnable(s: Stores, spec: Spec, query: Option<seq<Row>>) {
    && spec.sql != "" && spec.target != "" && query.Some?
    && Cat.LookUp(s.cat, spec.source, "").Ref? && "main" in s.cat.branches
    && (Key(spec) in s.fmt.ledger ==> s.fmt.ledger[Key(spec)].snapshot != "")
  }

  /** An attempt that is not interrupted finishes, wherever an earlier attempt under its key stopped. It
      writes only if the key has no write yet, and commits what the write under its key minted unless
      that was committed before. */
  lemma AttemptFinishes(s: Stores, spec: Spec, query: Option<seq<Row>>)
    requires Runnable(s, spec, query)
    ensures var (s', stage), key := Go(s, spec, Start(spec), query, 5), Key(spec);
      && stage.Finished? && key in s'.fmt.ledger && key in s'.cat.commitKeys
      && (key in s.fmt.ledger ==> s'.fmt == s.fmt)
      && (key !in s.fmt.ledger ==> s'.fmt.rows == s.fmt.rows[spec.target := query.value])
      && (key !in s.cat.commitKeys ==> Cat.CommittedAt(s'.cat, spec.target, "main") == s'.fmt.ledger[key].snapshot)
      && (key in s.cat.commitKeys ==> s'.cat.commits == s.cat.commits)
  {
    GoFive(s, spec, query);
  }

  lemma GoFive(s: Stores, spec: Spec, query: Option<seq<Row>>)
    requires Runnable(s, spec, query)
    ensures Go(s, spec, Start(spec), query, 5) ==
      var cat := Cat.Register(s.cat, spec.target, "", "").0;
      var (fmt, result) := OverwriteOnce(s.fmt, spec.target, query.value, Key(spec));
      Advance(Stores(fmt, cat), spec, Committing("main", result), query)
  {
    var q := query;
    assert Go(s, spec, Resolving, q, 5) == Go(s, spec, Registering, q, 4);
    var s1 := s.(cat := Cat.Register(s.cat, spec.target, "", "").0);
    assert Go(s, spec, Registering, q, 4) == Go(s1, spec, Querying("main"), q, 3);
    assert Go(s1, spec, Querying("main"), q, 3) == Go(s1, spec, Writing("main", q.value), q, 2);
    var (fmt, result) := OverwriteOnce(s.fmt, spec.target, q.value, Key(spec));
    assert Go(s1, spec, Writing("main", q.value), q, 2) == Go(s1.(fmt := fmt), spec, Committing("main", result), q, 1);
  }

  /** When a finished attempt leaves catalog and table linked, whatever came before it. Its key fresh:
      always. Its key written but not committed: exactly when that write is the table's last. Its key
      committed before: the commit changes nothing, so exactly when they were linked, or, if the ledger has
      lost the write and it is made again, when the catalog already names the snapshot it now mints. */
  lemma AttemptLinksIff(s: Stores, spec: Spec, query: Option<seq<Row>>)
    requires Runnable(s, spec, query)
    ensures var (s', stage), key := Go(s, spec, Start(spec), query, 5), Key(spec);
      stage.Finished? &&
      (Linked(s'.fmt, s'.cat, spec.target) <==>
        if key !in s.cat.commitKeys then
          key in s.fmt.ledger ==> s.fmt.ledger[key].snapshot == TableSnapshot(s.fmt, spec.target)
        else if key in s.fmt.ledger then Linked(s.fmt, s.cat, spec.target)
        else Cat.CommittedAt(s.cat, spec.target, "main") == SnapshotOf(spec.target, VersionOf(s.fmt, spec.target) + 1))
  {
    GoFive(s, spec, query);
    var cat := Cat.Register(s.cat, spec.target, "", "").0;
    var (fmt, result) := OverwriteOnce(s.fmt, spec.target, query.value, Key(spec));
    SnapshotOfNotEmpty(spec.target, VersionOf(s.fmt, spec.target) + 1);
    CommitLinksIff(fmt, cat, spec.target, Key(spec));
  }

  // ----- a run and its id -----

  /** The name a run goes by: its id, or the pair of its tables if it has none. */
  predicate GoesBy(spec: Spec, name: string) {
    name == if spec.runId != "" then spec.runId else spec.source + "->" + spec.target
  }

  /** The first attempt of a run whose name no write and no commit has used writes its rows, one version on,
      records both under that name, and leaves catalog and table linked at its own snapshot. */
  lemma NewRunWrites(s: Stores, spec: Spec, query: Option<seq<Row>>, name: string)
    requires Runnable(s, spec, query) && GoesBy(spec, name)
    requires name !in s.fmt.ledger && name !in s.cat.commitKeys
    ensures var (s', stage), t := Go(s, spec, Start(spec), query, 5), spec.target;
      var v := VersionOf(s.fmt, t) + 1;
      var result := WriteResult(|query.value|, SnapshotOf(t, v), false);
      && stage == Finished(result)
      && s'.fmt == Fmt(s.fmt.rows[t := query.value], s.fmt.versions[t := v], s.fmt.ledger[name := result])
      && s'.cat.commitKeys == s.cat.commitKeys[name := result.snapshot]
      && Cat.CommittedAt(s'.cat, t, "main") == result.snapshot && Linked(s'.fmt, s'.cat, t)
  {
    GoFive(s, spec, query);
    SnapshotOfNotEmpty(spec.target, VersionOf(s.fmt, spec.target) + 1);
  }

  /** Whatever was used before, a completed attempt leaves exactly one more name in each ledger, its own: the
      run id where there is one, and the pair of tables only where there is none. */
  lemma NamesUsed(s: Stores, spec: Spec, query: Option<seq<Row>>, name: string)
    requires Runnable(s, spec, query) && GoesBy(spec, name)
    ensures var (s', stage) := Go(s, spec, Start(spec), query, 5);
      && stage.Finished?
      && s'.fmt.ledger.Keys == s.fmt.ledger.Keys + {name} && s'.cat.commitKeys.Keys == s.cat.commitKeys.Keys + {name}
  {
    GoFive(s, spec, query);
    SnapshotOfNotEmpty(spec.target, VersionOf(s.fmt, spec.target) + 1);
  }

  lemma RunnableAfter(s: Stores, spec: Spec, query: Option<seq<Row>>, other: Spec, answer: Option<seq<Row>>)
    requires Runnable(s, spec, query) && Runnable(s, other, answer)
    ensures Runnable(Go(s, spec, Start(spec), query, 5).0, other, answer)
  {
    GoFive(s, spec, query);
    SnapshotOfNotEmpty(spec.target, VersionOf(s.fmt, spec.target) + 1);
  }

  lemma FirstOfTwo(s: Stores, first: Spec, second: Spec, older: Option<seq<Row>>, newer: Option<seq<Row>>) returns (s1: Stores)
    requires Runnable(s, first, older) && Runnable(s, second, newer) && first.runId != "" && first.runId != second.runId
    requires first.runId !in s.fmt.ledger && first.runId !in s.cat.commitKeys
    requires second.runId !in s.fmt.ledger && second.runId !in s.cat.commitKeys
    ensures s1 == Go(s, first, Start(first), older, 5).0
    ensures Runnable(s1, second, newer) && second.runId !in s1.fmt.ledger && second.runId !in s1.cat.commitKeys
      && s1.fmt.rows == s.fmt.rows[first.target := older.value]
      && VersionOf(s1.fmt, first.target) == VersionOf(s.fmt, first.target) + 1
  {
    s1 := Go(s, first, Start(first), older, 5).0;
    NewRunWrites(s, first, older, first.runId);
    RunnableAfter(s, first, older, second, newer);
  }

  /** Two refreshes of one pair under two run ids neither of which was used both write: the table ends with the
      rows of the second, two versions on, and the catalog names its snapshot. */
  lemma TwoRunsBothWrite(s: Stores, first: Spec, second: Spec, older: Option<seq<Row>>, newer: Option<seq<Row>>)
    requires Runnable(s, first, older) && Runnable(s, second, newer) && first.target == second.target
    requires first.runId != "" && second.runId != "" && first.runId != second.runId
    requires first.runId !in s.fmt.ledger && first.runId !in s.cat.commitKeys
    requires second.runId !in s.fmt.ledger && second.runId !in s.cat.commitKeys
    ensures var s1, t := Go(s, first, Start(first), older, 5).0, first.target;
      var (s2, stage) := Go(s1, second, Start(second), newer, 5);
      && stage.Finished? && s2.fmt.rows == s.fmt.rows[t := newer.value]
      && VersionOf(s2.fmt, t) == VersionOf(s.fmt, t) + 2
      && Cat.CommittedAt(s2.cat, t, "main") == SnapshotOf(t, VersionOf(s.fmt, t) + 2)
  {
    var s1 := FirstOfTwo(s, first, second, older, newer);
    NewRunWrites(s1, second, newer, second.runId);
  }

  /** A run tried again after it completed changes nothing at all, whatever the engine answers now. */
  lemma SameRunChangesNothing(s: Stores, spec: Spec, query: Option<seq<Row>>, again: Spec, answer: Option<seq<Row>>, name: string)
    requires Runnable(s, spec, query) && Runnable(s, again, answer)
    requires GoesBy(spec, name) && GoesBy(again, name) && spec.target == again.target
    ensures var (s1, stage1) := Go(s, spec, Start(spec), query, 5);
      var (s2, stage2) := Go(s1, again, Start(again), answer, 5);
      && s2 == s1 && stage1.Finished? && stage2.Finished?
      && stage2.result == stage1.result.(alreadyApplied := true)
  {
    GoFive(s, spec, query);
    SnapshotOfNotEmpty(spec.target, VersionOf(s.fmt, spec.target) + 1);
    RunnableAfter(s, spec, query, again, answer);
    GoFive(Go(s, spec, Start(spec), query, 5).0, again, answer);
  }

  /** An attempt fails exactly when it has no query text, its source does not resolve, its target has no name, or
      the engine does not answer; otherwise it finishes. A failed one has written and committed nothing, and
      has not even registered its target if it never got past its source. */
  lemma AttemptRaisesIff(s: Stores, spec: Spec, query: Option<seq<Row>>)
    requires forall k | k in s.fmt.ledger :: s.fmt.ledger[k].snapshot != ""
    ensures var (s', stage) := Go(s, spec, Start(spec), query, 5);
      var resolves := Cat.LookUp(s.cat, spec.source, "").Ref?;
      && (stage.Raised? <==> spec.sql == "" || !resolves || spec.target == "" || query.None?)
      && (!stage.Raised? ==> stage.Finished?)
      && (stage.Raised? ==>
            s'.fmt == s.fmt && s'.cat == s.cat.(tables := s'.cat.tables)
            && s'.cat.tables == if spec.sql == "" || !resolves || spec.target == "" then s.cat.tables else s.cat.tables + {spec.target})
  {
    if Runnable(s, spec, query) {
      GoFive(s, spec, query);
      SnapshotOfNotEmpty(spec.target, VersionOf(s.fmt, spec.target) + 1);
    } else {
      AttemptRaises(s, spec, query);
    }
  }

  lemma AttemptRaises(s: Stores, spec: Spec, query: Option<seq<Row>>)
    requires spec.sql == "" || !Cat.LookUp(s.cat, spec.source, "").Ref? || spec.target == "" || query.None?
    ensures var (s', stage), resolves := Go(s, spec, Start(spec), query, 5), Cat.LookUp(s.cat, spec.source, "").Ref?;
      && stage.Raised? && s'.fmt == s.fmt && s'.cat == s.cat.(tables := s'.cat.tables)
      && s'.cat.tables == if spec.sql == "" || !resolves || spec.target == "" then s.cat.tables else s.cat.tables + {spec.target}
  {
    if spec.sql == "" {
      GoStopped(s, spec, query, 5);
    } else if !Cat.LookUp(s.cat, spec.source, "").Ref? {
      GoStopped(s, spec, query, 4);
    } else if spec.target == "" {
      GoStopped(s, spec, query, 3);
    } else {
      GoStopped(s.(cat := Cat.Register(s.cat, spec.target, "", "").0), spec, query, 2);
    }
  }

  /** Why the scheduler runs one run at a time on a target: if run `first` stops after its write, run
      `second` completes and then `first` is retried, the catalog names the snapshot of `first` while the
      table holds the rows of `second`. */
  lemma StaleRetryUnlinks(s: Stores, first: Spec, second: Spec, older: Option<seq<Row>>, newer: Option<seq<Row>>)
    requires Runnable(s, first, older) && Runnable(s, second, newer)
    requires first.target == second.target && Key(first) != Key(second)
    requires Key(first) in s.fmt.ledger && Key(first) !in s.cat.commitKeys
    requires Key(second) !in s.fmt.ledger && Key(second) !in s.cat.commitKeys
    ensures var s1 := Go(s, second, Start(second), newer, 5).0;
      var s2 := Go(s1, first, Start(first), older, 5).0;
      && s2.fmt.rows[first.target] == newer.value
      && Cat.CommittedAt(s1.cat, first.target, "main") == s1.fmt.ledger[Key(second)].snapshot
      && Cat.CommittedAt(s2.cat, first.target, "main") == s.fmt.ledger[Key(first)].snapshot
  {
    GoFive(s, second, newer);
    AttemptFinishes(s, second, newer);
    var s1 := Go(s, second, Start(second), newer, 5).0;
    AttemptFinishes(s1, first, older);
  }
}
