/** What the rows are once an SCD2 load has finished, and over whole sequences of loads with crashes and
    retries: when the table shows the source that was read, and that every past load stays readable. */
module Scd2Rounds {
  import opened Options
  import Cat = Catalog
  import opened FormatLedger
  import opened FormatStore
  import opened Scd2
  import opened Scd2History
  import opened Scd2Load
  import Text

  /** A load always finishes, and leaves the table showing what it read from its source exactly when it had
      nothing to change or its key was not written with before. Otherwise its delta is dropped as a repeat:
      so ends a retry, under the same timestamp, that reads a source changed since the merge. */
  lemma FinishShowsSourceIff(s: Stores, job: Job, latest: int, t: int)
    requires Runnable(s, job) && latest <= t && job.ts <= t
    requires Loads(job.spec, RowsOf(s.fmt, job.source), RowsOf(s.fmt, job.target), latest)
    ensures var (s', stage) := Go(s, job, Resolving, CALLS);
      stage.Finished? &&
      (AsOf(job.spec, RowsOf(s'.fmt, job.target), t) == Snapshot(job.spec, RowsOf(s.fmt, job.source)) <==>
        DeltaAt(s, job) == [] || Key(job) !in s.fmt.ledger)
  {
    var source, rows := RowsOf(s.fmt, job.source), RowsOf(s.fmt, job.target);
    StopsAt(s, job, CALLS);
    PresentIsSource(job.spec, source, rows, latest, job.ts, t);
    if AsOf(job.spec, rows, t) == Snapshot(job.spec, source) {
      NothingToDo(job.spec, source, rows, t, job.ts);
    }
  }

  // ----- one load, tried until it finishes -----

  /** Where attempts at a load that began at s have come to: nothing merged yet, or all of it. */
  ghost predicate Underway(s: Stores, job: Job, latest: int, s': Stores) {
    || (FreshLoad(s', job, latest) && s'.fmt == s.fmt)
    || (Settled(s', job) && s'.fmt == MergedAt(s, job).0)
  }

  lemma StopKeepsUnderway(s: Stores, job: Job, latest: int, s': Stores, n: nat)
    requires Underway(s, job, latest, s')
    ensures Underway(s, job, latest, Go(s', job, Resolving, n).0)
  {
    if FreshLoad(s', job, latest) && s'.fmt == s.fmt {
      NewLoadRuns(s', job, latest);
      StopsAt(s', job, n);
      if n >= 5 && DeltaAt(s', job) != [] {
        MergedSettles(s', job, latest, Go(s', job, Resolving, n).0);
      }
    } else {
      SettledStays(s', job, n);
    }
  }

  lemma {:induction false} RetriesUnderway(s: Stores, job: Job, latest: int, stops: seq<nat>)
    requires FreshLoad(s, job, latest)
    ensures Underway(s, job, latest, Retried(s, job, stops))
  {
    if stops != [] {
      var init := stops[..|stops|-1];
      RetriesUnderway(s, job, latest, init);
      StopKeepsUnderway(s, job, latest, Retried(s, job, init), stops[|stops|-1]);
    }
  }

  lemma LastAttempt(s: Stores, job: Job, latest: int, s': Stores)
    requires FreshLoad(s, job, latest) && Underway(s, job, latest, s')
    ensures var (s2, stage) := Go(s', job, Resolving, CALLS);
      stage.Finished? && ((s2.fmt == s.fmt && DeltaAt(s, job) == []) || s2.fmt == MergedAt(s, job).0)
  {
    if FreshLoad(s', job, latest) && s'.fmt == s.fmt {
      NewLoadRuns(s', job, latest);
      StopsAt(s', job, CALLS);
    } else {
      SettledStays(s', job, CALLS);
    }
  }

  /** A load stopped any number of times, anywhere, and then let through has the effect of one load. */
  lemma RetriedLoadsOnce(s: Stores, job: Job, latest: int, stops: seq<nat>)
    requires FreshLoad(s, job, latest)
    ensures var (s', stage) := Go(Retried(s, job, stops), job, Resolving, CALLS);
      && stage.Finished?
      && RowsOf(s'.fmt, job.target) == Loaded(job.spec, RowsOf(s.fmt, job.source), RowsOf(s.fmt, job.target), job.ts)
      && (forall k | k in s'.fmt.ledger :: k in s.fmt.ledger || k == Key(job))
  {
    RetriesUnderway(s, job, latest, stops);
    LastAttempt(s, job, latest, Retried(s, job, stops));
    MergedFormat(s, job);
  }

  // ----- rounds of loads -----

  /** A round finds the stores as they are at `begin`, is stopped after so many calls each time, and at last
      let through; meanwhile nobody else writes. Between rounds, others change what they like but the target
      and the keys of its loads. */
  datatype Round = Round(begin: Stores, ts: int, stops: seq<nat>)

  ghost function Ended(job: Job, r: Round): Stores {
    Go(Retried(r.begin, job.(ts := r.ts), r.stops), job.(ts := r.ts), Resolving, CALLS).0
  }

  /** The stamps the target was loaded under are at most this. */
  ghost predicate KeysUpTo(f: Fmt, target: string, ts: int) {
    forall u :: KeyAt(target, u) in f.ledger ==> u <= ts
  }

  ghost predicate SameTarget(f: Fmt, f': Fmt, target: string) {
    RowsOf(f, target) == RowsOf(f', target) && forall u :: KeyAt(target, u) in f.ledger <==> KeyAt(target, u) in f'.ledger
  }

  ghost predicate BeginOk(job: Job, s: Stores) {
    && Cat.LookUp(s.cat, job.source, "").Ref? && "main" in s.cat.branches
    && SourceOk(job.spec, RowsOf(s.fmt, job.source))
  }

  /** Rounds of loads of one target from one source, from an empty table on. The job's own ts plays no part. */
  ghost predicate RoundsOk(job: Job, rounds: seq<Round>) {
    && job.spec.Valid() && job.target != "" && job.source != job.target
    && (forall i | 0 <= i < |rounds| :: BeginOk(job, rounds[i].begin))
    && (forall i, j | 0 <= i < j < |rounds| :: rounds[i].ts < rounds[j].ts)
    && (rounds != [] ==> SameTarget(NoTables(), rounds[0].begin.fmt, job.target))
    && (forall i, j | 0 <= i && j == i + 1 < |rounds| :: SameTarget(Ended(job, rounds[i]).fmt, rounds[j].begin.fmt, job.target))
  }

  function LoadOf(job: Job, r: Round): Load {
    Load(r.ts, RowsOf(r.begin.fmt, job.source))
  }

  function LoadsOf(job: Job, rounds: seq<Round>): (loads: seq<Load>)
    ensures |loads| == |rounds| && forall i | 0 <= i < |rounds| :: loads[i] == LoadOf(job, rounds[i])
  {
    seq(|rounds|, i requires 0 <= i < |rounds| => LoadOf(job, rounds[i]))
  }

  /** Loads of different targets, or at different timestamps, never share a key. */
  lemma KeyAtInjective(target: string, m: int, other: string, n: int)
    requires KeyAt(target, m) == KeyAt(other, n)
    ensures target == other && m == n
  {
    Text.ReadsInteger(m);
    Text.ReadsInteger(n);
    Text.LastFieldUnique(target, Text.Integer(m), other, Text.Integer(n), '@');
  }

  lemma RoundEnds(job: Job, r: Round, latest: int)
    requires FreshLoad(r.begin, job.(ts := r.ts), latest) && KeysUpTo(r.begin.fmt, job.target, latest)
    ensures RowsOf(Ended(job, r).fmt, job.target)
      == Loaded(job.spec, RowsOf(r.begin.fmt, job.source), RowsOf(r.begin.fmt, job.target), r.ts)
    ensures KeysUpTo(Ended(job, r).fmt, job.target, r.ts)
  {
    RetriedLoadsOnce(r.begin, job.(ts := r.ts), latest, r.stops);
    forall u | KeyAt(job.target, u) in Ended(job, r).fmt.ledger ensures u <= r.ts {
      if KeyAt(job.target, u) == KeyAt(job.target, r.ts) {
        KeyAtInjective(job.target, u, job.target, r.ts);
      }
    }
  }

  /** What the last of several rounds finds: the table the one before left, and no stamp later than its. */
  lemma LastRound(job: Job, rounds: seq<Round>, n: nat, latest: int)
    requires RoundsOk(job, rounds) && n + 1 == |rounds|
    requires var loads := LoadsOf(job, rounds[..n]);
      if n == 0 then latest < rounds[0].ts
      else
        && latest == rounds[n-1].ts && KeysUpTo(Ended(job, rounds[n-1]).fmt, job.target, latest)
        && RowsOf(Ended(job, rounds[n-1]).fmt, job.target) == Scd2History.Table(job.spec, loads)
        && History(job.spec, Scd2History.Table(job.spec, loads), latest)
    ensures KeysUpTo(rounds[n].begin.fmt, job.target, latest)
    ensures RowsOf(rounds[n].begin.fmt, job.target) == Scd2History.Table(job.spec, LoadsOf(job, rounds[..n]))
    ensures FreshLoad(rounds[n].begin, job.(ts := rounds[n].ts), latest)
  {
    var begin := rounds[n].begin;
    assert BeginOk(job, begin);
    if n > 0 {
      assert SameTarget(Ended(job, rounds[n-1]).fmt, begin.fmt, job.target);
    } else {
      assert SameTarget(NoTables(), begin.fmt, job.target);
    }
    assert KeyAt(job.target, rounds[n].ts) !in begin.fmt.ledger;
  }

  lemma PrefixOk(job: Job, rounds: seq<Round>, n: nat)
    requires RoundsOk(job, rounds) && n <= |rounds|
    ensures RoundsOk(job, rounds[..n]) && LoadsOf(job, rounds[..n]) == LoadsOf(job, rounds)[..n]
    ensures LoadsOk(job.spec, LoadsOf(job, rounds))
  {
    var loads := LoadsOf(job, rounds);
    forall i | 0 <= i < |loads| ensures SourceOk(job.spec, loads[i].source) {
      assert BeginOk(job, rounds[i].begin);
    }
  }

  /** After the rounds, the table holds what the loads of Scd2History make of the sources that were read. */
  lemma {:induction false} RoundsAreLoads(job: Job, rounds: seq<Round>)
    requires RoundsOk(job, rounds) && rounds != []
    ensures var last, loads := rounds[|rounds|-1], LoadsOf(job, rounds);
      && LoadsOk(job.spec, loads)
      && RowsOf(Ended(job, last).fmt, job.target) == Scd2History.Table(job.spec, loads)
      && KeysUpTo(Ended(job, last).fmt, job.target, last.ts)
  {
    var n := |rounds| - 1;
    PrefixOk(job, rounds, n);
    var latest := if n > 0 then rounds[n-1].ts else rounds[0].ts - 1;
    if n > 0 {
      RoundsAreLoads(job, rounds[..n]);
      TableIsHistory(job.spec, LoadsOf(job, rounds[..n]));
    }
    LastRound(job, rounds, n, latest);
    RoundEnds(job, rounds[n], latest);
  }

  /** Time travel for the loads as they run: whatever crashed and was retried on the way, at every t from
      round i up to the next the finished table shows exactly the source that round read. */
  lemma RoundsTimeTravel(job: Job, rounds: seq<Round>, i: nat, t: int)
    requires RoundsOk(job, rounds) && i < |rounds|
    requires rounds[i].ts <= t && (i + 1 < |rounds| ==> t < rounds[i+1].ts)
    ensures AsOf(job.spec, RowsOf(Ended(job, rounds[|rounds|-1]).fmt, job.target), t)
      == Snapshot(job.spec, RowsOf(rounds[i].begin.fmt, job.source))
  {
    RoundsAreLoads(job, rounds);
    TimeTravel(job.spec, LoadsOf(job, rounds), i, t);
  }

  // ----- loads of different targets -----

  lemma {:induction false} GoSpares(s: Stores, other: Job, stage: Stage, n: nat, target: string)
    requires other.target != target
    ensures var f := Go(s, other, stage, n).0.fmt;
      SameTarget(s.fmt, f, target) && TableSnapshot(f, target) == TableSnapshot(s.fmt, target)
    decreases n
  {
    if n > 0 {
      var (s', stage') := Advance(s, other, stage);
      forall u ensures KeyAt(target, u) in s'.fmt.ledger <==> KeyAt(target, u) in s.fmt.ledger {
        if KeyAt(target, u) == Key(other) {
          KeyAtInjective(target, u, other.target, other.ts);
        }
      }
      GoSpares(s', other, stage', n - 1, target);
    }
  }

  /** A load of one target, wherever it stops and whatever its timestamp, leaves the rows, the version and the
      used keys of every other target alone, so it may come between the rounds of another. */
  lemma LoadSparesOthers(s: Stores, other: Job, n: nat, target: string)
    requires other.target != target
    ensures var f := Go(s, other, Resolving, n).0.fmt;
      SameTarget(s.fmt, f, target) && TableSnapshot(f, target) == TableSnapshot(s.fmt, target)
  {
    GoSpares(s, other, Resolving, n, target);
  }

  // ----- what a load answers -----

  /** A runnable load answers that nothing changed, and used no key, exactly when its delta is empty; else it
      uses the key of its target and timestamp and answers with the number of rows it merged, or, under a key
      used before, with what was recorded then. */
  lemma LoadAnswers(s: Stores, job: Job)
    requires Runnable(s, job)
    ensures var (s', stage), d := Go(s, job, Resolving, CALLS), DeltaAt(s, job);
      var key := job.target + "@" + Text.Integer(job.ts);
      && stage.Finished?
      && (d == [] ==> stage.result == WriteResult(0, "", false) && s'.fmt == s.fmt && s'.cat.commitKeys == s.cat.commitKeys)
      && (d != [] ==>
            && s'.fmt.ledger.Keys == s.fmt.ledger.Keys + {key} && s'.cat.commitKeys.Keys == s.cat.commitKeys.Keys + {key})
      && (d != [] && key !in s.fmt.ledger ==>
            stage.result == WriteResult(|d|, SnapshotOf(job.target, VersionOf(s.fmt, job.target) + 1), false))
      && (d != [] && key in s.fmt.ledger ==> stage.result == s.fmt.ledger[key].(alreadyApplied := true))
  {
    StopsAt(s, job, CALLS);
    MergedResult(s, job);
  }

  /** A load fails exactly when its source does not resolve, its target has no name, or a column it needs is
      missing; a failed one has merged and committed nothing. */
  lemma LoadRaisesIff(s: Stores, job: Job)
    requires forall k | k in s.fmt.ledger :: s.fmt.ledger[k].snapshot != ""
    ensures var (s', stage) := Go(s, job, Resolving, CALLS);
      && (stage.Raised? <==>
            || !Cat.LookUp(s.cat, job.source, "").Ref? || job.target == ""
            || Raises(job.spec, RowsOf(s.fmt, job.source), RowsOf(s.fmt, job.target)))
      && (!stage.Raised? ==> stage.Finished?)
      && (stage.Raised? ==> s'.fmt == s.fmt && s'.cat == s.cat.(tables := s'.cat.tables))
  {
    if Runnable(s, job) {
      StopsAt(s, job, CALLS);
    } else {
      LoadRaises(s, job);
    }
  }

  lemma LoadRaises(s: Stores, job: Job)
    requires || !Cat.LookUp(s.cat, job.source, "").Ref? || job.target == ""
             || Raises(job.spec, RowsOf(s.fmt, job.source), RowsOf(s.fmt, job.target))
    ensures var (s', stage) := Go(s, job, Resolving, CALLS);
      stage.Raised? && s'.fmt == s.fmt && s'.cat == s.cat.(tables := s'.cat.tables)
  {
    if !Cat.LookUp(s.cat, job.source, "").Ref? {
      assert Advance(s, job, Resolving) == (s, Raised);
      GoStopped(s, job, Raised, 5);
    } else if job.target == "" {
      assert Advance(s, job, Registering) == (s, Raised);
      GoStopped(s, job, Raised, 4);
    } else {
      GoReads(s, job, "main");
      GoStopped(RegisteredAt(s, job), job, Raised, 2);
    }
  }

  // ----- overlapping merges -----

  /** The merge of an attempt that crashed past its check goes on after the retry has merged and committed:
      the rows stay as they are, but a version is minted that the catalog does not name. */
  lemma OverlapKeepsRows(s: Stores, job: Job, latest: int)
    requires NewLoad(s, job, latest) && DeltaAt(s, job) != []
    ensures var s1, keys, d := Go(s, job, Resolving, CALLS).0, job.spec.VersionKey(), DeltaAt(s, job);
      var f := Made(s1.fmt, job.target, FormatStore.Merge(RowsOf(s1.fmt, job.target), keys, d), |d|, Key(job)).0;
      && RowsOf(f, job.target) == RowsOf(s1.fmt, job.target)
      && Linked(s1.fmt, s1.cat, job.target) && !Linked(f, s1.cat, job.target)
  {
    NewLoadRuns(s, job, latest);
    StopsAt(s, job, CALLS);
    WritesLinkIff(s, job);
    MergedFormat(s, job);
    MergeIsIdempotent(RowsOf(s.fmt, job.target), job.spec.VersionKey(), DeltaAt(s, job));
    var s1 := Go(s, job, Resolving, CALLS).0;
    BehindAfterMerge(s1, job);
  }
}
