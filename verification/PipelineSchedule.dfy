/** How a scheduler keeps every step away that takes a pipeline's result from it, and the two histories that
    show why it has to: it starts a run on a target only once no write on that target is open any more, and
    a run under a new key only once every commit a crashed run left outstanding there has landed. A write may
    still be delivered again once it has been recorded. */
module PipelineSchedule {
  import opened Options
  import Cat = Catalog
  import opened FormatLedger
  import opened FormatStore
  import opened Pipeline
  import opened PipelineRuns
  import opened PipelineLinks
  import Runs = FormatRuns

  /** A write sent on the target that the format has neither answered nor, under its key, recorded. */
  predicate OpenOn(w: World, id: nat, t: string) {
    && id < |w.requests| && w.requests[id].identifier == t && w.requests[id].key !in w.server.fmt.ledger
    && !(id in w.server.bodies && w.server.bodies[id].Answered?)
  }

  ghost predicate Waits(w: World, ev: Event)
    requires Allowed(w, ev)
  {
    match ev
    case Begin(spec) =>
      && (forall id: nat :: !OpenOn(w, id, spec.target))
      && (Key(spec) !in w.home ==>
            forall c | c in w.orphans && c.spec.target == spec.target :: Key(c.spec) in w.cat.commitKeys)
    case Resend(request) => w.requests[request].key in w.server.fmt.ledger
    case _ => true
  }

  /** An open write is the only one on its target, is the latest run's, and if that run is still in flight
      it waits for the write. */
  ghost predicate WritesCalm(w: World) {
    && (forall id: nat, t :: OpenOn(w, id, t) ==> t in w.latest && w.requests[id].key == w.latest[t])
    && (forall id: nat, id': nat, t :: OpenOn(w, id, t) && OpenOn(w, id', t) ==> id == id')
    && (forall id: nat, t :: OpenOn(w, id, t) && t in w.attempts ==> w.attempts[t].stage.Writing? && w.attempts[t].request == id)
  }

  predicate PassedFresh(w: World, id: nat) {
    id in w.server.bodies && w.server.bodies[id].Passed? ==> w.server.bodies[id].op.key !in w.server.fmt.ledger
  }

  predicate OrphanCalm(w: World, c: Orphan) {
    Key(c.spec) in w.cat.commitKeys || (c.spec.target in w.latest && w.latest[c.spec.target] == Key(c.spec))
  }

  ghost predicate Calm(w: World) {
    && WritesCalm(w)
    && (forall id: nat :: PassedFresh(w, id))
    && (forall c | c in w.orphans :: OrphanCalm(w, c))
  }

  // ----- a calm world is safe -----

  lemma CalmFinish(w: World, request: nat)
    requires Inv(w) && Calm(w) && AllOwned(w) && Allowed(w, FinishWrite(request))
    ensures !WritesTwice(w, FinishWrite(request)) && !Disturbs(w, FinishWrite(request))
  {
    FinishMakes(w, request);
    var op := w.requests[request];
    assert PassedFresh(w, request) && OpenOn(w, request, op.identifier);
    if LatestCommitted(w, op.identifier) {
      CommittedIsWritten(w, w.latest[op.identifier]);
    }
  }

  /** The commit of the latest run carries its table's last write. */
  lemma CalmCommit(w: World, spec: Spec, branch: string, result: WriteResult)
    requires Inv(w) && Runs.OnePerKey(w.server) && AllOwned(w) && CommitReady(w, spec, branch, result)
    requires Key(spec) in w.cat.commitKeys || (spec.target in w.latest && w.latest[spec.target] == Key(spec))
    ensures !CommitDisturbs(w, spec.target, Key(spec), result.snapshot)
  {
    if Key(spec) !in w.cat.commitKeys {
      assert Owned(w, spec.target);
      OwnWriteIsLast(w, spec.target, result.snapshot);
    }
  }

  lemma CalmIsSafe(w: World, ev: Event)
    requires Inv(w) && Calm(w) && Runs.OnePerKey(w.server) && AllOwned(w) && Allowed(w, ev)
    ensures !WritesTwice(w, ev) && !Disturbs(w, ev)
  {
    if ev.FinishWrite? {
      CalmFinish(w, ev.request);
    } else if ev.Land? {
      assert OrphanCalm(w, ev.commit);
      CalmCommit(w, ev.commit.spec, ev.commit.branch, ev.commit.result);
    } else if ev.Call? && w.attempts[ev.target].stage.Committing? {
      var InFlight(spec, stage, _) := w.attempts[ev.target];
      assert AttemptOk(w, ev.target);
      CalmCommit(w, spec, stage.branch, stage.result);
    }
  }

  // ----- and a waiting scheduler keeps it calm -----

  lemma BeginKeepsCalm(w: World, spec: Spec)
    requires Inv(w) && Calm(w) && Allowed(w, Begin(spec)) && Waits(w, Begin(spec))
    ensures Calm(Began(w, spec))
  {
    var w' := Began(w, spec);
    forall id: nat, t | OpenOn(w', id, t)
      ensures OpenOn(w, id, t) && t != spec.target
    {
      assert OpenOn(w, id, t);
    }
    forall id ensures PassedFresh(w', id) {
      assert PassedFresh(w, id);
    }
    forall c | c in w'.orphans ensures OrphanCalm(w', c) {
      assert OrphanCalm(w, c);
    }
  }

  lemma ReadKeepsCalm(w: World, target: string, query: Option<seq<Row>>)
    requires Inv(w) && Calm(w) && Allowed(w, Call(target, query)) && !w.attempts[target].stage.Committing?
    ensures Calm(Called(w, target, query))
  {
    var w' := Called(w, target, query);
    ReadIsNoEffect(w, target, query);
    assert AttemptOk(w, target);
    var n := |w.requests|;
    forall id: nat, t | OpenOn(w', id, t)
      ensures if id < n then OpenOn(w, id, t) && t != target else id == n && t == target && w'.requests[n].key == w.latest[t]
    {
      assert id < n ==> w'.requests[id] == w.requests[id];
      if id < n {
        assert OpenOn(w, id, t);
      }
    }
    forall id ensures PassedFresh(w', id) {
      assert PassedFresh(w, id);
    }
    forall c | c in w'.orphans ensures OrphanCalm(w', c) {
      assert OrphanCalm(w, c);
    }
  }

  lemma CommitsKeepCalm(w: World, w': World, spec: Spec, snapshot: string)
    requires Calm(w) && Commits(w, w', spec, snapshot)
    requires forall t | t in w'.attempts :: t in w.attempts && w'.attempts[t] == w.attempts[t]
    ensures Calm(w')
  {
    forall id: nat, t | OpenOn(w', id, t) ensures OpenOn(w, id, t) {
    }
    forall id ensures PassedFresh(w', id) {
      assert PassedFresh(w, id);
    }
    forall c | c in w'.orphans ensures OrphanCalm(w', c) {
      assert OrphanCalm(w, c);
    }
  }

  lemma CheckKeepsCalm(w: World, request: nat)
    requires Inv(w) && Calm(w) && Allowed(w, CheckWrite(request))
    ensures Calm(Next(w, CheckWrite(request)))
  {
    var w' := Next(w, CheckWrite(request));
    assert RequestOk(w, w.requests[request]);
    forall id: nat, t | OpenOn(w', id, t) ensures OpenOn(w, id, t) {
    }
    forall id ensures PassedFresh(w', id) {
      assert PassedFresh(w, id);
    }
    forall c | c in w'.orphans ensures OrphanCalm(w', c) {
      assert OrphanCalm(w, c);
    }
  }

  lemma FinishKeepsFresh(w: World, request: nat, id: nat)
    requires Inv(w) && Calm(w) && Allowed(w, FinishWrite(request))
    ensures PassedFresh(Next(w, FinishWrite(request)), id)
  {
    assert PassedFresh(w, id) && PassedFresh(w, request);
    FinishMakes(w, request);
    if id != request && id in w.server.bodies && w.server.bodies[id].Passed? {
      assert BodyIs(w, id) && RequestOk(w, w.requests[id]) && RequestOk(w, w.requests[request]);
      assert OpenOn(w, request, w.requests[request].identifier) && OpenOn(w, id, w.requests[id].identifier);
    }
  }

  lemma ResendKeepsCalm(w: World, request: nat)
    requires Calm(w) && Allowed(w, Resend(request)) && Waits(w, Resend(request))
    ensures Calm(Next(w, Resend(request)))
  {
    var w' := Next(w, Resend(request));
    forall id: nat, t | OpenOn(w', id, t) ensures OpenOn(w, id, t) {
      assert id < |w.requests| ==> w'.requests[id] == w.requests[id];
    }
    forall id ensures PassedFresh(w', id) {
      assert PassedFresh(w, id);
    }
    forall c | c in w'.orphans ensures OrphanCalm(w', c) {
      assert OrphanCalm(w, c);
    }
  }

  lemma FinishKeepsCalm(w: World, request: nat)
    requires Inv(w) && Calm(w) && Allowed(w, FinishWrite(request))
    ensures Calm(Next(w, FinishWrite(request)))
  {
    var w' := Next(w, FinishWrite(request));
    forall id: nat, t | OpenOn(w', id, t) ensures OpenOn(w, id, t) {
    }
    forall id ensures PassedFresh(w', id) {
      FinishKeepsFresh(w, request, id);
    }
    forall c | c in w'.orphans ensures OrphanCalm(w', c) {
      assert OrphanCalm(w, c);
    }
  }

  lemma ReplyKeepsCalm(w: World, target: string)
    requires Inv(w) && Calm(w) && Allowed(w, Reply(target))
    ensures Calm(Next(w, Reply(target)))
  {
    var w' := Next(w, Reply(target));
    forall id: nat, t | OpenOn(w', id, t) ensures OpenOn(w, id, t) && t != target {
      assert OpenOn(w, id, t);
    }
    forall id ensures PassedFresh(w', id) {
      assert PassedFresh(w, id);
    }
    forall c | c in w'.orphans ensures OrphanCalm(w', c) {
      assert OrphanCalm(w, c);
    }
  }

  lemma CrashKeepsCalm(w: World, target: string)
    requires Inv(w) && Calm(w) && target in w.attempts
    ensures Calm(Next(w, Crash(target)))
  {
    var w' := Next(w, Crash(target));
    assert AttemptOk(w, target);
    forall id: nat, t | OpenOn(w', id, t) ensures OpenOn(w, id, t) {
    }
    forall id ensures PassedFresh(w', id) {
      assert PassedFresh(w, id);
    }
    forall c | c in w'.orphans ensures OrphanCalm(w', c) {
      assert c in w.orphans ==> OrphanCalm(w, c);
    }
  }

  lemma OtherKeepsCalm(w: World, op: Cat.Op)
    requires Inv(w) && Calm(w) && !op.CommitOp?
    ensures Calm(Next(w, Other(op)))
  {
    var w' := Next(w, Other(op));
    OtherKeepsInv(w, op);
    forall id: nat, t | OpenOn(w', id, t) ensures OpenOn(w, id, t) {
    }
    forall id ensures PassedFresh(w', id) {
      assert PassedFresh(w, id);
    }
    forall c | c in w'.orphans ensures OrphanCalm(w', c) {
      assert OrphanCalm(w, c);
    }
  }

  lemma StepKeepsCalm(w: World, ev: Event)
    requires Inv(w) && Calm(w) && Allowed(w, ev) && Waits(w, ev)
    ensures Calm(Next(w, ev))
  {
    match ev
    case Begin(spec) => BeginKeepsCalm(w, spec);
    case CheckWrite(request) => CheckKeepsCalm(w, request);
    case FinishWrite(request) => FinishKeepsCalm(w, request);
    case Resend(request) => ResendKeepsCalm(w, request);
    case Reply(target) => ReplyKeepsCalm(w, target);
    case Crash(target) => CrashKeepsCalm(w, target);
    case Other(op) => OtherKeepsCalm(w, op);
    case Land(commit) =>
      LandKeepsInv(w, commit);
      CommitsKeepCalm(w, Landed(w, commit), commit.spec, commit.result.snapshot);
    case Call(target, query) =>
      if w.attempts[target].stage.Committing? {
        CommitCallKeepsInv(w, target, query);
        CommitsKeepCalm(w, Called(w, target, query), w.attempts[target].spec, w.attempts[target].stage.result.snapshot);
      } else {
        ReadKeepsCalm(w, target, query);
      }
  }

  ghost predicate WaitsAt(evs: seq<Event>, i: nat)
    requires i < |evs|
  {
    After(evs[..i]).Some? && Allowed(After(evs[..i]).value, evs[i]) && Waits(After(evs[..i]).value, evs[i])
  }

  lemma {:induction false} SafeUpTo(evs: seq<Event>, i: nat) returns (w: World)
    requires After(evs).Some? && i <= |evs| && forall k | 0 <= k < i :: WaitsAt(evs, k)
    ensures After(evs[..i]) == Some(w) && Inv(w) && Calm(w) && Runs.OnePerKey(w.server) && AllOwned(w)
  {
    if i > 0 {
      var before := SafeUpTo(evs, i - 1);
      w := StepOf(evs, i - 1);
      assert WaitsAt(evs, i - 1);
      CalmIsSafe(w, evs[i-1]);
      StepKeepsOneIff(w, evs[i-1]);
      StepKeepsOwnedIff(w, evs[i-1]);
      StepKeepsCalm(w, evs[i-1]);
      NextKeepsInv(w, evs[i-1]);
      w := Next(w, evs[i-1]);
    } else {
      assert evs[..0] == [];
      InitialOk();
      w := Initial();
    }
  }

  /** If the scheduler waits, no write is doubled and no step disturbs, whatever crashes and whichever calls
      come late: every run that completes has what CompletionIsLinked promises. */
  lemma WaitingIsSafe(evs: seq<Event>)
    requires After(evs).Some? && forall i | 0 <= i < |evs| :: WaitsAt(evs, i)
    ensures forall i | 0 <= i < |evs| :: !TwiceAt(evs, i) && !DisturbedAt(evs, i)
  {
    forall i | 0 <= i < |evs| ensures !TwiceAt(evs, i) && !DisturbedAt(evs, i) {
      var w := SafeUpTo(evs, i);
      var v := StepOf(evs, i);
      CalmIsSafe(w, evs[i]);
    }
  }

  /** In particular no run is written twice. */
  lemma WaitingWritesOnce(evs: seq<Event>, w: World)
    requires After(evs) == Some(w) && forall i | 0 <= i < |evs| :: WaitsAt(evs, i)
    ensures OnePerRun(w) && |w.made| == |w.server.writes|
  {
    WaitingIsSafe(evs);
    OneWritePerRun(evs, w);
  }

  // ----- a write that outlives its caller, as a history -----

  ghost predicate Reachable(w: World) {
    exists evs :: After(evs) == Some(w)
  }

  lemma Snoc(w: World, ev: Event) returns (w': World)
    requires Reachable(w) && Allowed(w, ev)
    ensures Reachable(w') && w' == Next(w, ev)
  {
    var evs :| After(evs) == Some(w);
    assert (evs + [ev])[..|evs|] == evs;
    w' := Next(w, ev);
    assert After(evs + [ev]) == Some(w');
  }

  /** Enough of a world to run the spec: nothing in flight on the target, and its tables resolve. */
  predicate Ready(w: World, spec: Spec) {
    && spec.sql != "" && spec.target != "" && Allowed(w, Begin(spec))
    && spec.source == Cat.SEED_TABLE && Cat.SEED_TABLE in w.cat.tables && "main" in w.cat.branches
  }

  /** A run that got as far as sending its write. */
  predicate Sent(w: World, w': World, spec: Spec, rows: seq<Row>) {
    && w'.attempts == w.attempts[spec.target := InFlight(spec, Writing("main", rows), |w.requests|)]
    && w'.requests == w.requests + [Runs.Over(spec.target, rows, Key(spec))]
    && w'.latest == w.latest[spec.target := Key(spec)] && w'.home == w.home[Key(spec) := spec.target]
    && w'.cat == Cat.Register(w.cat, spec.target, "", "").0 && w'.server == w.server && w'.orphans == w.orphans
  }

  lemma Sends(w: World, spec: Spec, rows: seq<Row>) returns (w': World)
    requires Reachable(w) && Ready(w, spec)
    ensures Reachable(w') && Sent(w, w', spec, rows)
  {
    var t := spec.target;
    var w1 := Snoc(w, Begin(spec));
    assert w1.attempts[t] == InFlight(spec, Resolving, 0);
    var w2 := Snoc(w1, Call(t, Some(rows)));
    assert w2.attempts[t].stage == Registering && w2.requests == w.requests && w2.cat == w.cat;
    var w3 := Snoc(w2, Call(t, Some(rows)));
    assert w3.attempts[t].stage == Querying("main") && w3.requests == w.requests;
    w' := Snoc(w3, Call(t, Some(rows)));
    assert w'.attempts == w.attempts[t := InFlight(spec, Writing("main", rows), |w.requests|)];
  }

  /** A run has crashed while its write was past its check, and nothing else has happened. */
  ghost predicate Hanging(w: World, spec: Spec, rows: seq<Row>) {
    var op := Runs.Over(spec.target, rows, Key(spec));
    && Reachable(w) && w.requests == [op] && w.server == Runs.Server(NoTables(), map[0 := Runs.Passed(op)], [])
    && w.attempts == map[] && w.latest == map[spec.target := Key(spec)] && w.home == map[Key(spec) := spec.target]
    && w.cat.commitKeys == map[] && Cat.SEED_TABLE in w.cat.tables && "main" in w.cat.branches
  }

  lemma FirstHangs(spec: Spec, rows: seq<Row>) returns (w: World)
    requires spec.target != "" && spec.sql != "" && spec.source == Cat.SEED_TABLE
    ensures Hanging(w, spec, rows)
  {
    assert After([]) == Some(Initial());
    var w1 := Sends(Initial(), spec, rows);
    var w2 := Snoc(w1, Crash(spec.target));
    w := Snoc(w2, CheckWrite(0));
  }

  lemma Passes(w: World, id: nat) returns (w': World)
    requires Reachable(w) && id < |w.requests| && id !in w.server.bodies && w.requests[id].key !in w.server.fmt.ledger
    ensures Reachable(w') && w' == w.(server := w.server.(bodies := w.server.bodies[id := Runs.Passed(w.requests[id])]))
  {
    w' := Snoc(w, CheckWrite(id));
  }

  lemma Finishes(w: World, id: nat) returns (w': World)
    requires Reachable(w) && id in w.server.bodies && w.server.bodies[id].Passed?
    ensures Reachable(w') && w' == w.(server := Runs.Finished(w.server, id), made := w.made + SenderOf(w, id))
  {
    w' := Snoc(w, FinishWrite(id));
  }

  lemma Replies(w: World, spec: Spec, rows: seq<Row>, id: nat) returns (w': World)
    requires Reachable(w) && spec.target in w.attempts && w.attempts[spec.target] == InFlight(spec, Writing("main", rows), id)
    requires id in w.server.bodies && w.server.bodies[id].Answered?
    ensures Reachable(w') && w' == w.(attempts := w.attempts[spec.target :=
      InFlight(spec, Committing("main", w.server.bodies[id].result), id)])
  {
    w' := Snoc(w, Reply(spec.target));
  }

  lemma Lands(w: World, spec: Spec, result: WriteResult, id: nat) returns (w': World)
    requires Reachable(w) && spec.target in w.attempts && w.attempts[spec.target] == InFlight(spec, Committing("main", result), id)
    requires Key(spec) !in w.cat.commitKeys
    ensures Reachable(w') && w'.server == w.server && w'.latest == w.latest && w'.orphans == w.orphans
    ensures w'.cat.commitKeys.Keys == w.cat.commitKeys.Keys + {Key(spec)} && Cat.CommittedAt(w'.cat, spec.target, "main") == result.snapshot
  {
    var evs :| After(evs) == Some(w);
    HistoryKeepsInv(evs);
    w' := Snoc(w, Call(spec.target, None));
    CommitCallKeepsInv(w, spec.target, None);
  }

  /** The second of two requests, in a format that has made no write: its write, the reply and the commit. */
  lemma Completes(w: World, spec: Spec, rows: seq<Row>) returns (w': World)
    requires Reachable(w) && |w.requests| == 2 && w.requests[1] == Runs.Over(spec.target, rows, Key(spec))
    requires w.server.fmt == NoTables() && w.server.writes == [] && 1 !in w.server.bodies && w.cat.commitKeys == map[]
    requires spec.target in w.attempts && w.attempts[spec.target] == InFlight(spec, Writing("main", rows), 1)
    ensures var t, v1 := spec.target, SnapshotOf(spec.target, 1);
      && Reachable(w') && w'.latest == w.latest && Key(spec) in w'.cat.commitKeys
      && Cat.CommittedAt(w'.cat, t, "main") == v1 && VersionOf(w'.server.fmt, t) == 1
      && w'.server.writes == [Runs.Write(Key(spec), t, rows, 1, v1)]
      && w'.server.bodies == w.server.bodies[1 := Runs.Answered(w.requests[1], WriteResult(|rows|, v1, false))]
  {
    var w1 := Passes(w, 1);
    var w2 := Finishes(w1, 1);
    assert w2.server.writes == [Runs.Write(Key(spec), spec.target, rows, 1, SnapshotOf(spec.target, 1))];
    var w3 := Replies(w2, spec, rows, 1);
    w' := Lands(w3, spec, w3.server.bodies[1].result, 1);
  }

  /** Another run on the target, or the same one again, completes meanwhile. */
  lemma SecondCompletes(w: World, first: Spec, second: Spec, older: seq<Row>, newer: seq<Row>) returns (w': World)
    requires Hanging(w, first, older) && first.target == second.target != ""
    requires second.sql != "" && second.source == Cat.SEED_TABLE
    ensures var t, op := first.target, Runs.Over(first.target, older, Key(first));
      && Reachable(w') && LatestCommitted(w', t) && w'.latest[t] == Key(second)
      && 0 in w'.server.bodies && w'.server.bodies[0] == Runs.Passed(op)
      && Cat.CommittedAt(w'.cat, t, "main") == SnapshotOf(t, 1) && VersionOf(w'.server.fmt, t) == 1
      && w'.server.writes == [Runs.Write(Key(second), t, newer, 1, SnapshotOf(t, 1))]
  {
    var w1 := Sends(w, second, newer);
    w' := Completes(w1, second, newer);
  }

  /** A history that is disturbed: a run crashes while its write is past its check, another run completes on
      the same target, or the same one when it is tried again, and then the write goes on. The catalog names
      the completed run's write; the table is one version on and holds the crashed attempt's rows. */
  lemma LateWriteUnlinks(first: Spec, second: Spec, older: seq<Row>, newer: seq<Row>) returns (w: World)
    requires first.target == second.target != ""
    requires first.sql != "" && second.sql != "" && first.source == second.source == Cat.SEED_TABLE
    ensures Reachable(w) && LatestCommitted(w, first.target) && w.latest[first.target] == Key(second)
    ensures var t := first.target;
      && Cat.CommittedAt(w.cat, t, "main") == SnapshotOf(t, 1) && !Linked(w.server.fmt, w.cat, t)
      && VersionOf(w.server.fmt, t) == 2 && RowsOf(w.server.fmt, t) == older
      && Key(first) in w.server.fmt.ledger && w.server.fmt.ledger[Key(first)].snapshot == SnapshotOf(t, 2)
      && w.server.writes == [Runs.Write(Key(second), t, newer, 1, SnapshotOf(t, 1)),
                             Runs.Write(Key(first), t, older, 2, SnapshotOf(t, 2))]
  {
    var w1 := FirstHangs(first, older);
    var w2 := SecondCompletes(w1, first, second, older, newer);
    w := Finishes(w2, 0);
    if SnapshotOf(first.target, 1) == SnapshotOf(first.target, 2) {
      SnapshotOfInjective(first.target, 1, 2);
    }
  }

  /** With one key: the retry of a run whose first write was still open. The key has two real writes, the
      ledger names the second and the catalog the first. */
  lemma OverlapUnlinks(spec: Spec, older: seq<Row>, newer: seq<Row>) returns (w: World)
    requires spec.target != "" && spec.sql != "" && spec.source == Cat.SEED_TABLE
    ensures Reachable(w) && !Runs.OnePerKey(w.server) && LatestCommitted(w, spec.target)
    ensures var t, key := spec.target, Key(spec);
      && key in w.server.fmt.ledger && w.server.fmt.ledger[key].snapshot == SnapshotOf(t, 2)
      && Cat.CommittedAt(w.cat, t, "main") == SnapshotOf(t, 1) && !Linked(w.server.fmt, w.cat, t)
      && VersionOf(w.server.fmt, t) == 2 && RowsOf(w.server.fmt, t) == older
  {
    w := LateWriteUnlinks(spec, spec, older, newer);
    assert w.server.writes[0].key == w.server.writes[1].key;
  }

  // ----- a commit that outlives its caller, as a history -----

  lemma FinishLeaves(s: Runs.Server, id: nat, t: string, rows: seq<Row>, key: string)
    requires id in s.bodies && s.bodies[id] == Runs.Passed(Runs.Over(t, rows, key)) && key != ""
    ensures var s', v := Runs.Finished(s, id), VersionOf(s.fmt, t) + 1;
      && VersionOf(s'.fmt, t) == v && RowsOf(s'.fmt, t) == rows && s'.fmt.ledger.Keys == s.fmt.ledger.Keys + {key}
      && s'.bodies.Keys == s.bodies.Keys && s'.bodies[id].Answered? && s'.bodies[id].result.snapshot == SnapshotOf(t, v)
  {
  }

  lemma CrashesCommitting(w: World, spec: Spec, result: WriteResult, id: nat) returns (w': World)
    requires Reachable(w) && spec.target in w.attempts && w.attempts[spec.target] == InFlight(spec, Committing("main", result), id)
    ensures Reachable(w') && w' == w.(attempts := w.attempts - {spec.target}, orphans := w.orphans + {Orphan(spec, "main", result)})
  {
    w' := Snoc(w, Crash(spec.target));
  }

  lemma WritesFresh(w: World, id: nat, t: string, rows: seq<Row>, key: string) returns (w': World)
    requires Reachable(w) && id < |w.requests| && id !in w.server.bodies
    requires w.requests[id] == Runs.Over(t, rows, key) && key != "" && key !in w.server.fmt.ledger
    ensures Reachable(w') && w' == w.(server := w'.server, made := w'.made)
    ensures var v := VersionOf(w.server.fmt, t) + 1;
      && VersionOf(w'.server.fmt, t) == v && RowsOf(w'.server.fmt, t) == rows
      && w'.server.fmt.ledger.Keys == w.server.fmt.ledger.Keys + {key}
      && w'.server.bodies.Keys == w.server.bodies.Keys + {id}
      && w'.server.bodies[id].Answered? && w'.server.bodies[id].result.snapshot == SnapshotOf(t, v)
  {
    var w1 := Passes(w, id);
    w' := Finishes(w1, id);
    FinishLeaves(w1.server, id, t, rows, key);
  }

  /** The write of a run whose key is fresh, and the reply to it. */
  lemma WritesAndReplies(w: World, spec: Spec, rows: seq<Row>, id: nat) returns (w': World, result: WriteResult)
    requires Reachable(w) && id < |w.requests| && id !in w.server.bodies
    requires w.requests[id] == Runs.Over(spec.target, rows, Key(spec)) && Key(spec) !in w.server.fmt.ledger
    requires spec.target in w.attempts && w.attempts[spec.target] == InFlight(spec, Writing("main", rows), id)
    ensures var t, v := spec.target, VersionOf(w.server.fmt, spec.target) + 1;
      && result.snapshot == SnapshotOf(t, v) && VersionOf(w'.server.fmt, t) == v && RowsOf(w'.server.fmt, t) == rows
      && w'.server.fmt.ledger.Keys == w.server.fmt.ledger.Keys + {Key(spec)}
      && w'.server.bodies.Keys == w.server.bodies.Keys + {id}
    ensures Reachable(w') && w'.attempts == w.attempts[spec.target := InFlight(spec, Committing("main", result), id)]
    ensures w'.cat == w.cat && w'.latest == w.latest && w'.home == w.home && w'.requests == w.requests && w'.orphans == w.orphans
  {
    var w1 := WritesFresh(w, id, spec.target, rows, Key(spec));
    w' := Replies(w1, spec, rows, id);
    result := w1.server.bodies[id].result;
  }

  /** A run has written and crashed while its commit was outstanding, and nothing else has happened. */
  ghost predicate Outstanding(w: World, spec: Spec, result: WriteResult) {
    && Reachable(w) && Orphan(spec, "main", result) in w.orphans && result.snapshot == SnapshotOf(spec.target, 1)
    && |w.requests| == 1 && w.server.bodies.Keys == {0} && w.attempts == map[] && w.home.Keys == {Key(spec)}
    && w.server.fmt.ledger.Keys == {Key(spec)} && VersionOf(w.server.fmt, spec.target) == 1
    && w.cat.commitKeys == map[] && Cat.SEED_TABLE in w.cat.tables && "main" in w.cat.branches
  }

  lemma FirstIsOutstanding(spec: Spec, rows: seq<Row>) returns (w: World, result: WriteResult)
    requires spec.target != "" && spec.sql != "" && spec.source == Cat.SEED_TABLE
    ensures Outstanding(w, spec, result)
  {
    assert After([]) == Some(Initial());
    var w1 := Sends(Initial(), spec, rows);
    var w2, r := WritesAndReplies(w1, spec, rows, 0);
    result := r;
    w := CrashesCommitting(w2, spec, r, 0);
  }

  lemma NextCompletes(w: World, first: Spec, held: WriteResult, second: Spec, newer: seq<Row>) returns (w': World)
    requires Outstanding(w, first, held) && first.target == second.target != "" && Key(first) != Key(second)
    requires second.sql != "" && second.source == Cat.SEED_TABLE
    ensures Reachable(w') && Orphan(first, "main", held) in w'.orphans && w'.cat.commitKeys.Keys == {Key(second)}
    ensures w'.latest == w.latest[second.target := Key(second)]
    ensures VersionOf(w'.server.fmt, first.target) == 2 && RowsOf(w'.server.fmt, first.target) == newer
  {
    var w1 := Sends(w, second, newer);
    var w2, result := WritesAndReplies(w1, second, newer, 1);
    w' := Lands(w2, second, result, 1);
  }

  /** The other way to be disturbed: a run crashes while its commit is outstanding, another run completes on the
      same target, and then the commit lands. The table holds the rows of the completed run; the catalog names
      the snapshot before it. */
  lemma LateCommitUnlinks(first: Spec, second: Spec, older: seq<Row>, newer: seq<Row>) returns (w: World)
    requires first.target == second.target != "" && Key(first) != Key(second)
    requires first.sql != "" && second.sql != "" && first.source == second.source == Cat.SEED_TABLE
    ensures Reachable(w) && LatestCommitted(w, first.target) && w.latest[first.target] == Key(second)
    ensures var t := first.target;
      && VersionOf(w.server.fmt, t) == 2 && RowsOf(w.server.fmt, t) == newer
      && Cat.CommittedAt(w.cat, t, "main") == SnapshotOf(t, 1) && !Linked(w.server.fmt, w.cat, t)
  {
    var w1, held := FirstIsOutstanding(first, older);
    var w2 := NextCompletes(w1, first, held, second, newer);
    var commit := Orphan(first, "main", held);
    w := Snoc(w2, Land(commit));
    var evs :| After(evs) == Some(w2);
    HistoryKeepsInv(evs);
    LandKeepsInv(w2, commit);
    if SnapshotOf(first.target, 1) == SnapshotOf(first.target, 2) {
      SnapshotOfInjective(first.target, 1, 2);
    }
  }
}
