/** When catalog and table agree, over the histories of PipelineRuns: which step writes under a key twice,
    which step takes from a run what it was promised, what a completed run has otherwise, and how a scheduler
    keeps all such steps away. */
module PipelineLinks {
  import opened Options
  import Cat = Catalog
  import opened FormatLedger
  import opened FormatStore
  import opened Pipeline
  import opened PipelineRuns
  import Runs = FormatRuns

  // ----- one write per key -----

  /** A write goes on although its key has been recorded since it looked. */
  predicate WritesTwice(w: World, ev: Event) {
    ev.FinishWrite? && Allowed(w, ev) && w.server.bodies[ev.request].op.key in w.server.fmt.ledger
  }

  /** One step keeps one real write per key exactly when it is not such a write. */
  lemma StepKeepsOneIff(w: World, ev: Event)
    requires Inv(w) && Runs.OnePerKey(w.server) && Allowed(w, ev)
    ensures Runs.OnePerKey(Next(w, ev).server) <==> !WritesTwice(w, ev)
  {
    if ev.FinishWrite? {
      Runs.StepKeepsOneIff(w.server, Runs.Finish(ev.request));
    }
  }

  // ----- what the latest run on a target owns -----

  /** The snapshot is the one the last write of the table minted. */
  predicate IsLast(w: World, t: string, snapshot: string) {
    Runs.LastOn(w.server.writes, t).Some? && Runs.LastOn(w.server.writes, t).value.snapshot == snapshot
  }

  /** The catalog names the write whose rows the table holds. */
  predicate Names(w: World, t: string) {
    IsLast(w, t, Cat.CommittedAt(w.cat, t, "main"))
  }

  predicate LatestWrote(w: World, t: string) {
    t in w.latest && w.latest[t] in w.server.fmt.ledger
  }

  predicate LatestCommitted(w: World, t: string) {
    t in w.latest && w.latest[t] in w.cat.commitKeys
  }

  /** The latest run on the target, once it has written, is the table's last writer, and once it has
      committed, the catalog names the table's last write. */
  predicate Owned(w: World, t: string) {
    && (LatestWrote(w, t) ==> Runs.LastOn(w.server.writes, t).Some? && Runs.LastOn(w.server.writes, t).value.key == w.latest[t])
    && (LatestCommitted(w, t) ==> Names(w, t))
  }

  ghost predicate AllOwned(w: World) {
    forall t :: Owned(w, t)
  }

  /** A write is made on a table whose latest run has committed, or has written and is another run. */
  predicate WriteDisturbs(w: World, t: string, key: string) {
    LatestCommitted(w, t) || (LatestWrote(w, t) && key != w.latest[t])
  }

  /** A commit lands for the first time with a snapshot that is not its table's last, and it is the latest
      run's, or that run has committed. */
  predicate CommitDisturbs(w: World, t: string, key: string, snapshot: string) {
    && key !in w.cat.commitKeys && t in w.latest && (key == w.latest[t] || LatestCommitted(w, t))
    && !IsLast(w, t, snapshot)
  }

  predicate Disturbs(w: World, ev: Event)
    requires Allowed(w, ev)
  {
    match ev
    case FinishWrite(request) =>
      WriteDisturbs(w, w.server.bodies[request].op.identifier, w.server.bodies[request].op.key)
    case Call(target, _) =>
      var InFlight(spec, stage, _) := w.attempts[target];
      stage.Committing? && CommitDisturbs(w, spec.target, Key(spec), stage.result.snapshot)
    case Land(commit) => CommitDisturbs(w, commit.spec.target, Key(commit.spec), commit.result.snapshot)
    case _ => false
  }

  lemma CommittedIsWritten(w: World, key: string)
    requires Inv(w) && key in w.cat.commitKeys
    ensures key in w.server.fmt.ledger && key in w.home
  {
    assert CommitOk(w, key);
    var i :| 0 <= i < |w.server.writes| && w.server.writes[i].key == key && w.server.writes[i].snapshot == w.cat.commitKeys[key];
    assert WriteHome(w, w.server.writes[i]) && Runs.WriteOk(w.server.fmt, w.server.writes[i]);
  }

  lemma NoEffectOwned(w: World, w': World)
    requires NoEffect(w, w') && w'.latest == w.latest
    ensures AllOwned(w') <==> AllOwned(w)
  {
    assert forall t :: Owned(w', t) <==> Owned(w, t);
  }

  lemma BeginOwned(w: World, spec: Spec)
    requires Inv(w) && AllOwned(w) && Allowed(w, Begin(spec))
    ensures AllOwned(Began(w, spec))
  {
    var w' := Began(w, spec);
    if Key(spec) in w.cat.commitKeys {
      CommittedIsWritten(w, Key(spec));
    }
    forall t ensures Owned(w', t) {
      assert Owned(w, t);
    }
  }

  lemma LastAfter(w: World, w': World, x: Runs.Write, t: string)
    requires w'.server.writes == w.server.writes + [x]
    ensures Runs.LastOn(w'.server.writes, t) == if t == x.target then Some(x) else Runs.LastOn(w.server.writes, t)
  {
    assert w'.server.writes[..|w'.server.writes|-1] == w.server.writes;
  }

  lemma MakesElsewhere(w: World, w': World, x: Runs.Write, t: string)
    requires Makes(w, w', x) && HomeOk(w) && Owned(w, t) && t != x.target
    ensures Owned(w', t)
  {
    LastAfter(w, w', x, t);
  }

  /** A real write keeps every target owned exactly when it is not one of those. */
  lemma MakesOwnedIff(w: World, w': World, x: Runs.Write)
    requires Inv(w) && AllOwned(w) && Makes(w, w', x) && !IsLast(w, x.target, x.snapshot)
    ensures AllOwned(w') <==> !WriteDisturbs(w, x.target, x.key)
  {
    var t := x.target;
    LastAfter(w, w', x, t);
    assert Owned(w, t);
    if LatestCommitted(w, t) {
      CommittedIsWritten(w, w.latest[t]);
    }
    if WriteDisturbs(w, t, x.key) {
      assert !Owned(w', t);
    } else {
      forall u ensures Owned(w', u) {
        assert Owned(w, u);
        if u != t {
          MakesElsewhere(w, w', x, u);
        }
      }
    }
  }

  /** A write mints a snapshot its table did not have. */
  lemma MintsNew(s: Runs.Server, op: Runs.WriteOp)
    requires Runs.ServerOk(s) && Runs.LastOn(s.writes, op.identifier).Some?
    ensures Runs.LastOn(s.writes, op.identifier).value.snapshot != Runs.WriteOf(s, op).snapshot
  {
    var i := Runs.LastOnIs(s.writes, op.identifier);
    assert Runs.WriteOk(s.fmt, s.writes[i]);
    if s.writes[i].snapshot == Runs.WriteOf(s, op).snapshot {
      SnapshotOfInjective(op.identifier, s.writes[i].version, VersionOf(s.fmt, op.identifier) + 1);
    }
  }

  lemma FinishOwnedIff(w: World, request: nat)
    requires Inv(w) && AllOwned(w) && Allowed(w, FinishWrite(request))
    ensures AllOwned(Next(w, FinishWrite(request))) <==> !Disturbs(w, FinishWrite(request))
  {
    FinishMakes(w, request);
    var op := w.requests[request];
    if Runs.LastOn(w.server.writes, op.identifier).Some? {
      MintsNew(w.server, op);
    }
    MakesOwnedIff(w, Next(w, FinishWrite(request)), Runs.WriteOf(w.server, op));
  }

  lemma CommitsElsewhere(w: World, w': World, spec: Spec, snapshot: string, t: string)
    requires Commits(w, w', spec, snapshot) && HomeOk(w) && Owned(w, t) && t != spec.target
    requires Key(spec) in w.home && w.home[Key(spec)] == spec.target
    ensures Owned(w', t)
  {
    if Cat.CommitKey(t, "main") == Cat.CommitKey(spec.target, "main") {
      CommitKeyInjective(t, spec.target, "main");
    }
  }

  lemma CommitsOwnedIff(w: World, w': World, spec: Spec, snapshot: string)
    requires HomeOk(w) && AllOwned(w) && Commits(w, w', spec, snapshot)
    requires Key(spec) in w.home && w.home[Key(spec)] == spec.target
    ensures AllOwned(w') <==> !CommitDisturbs(w, spec.target, Key(spec), snapshot)
  {
    var t := spec.target;
    assert Owned(w, t);
    if CommitDisturbs(w, t, Key(spec), snapshot) {
      assert !Owned(w', t);
    } else {
      forall u ensures Owned(w', u) {
        assert Owned(w, u);
        if u != t {
          CommitsElsewhere(w, w', spec, snapshot, u);
        }
      }
    }
  }

  lemma CallOwnedIff(w: World, target: string, query: Option<seq<Row>>)
    requires Inv(w) && AllOwned(w) && Allowed(w, Call(target, query))
    ensures AllOwned(Called(w, target, query)) <==> !Disturbs(w, Call(target, query))
  {
    var a, w' := w.attempts[target], Called(w, target, query);
    if a.stage.Committing? {
      CommitCallKeepsInv(w, target, query);
      assert AttemptOk(w, target);
      CommitsOwnedIff(w, w', a.spec, a.stage.result.snapshot);
    } else {
      ReadIsNoEffect(w, target, query);
      NoEffectOwned(w, w');
    }
  }

  /** One step keeps every target owned exactly when it is not a write or a commit that disturbs. */
  lemma StepKeepsOwnedIff(w: World, ev: Event)
    requires Inv(w) && AllOwned(w) && Allowed(w, ev)
    ensures AllOwned(Next(w, ev)) <==> !Disturbs(w, ev)
  {
    match ev
    case Begin(spec) => BeginOwned(w, spec);
    case Call(target, query) => CallOwnedIff(w, target, query);
    case FinishWrite(request) => FinishOwnedIff(w, request);
    case Land(commit) =>
      LandKeepsInv(w, commit);
      CommitsOwnedIff(w, Landed(w, commit), commit.spec, commit.result.snapshot);
    case CheckWrite(request) =>
      CheckWriteKeepsInv(w, request);
      NoEffectOwned(w, Next(w, ev));
    case Resend(request) =>
      ResendKeepsInv(w, request);
      NoEffectOwned(w, Next(w, ev));
    case Reply(target) =>
      ReplyKeepsInv(w, target);
      NoEffectOwned(w, Next(w, ev));
    case Crash(target) => NoEffectOwned(w, Next(w, ev));
    case Other(op) =>
      OtherKeepsInv(w, op);
      NoEffectOwned(w, Next(w, ev));
  }

  // ----- whole histories -----

  lemma {:induction false} PrefixAllowed(evs: seq<Event>, i: nat)
    requires After(evs).Some? && i <= |evs|
    ensures After(evs[..i]).Some?
  {
    if i < |evs| {
      var init := evs[..|evs|-1];
      PrefixAllowed(init, i);
      assert init[..i] == evs[..i];
    } else {
      assert evs[..i] == evs;
    }
  }

  /** The i-th step of a history, from where it found things to where it left them. */
  lemma StepOf(evs: seq<Event>, i: nat) returns (w: World)
    requires After(evs).Some? && i < |evs|
    ensures After(evs[..i]) == Some(w) && Inv(w) && Allowed(w, evs[i]) && After(evs[..i+1]) == Some(Next(w, evs[i]))
  {
    PrefixAllowed(evs, i + 1);
    assert evs[..i+1][..i] == evs[..i];
    HistoryKeepsInv(evs[..i]);
    w := After(evs[..i]).value;
  }

  predicate OneAt(evs: seq<Event>, i: nat)
    requires i <= |evs|
  {
    After(evs[..i]).Some? && Runs.OnePerKey(After(evs[..i]).value.server)
  }

  predicate TwiceAt(evs: seq<Event>, i: nat)
    requires i < |evs|
  {
    After(evs[..i]).Some? && WritesTwice(After(evs[..i]).value, evs[i])
  }

  lemma {:induction false} OneUpTo(evs: seq<Event>, i: nat)
    requires After(evs).Some? && i <= |evs|
    requires forall k | 0 <= k < i :: !TwiceAt(evs, k)
    ensures OneAt(evs, i)
  {
    if i > 0 {
      OneUpTo(evs, i - 1);
      var w := StepOf(evs, i - 1);
      assert !TwiceAt(evs, i - 1);
      StepKeepsOneIff(w, evs[i-1]);
    } else {
      assert evs[..0] == [];
    }
  }

  /** In a history with crashes, retries and calls that come late, a key has at most one real write at every
      moment exactly when no write goes on after its key was recorded behind its check. */
  lemma OneWritePerKeyIff(evs: seq<Event>)
    requires After(evs).Some?
    ensures (forall i | 0 <= i <= |evs| :: OneAt(evs, i)) <==> (forall i | 0 <= i < |evs| :: !TwiceAt(evs, i))
  {
    if forall i | 0 <= i <= |evs| :: OneAt(evs, i) {
      forall i | 0 <= i < |evs| ensures !TwiceAt(evs, i) {
        assert OneAt(evs, i) && OneAt(evs, i + 1);
        var w := StepOf(evs, i);
        StepKeepsOneIff(w, evs[i]);
      }
    }
    if forall i | 0 <= i < |evs| :: !TwiceAt(evs, i) {
      forall i | 0 <= i <= |evs| ensures OneAt(evs, i) {
        OneUpTo(evs, i);
      }
    }
  }

  /** What tells one run from another: its id, or the pair of its tables if it has none. */
  datatype RunName = Id(runId: string) | Pair(source: string, target: string)

  function RunOf(spec: Spec): RunName {
    if spec.runId != "" then Id(spec.runId) else Pair(spec.source, spec.target)
  }

  /** No run has two real writes. */
  predicate OnePerRun(w: World) {
    forall i, j | 0 <= i < j < |w.made| :: RunOf(w.made[i]) != RunOf(w.made[j])
  }

  lemma OnePerKeyIsOnePerRun(w: World)
    requires SendersOk(w) && Runs.OnePerKey(w.server)
    ensures OnePerRun(w) && |w.made| == |w.server.writes|
  {
    forall i, j | 0 <= i < j < |w.made|
      ensures RunOf(w.made[i]) != RunOf(w.made[j])
    {
      assert MakerIs(w, i) && MakerIs(w, j);
    }
  }

  /** So counted by run: as long as no write is doubled, each run id, and each pair of tables refreshed without
      one, has at most one of all the writes the format made. */
  lemma OneWritePerRun(evs: seq<Event>, w: World)
    requires After(evs) == Some(w) && forall k | 0 <= k < |evs| :: !TwiceAt(evs, k)
    ensures OnePerRun(w) && |w.made| == |w.server.writes|
  {
    OneUpTo(evs, |evs|);
    assert evs[..|evs|] == evs;
    HistoryKeepsSenders(evs);
    OnePerKeyIsOnePerRun(w);
  }

  ghost predicate OwnedAt(evs: seq<Event>, i: nat)
    requires i <= |evs|
  {
    After(evs[..i]).Some? && AllOwned(After(evs[..i]).value)
  }

  predicate DisturbedAt(evs: seq<Event>, i: nat)
    requires i < |evs|
  {
    After(evs[..i]).Some? && Allowed(After(evs[..i]).value, evs[i]) && Disturbs(After(evs[..i]).value, evs[i])
  }

  lemma {:induction false} OwnedUpTo(evs: seq<Event>, i: nat)
    requires After(evs).Some? && i <= |evs|
    requires forall k | 0 <= k < i :: !DisturbedAt(evs, k)
    ensures OwnedAt(evs, i)
  {
    if i > 0 {
      OwnedUpTo(evs, i - 1);
      var w := StepOf(evs, i - 1);
      assert !DisturbedAt(evs, i - 1);
      StepKeepsOwnedIff(w, evs[i-1]);
    } else {
      assert evs[..0] == [];
    }
  }

  /** In a history, the latest run on each target owns its table and its catalog entry at every moment
      exactly when no step was a write or a commit that disturbs. */
  lemma AlwaysOwnedIff(evs: seq<Event>)
    requires After(evs).Some?
    ensures (forall i | 0 <= i <= |evs| :: OwnedAt(evs, i)) <==> (forall i | 0 <= i < |evs| :: !DisturbedAt(evs, i))
  {
    if forall i | 0 <= i <= |evs| :: OwnedAt(evs, i) {
      forall i | 0 <= i < |evs| ensures !DisturbedAt(evs, i) {
        assert OwnedAt(evs, i) && OwnedAt(evs, i + 1);
        var w := StepOf(evs, i);
        StepKeepsOwnedIff(w, evs[i]);
      }
    }
    if forall i | 0 <= i < |evs| :: !DisturbedAt(evs, i) {
      forall i | 0 <= i <= |evs| ensures OwnedAt(evs, i) {
        OwnedUpTo(evs, i);
      }
    }
  }

  // ----- what a completed run is promised -----

  /** While no key has two writes, a write under the key of an owned target's latest run is the table's last. */
  lemma OwnWriteIsLast(w: World, t: string, snapshot: string)
    requires Inv(w) && Owned(w, t) && Runs.OnePerKey(w.server) && t in w.latest && w.latest[t] != ""
    requires Runs.IsMade(w.server.writes, w.latest[t], snapshot)
    ensures IsLast(w, t, snapshot)
  {
    MadeIsNotEmpty(w.server, w.latest[t], snapshot);
    var i :| 0 <= i < |w.server.writes| && w.server.writes[i].key == w.latest[t] && w.server.writes[i].snapshot == snapshot;
    var j := Runs.LastOnIs(w.server.writes, t);
    assert i == j;
  }

  /** Once an attempt completes in a history with no doubled write and no disturbing step, there is exactly
      one real write under its run's name; the catalog's committed snapshot for the target is the one that write
      minted, and the table holds that write's rows. */
  lemma CompletionIsLinked(evs: seq<Event>, w: World, target: string, query: Option<seq<Row>>) returns (i: nat)
    requires After(evs) == Some(w)
    requires forall k | 0 <= k < |evs| :: !DisturbedAt(evs, k) && !TwiceAt(evs, k)
    requires Allowed(w, Call(target, query)) && CallResult(w, target, query).Finished?
    ensures var w' := Called(w, target, query);
      && i < |w'.server.writes| && GoesBy(w.attempts[target].spec, w'.server.writes[i].key) && w'.server.writes[i].target == target
      && (forall j | 0 <= j < |w'.server.writes| && GoesBy(w.attempts[target].spec, w'.server.writes[j].key) :: j == i)
      && Cat.CommittedAt(w'.cat, target, "main") == w'.server.writes[i].snapshot
      && CallResult(w, target, query).result.snapshot == w'.server.writes[i].snapshot
      && target in w'.server.fmt.rows && w'.server.fmt.rows[target] == w'.server.writes[i].rows
  {
    OwnedUpTo(evs, |evs|);
    OneUpTo(evs, |evs|);
    assert evs[..|evs|] == evs;
    HistoryKeepsInv(evs);
    assert AttemptOk(w, target) && Owned(w, target);
    CommitCallKeepsInv(w, target, query);
    var result := w.attempts[target].stage.result;
    OwnWriteIsLast(w, target, result.snapshot);
    CallOwnedIff(w, target, query);
    i := StaysLinked(Called(w, target, query), target);
  }

  /** And it stays so while the target is owned and no key has two writes, until the next run starts there. */
  lemma StaysLinked(w: World, target: string) returns (i: nat)
    requires Inv(w) && Owned(w, target) && Runs.OnePerKey(w.server) && LatestCommitted(w, target)
    ensures i < |w.server.writes| && w.server.writes[i].key == w.latest[target] && w.server.writes[i].target == target
    ensures forall j | 0 <= j < |w.server.writes| && w.server.writes[j].key == w.latest[target] :: j == i
    ensures Cat.CommittedAt(w.cat, target, "main") == w.server.writes[i].snapshot
    ensures IsLast(w, target, w.server.writes[i].snapshot)
    ensures target in w.server.fmt.rows && w.server.fmt.rows[target] == w.server.writes[i].rows
  {
    CommittedIsWritten(w, w.latest[target]);
    assert Runs.LedgerOk(w.server, w.latest[target]) && Runs.TableOk(w.server, target);
    i := Runs.LastOnIs(w.server.writes, target);
  }

  /** In any history, doubled and disturbed or not, a completing attempt leaves the catalog naming the write
      whose rows the table holds exactly when the write it carries is the table's last, if it commits for the
      first time, and exactly when it did already, if its commit is a replay. */
  lemma CompletionNamesIff(evs: seq<Event>, w: World, target: string, query: Option<seq<Row>>)
    requires After(evs) == Some(w) && Allowed(w, Call(target, query)) && CallResult(w, target, query).Finished?
    ensures Names(Called(w, target, query), target) <==>
      if Key(w.attempts[target].spec) in w.cat.commitKeys then Names(w, target)
      else IsLast(w, target, CallResult(w, target, query).result.snapshot)
  {
    HistoryKeepsInv(evs);
    assert AttemptOk(w, target);
    CommitCallKeepsInv(w, target, query);
  }
}
