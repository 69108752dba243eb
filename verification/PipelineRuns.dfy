/** Whole histories of the full-refresh pipeline: attempts start, make their calls one at a time, crash after
    any of them and are started again under the same key, on any number of targets, while other callers
    register tables and create and merge branches in between. A write that was sent is carried out by the
    format in its two sections whenever the format gets to them, whether or not its caller still waits, and
    may be delivered more than once; a commit that an attempt had sent when it crashed may land any time
    later, and more than once. */
module PipelineRuns {
  import opened Options
  import Cat = Catalog
  import opened FormatLedger
  import opened FormatRuns
  import opened FormatStore
  import opened Pipeline

  /** An attempt at a run. While it waits for its write, `request` is the number of that write. */
  datatype InFlight = InFlight(spec: Spec, stage: Stage, request: nat)

  /** A commit whose caller is gone. */
  datatype Orphan = Orphan(spec: Spec, branch: string, result: WriteResult)

  /** `requests` are the writes ever sent, by number, with the runs that sent them in `senders`, and the server's
      bodies those it has looked at; `made` are the runs whose writes the format made, in its order. `latest` is
      the key of the last run started on a target, `home` the target each key was used on. */
  datatype World = World(
    server: Server,
    cat: Cat.Cat,
    attempts: map<string, InFlight>,
    requests: seq<WriteOp>,
    senders: seq<Spec>,
    made: seq<Spec>,
    orphans: set<Orphan>,
    latest: map<string, string>,
    home: map<string, string>)

  datatype Event =
    | Begin(spec: Spec)
    | Call(target: string, query: Option<seq<Row>>)
    | CheckWrite(request: nat)
    | FinishWrite(request: nat)
    | Resend(request: nat)
    | Reply(target: string)
    | Crash(target: string)
    | Land(commit: Orphan)
    | Other(op: Cat.Op)

  function Initial(): World {
    World(NewServer(), Cat.Seeded(), map[], [], [], [], {}, map[], map[])
  }

  /** The scheduler's side of the contract: one run at a time per target. A run starts on a target with
      nothing in flight, under the key of the latest run there (a retry) or under a key never used. */
  predicate Allowed(w: World, ev: Event) {
    match ev
    case Begin(spec) =>
      && spec.target !in w.attempts
      && ((spec.target in w.latest && w.latest[spec.target] == Key(spec)) || Key(spec) !in w.home)
    case Call(target, _) => target in w.attempts && !w.attempts[target].stage.Writing?
    case CheckWrite(request) => request < |w.requests| && request !in w.server.bodies
    case FinishWrite(request) => request in w.server.bodies && w.server.bodies[request].Passed?
    case Resend(request) => request < |w.requests|
    case Reply(target) =>
      && target in w.attempts && w.attempts[target].stage.Writing?
      && w.attempts[target].request in w.server.bodies && w.server.bodies[w.attempts[target].request].Answered?
    case Crash(target) => target in w.attempts
    case Land(commit) => commit in w.orphans
    case Other(op) => !op.CommitOp?
  }

  function Began(w: World, spec: Spec): World {
    var stage := Start(spec);
    if stage.Raised? then w
    else
      w.(attempts := w.attempts[spec.target := InFlight(spec, stage, 0)],
         latest := w.latest[spec.target := Key(spec)],
         home := w.home[Key(spec) := spec.target])
  }

  /** A call that is answered at once. The one that gets the rows also sends the write. */
  function Called(w: World, target: string, query: Option<seq<Row>>): World
    requires target in w.attempts && !w.attempts[target].stage.Writing?
  {
    var a := w.attempts[target];
    var (stores, stage) := Advance(Stores(w.server.fmt, w.cat), a.spec, a.stage, query);
    w.(cat := stores.cat,
       attempts := if stage.Finished? || stage.Raised? then w.attempts - {target}
                   else w.attempts[target := InFlight(a.spec, stage, |w.requests|)],
       requests := if stage.Writing? then w.requests + [Over(a.spec.target, stage.rows, Key(a.spec))] else w.requests,
       senders := if stage.Writing? then w.senders + [a.spec] else w.senders)
  }

  /** What a call left its attempt at. */
  function CallResult(w: World, target: string, query: Option<seq<Row>>): Stage
    requires target in w.attempts && !w.attempts[target].stage.Writing?
  {
    Advance(Stores(w.server.fmt, w.cat), w.attempts[target].spec, w.attempts[target].stage, query).1
  }

  function Replied(w: World, target: string): World
    requires Allowed(w, Reply(target))
  {
    var a := w.attempts[target];
    var result := w.server.bodies[a.request].result;
    w.(attempts := w.attempts[target := a.(stage := Committing(a.stage.branch, result))])
  }

  function OrphansOf(a: InFlight): set<Orphan> {
    if a.stage.Committing? then {Orphan(a.spec, a.stage.branch, a.stage.result)} else {}
  }

  function Landed(w: World, c: Orphan): World {
    w.(cat := Cat.Commit(w.cat, c.spec.target, c.branch, c.result.snapshot, "", Key(c.spec)).0)
  }

  function SenderOf(w: World, request: nat): seq<Spec> {
    if request < |w.senders| then [w.senders[request]] else []
  }

  function Next(w: World, ev: Event): World
    requires Allowed(w, ev)
  {
    match ev
    case Begin(spec) => Began(w, spec)
    case Call(target, query) => Called(w, target, query)
    case CheckWrite(request) => w.(server := Checked(w.server, request, w.requests[request]))
    case FinishWrite(request) =>
      w.(server := FormatRuns.Finished(w.server, request), made := w.made + SenderOf(w, request))
    case Resend(request) =>
      w.(requests := w.requests + [w.requests[request]], senders := w.senders + SenderOf(w, request))
    case Reply(target) => Replied(w, target)
    case Crash(target) => w.(attempts := w.attempts - {target}, orphans := w.orphans + OrphansOf(w.attempts[target]))
    case Land(commit) => Landed(w, commit)
    case Other(op) => w.(cat := Cat.Apply(w.cat, op).0)
  }

  /** Where a history ends, if every step of it was allowed. */
  function After(evs: seq<Event>): Option<World> {
    if evs == [] then Some(Initial())
    else
      var before, ev := After(evs[..|evs|-1]), evs[|evs|-1];
      if before.Some? && Allowed(before.value, ev) then Some(Next(before.value, ev)) else None
  }

  // ----- what every history keeps -----

  /** A key is used on one target only. */
  ghost predicate HomeOk(w: World) {
    && "main" in w.cat.branches
    && (forall k | k in w.server.fmt.ledger :: k in w.home)
    && (forall i | 0 <= i < |w.server.writes| :: WriteHome(w, w.server.writes[i]))
    && (forall t | t in w.latest :: w.latest[t] in w.home && w.home[w.latest[t]] == t)
  }

  predicate WriteHome(w: World, x: Write) {
    x.key != "" && x.key in w.home && w.home[x.key] == x.target
  }

  predicate RequestOk(w: World, op: WriteOp) {
    op.Over? && op.key != "" && op.key in w.home && w.home[op.key] == op.identifier
  }

  predicate BodyIs(w: World, id: nat) {
    id in w.server.bodies ==> id < |w.requests| && w.server.bodies[id].op == w.requests[id]
  }

  /** What is committed under a key was minted by a write under that key. */
  ghost predicate CommitOk(w: World, k: string) {
    k in w.cat.commitKeys ==> IsMade(w.server.writes, k, w.cat.commitKeys[k])
  }

  /** A commit that an attempt makes, or made before it crashed. */
  ghost predicate CommitReady(w: World, spec: Spec, branch: string, result: WriteResult) {
    && branch == "main" && spec.target != "" && spec.target in w.cat.tables
    && Key(spec) in w.home && w.home[Key(spec)] == spec.target
    && IsMade(w.server.writes, Key(spec), result.snapshot)
  }

  ghost predicate AttemptOk(w: World, t: string) {
    t in w.attempts ==>
      var InFlight(spec, stage, request) := w.attempts[t];
      && spec.target == t && t in w.latest && w.latest[t] == Key(spec)
      && (match stage
          case Querying(b) => b == "main" && t != "" && t in w.cat.tables
          case Writing(b, rows) =>
            && b == "main" && t != "" && t in w.cat.tables
            && request < |w.requests| && w.requests[request] == Over(t, rows, Key(spec))
          case Committing(b, result) => CommitReady(w, spec, b, result)
          case Finished(_) => false
          case Raised => false
          case _ => true)
  }

  ghost predicate Inv(w: World) {
    && ServerOk(w.server) && HomeOk(w)
    && (forall i | 0 <= i < |w.requests| :: RequestOk(w, w.requests[i]))
    && (forall id :: BodyIs(w, id))
    && (forall k :: CommitOk(w, k))
    && (forall t :: AttemptOk(w, t))
    && (forall c | c in w.orphans :: CommitReady(w, c.spec, c.branch, c.result))
  }

  /** Everything but the attempts, which each step accounts for itself. */
  ghost predicate Settled(w: World) {
    && ServerOk(w.server) && HomeOk(w)
    && (forall i | 0 <= i < |w.requests| :: RequestOk(w, w.requests[i]))
    && (forall id :: BodyIs(w, id))
    && (forall k :: CommitOk(w, k))
  }

  /** The step changes neither tables nor commits, and of the rest only adds. */
  ghost predicate NoEffect(w: World, w': World) {
    && w'.server.fmt == w.server.fmt && w'.server.writes == w.server.writes
    && w'.cat.commits == w.cat.commits && w'.cat.commitKeys == w.cat.commitKeys
    && w.cat.tables <= w'.cat.tables && "main" in w'.cat.branches
    && w.requests <= w'.requests
    && (forall k | k in w.home :: k in w'.home && w'.home[k] == w.home[k])
  }

  lemma NoEffectSettled(w: World, w': World)
    requires Inv(w) && NoEffect(w, w') && w'.server == w.server
    requires forall t | t in w'.latest :: w'.latest[t] in w'.home && w'.home[w'.latest[t]] == t
    requires forall i | |w.requests| <= i < |w'.requests| :: RequestOk(w', w'.requests[i])
    ensures Settled(w')
  {
    forall i | 0 <= i < |w'.requests| ensures RequestOk(w', w'.requests[i]) {
      assert i < |w.requests| ==> RequestOk(w, w.requests[i]);
    }
    forall i | 0 <= i < |w.server.writes| ensures WriteHome(w', w.server.writes[i]) {
      assert WriteHome(w, w.server.writes[i]);
    }
    forall id ensures BodyIs(w', id) {
      assert BodyIs(w, id);
    }
    forall k ensures CommitOk(w', k) {
      assert CommitOk(w, k);
    }
  }

  /** An attempt or an orphan the step did not touch is as ready as it was. */
  lemma NoEffectReady(w: World, w': World, spec: Spec, branch: string, result: WriteResult)
    requires NoEffect(w, w') && CommitReady(w, spec, branch, result)
    ensures CommitReady(w', spec, branch, result)
  {
  }

  lemma NoEffectAttempt(w: World, w': World, t: string)
    requires NoEffect(w, w') && AttemptOk(w, t)
    requires t in w'.attempts ==> t in w.attempts && w'.attempts[t] == w.attempts[t] && t in w'.latest && w'.latest[t] == w.latest[t]
    ensures AttemptOk(w', t)
  {
  }

  lemma BeginKeepsInv(w: World, spec: Spec)
    requires Inv(w) && Allowed(w, Begin(spec))
    ensures Inv(Began(w, spec))
  {
    var w' := Began(w, spec);
    NoEffectSettled(w, w');
    forall t ensures AttemptOk(w', t) {
      assert AttemptOk(w, t);
      if t != spec.target {
        NoEffectAttempt(w, w', t);
      }
    }
    forall c | c in w'.orphans ensures CommitReady(w', c.spec, c.branch, c.result) {
      NoEffectReady(w, w', c.spec, c.branch, c.result);
    }
  }

  lemma CrashKeepsInv(w: World, target: string)
    requires Inv(w) && target in w.attempts
    ensures Inv(Next(w, Crash(target)))
  {
    var w' := Next(w, Crash(target));
    NoEffectSettled(w, w');
    forall t ensures AttemptOk(w', t) {
      assert AttemptOk(w, t);
      NoEffectAttempt(w, w', t);
    }
    assert AttemptOk(w, target);
  }

  /** Nothing but a commit touches the commit ledger, tables are only added, and main is never dropped. */
  lemma OtherOpFrame(c: Cat.Cat, op: Cat.Op)
    requires !op.CommitOp? && "main" in c.branches
    ensures var c' := Cat.Apply(c, op).0;
      c'.commits == c.commits && c'.commitKeys == c.commitKeys && c.tables <= c'.tables && "main" in c'.branches
  {
  }

  lemma OtherKeepsInv(w: World, op: Cat.Op)
    requires Inv(w) && !op.CommitOp?
    ensures Inv(Next(w, Other(op))) && NoEffect(w, Next(w, Other(op)))
  {
    var w' := Next(w, Other(op));
    OtherOpFrame(w.cat, op);
    NoEffectSettled(w, w');
    forall t ensures AttemptOk(w', t) {
      assert AttemptOk(w, t);
      NoEffectAttempt(w, w', t);
    }
    forall c | c in w'.orphans ensures CommitReady(w', c.spec, c.branch, c.result) {
      NoEffectReady(w, w', c.spec, c.branch, c.result);
    }
  }

  /** The calls that write nothing: resolve, register and query. */
  lemma ReadIsNoEffect(w: World, target: string, query: Option<seq<Row>>)
    requires Inv(w) && target in w.attempts
    requires !w.attempts[target].stage.Writing? && !w.attempts[target].stage.Committing?
    ensures var w' := Called(w, target, query);
      NoEffect(w, w') && w'.server == w.server && w'.latest == w.latest && w'.home == w.home && w'.orphans == w.orphans
      && forall i | |w.requests| <= i < |w'.requests| :: RequestOk(w', w'.requests[i])
  {
    assert AttemptOk(w, target);
    if w.attempts[target].stage.Registering? {
      OtherOpFrame(w.cat, Cat.RegisterOp(w.attempts[target].spec.target, "", ""));
    }
  }

  lemma ReadAttempt(w: World, target: string, query: Option<seq<Row>>)
    requires Inv(w) && target in w.attempts
    requires !w.attempts[target].stage.Writing? && !w.attempts[target].stage.Committing?
    ensures AttemptOk(Called(w, target, query), target)
  {
    assert AttemptOk(w, target);
  }

  lemma ReadKeepsInv(w: World, target: string, query: Option<seq<Row>>)
    requires Inv(w) && target in w.attempts
    requires !w.attempts[target].stage.Writing? && !w.attempts[target].stage.Committing?
    ensures Inv(Called(w, target, query))
  {
    var w' := Called(w, target, query);
    ReadIsNoEffect(w, target, query);
    NoEffectSettled(w, w');
    forall t ensures AttemptOk(w', t) {
      assert AttemptOk(w, t);
      if t == target {
        ReadAttempt(w, target, query);
      } else {
        NoEffectAttempt(w, w', t);
      }
    }
    forall c | c in w'.orphans ensures CommitReady(w', c.spec, c.branch, c.result) {
      NoEffectReady(w, w', c.spec, c.branch, c.result);
    }
  }

  // ----- writes -----

  lemma CheckWriteKeepsInv(w: World, request: nat)
    requires Inv(w) && Allowed(w, CheckWrite(request))
    ensures Inv(Next(w, CheckWrite(request))) && NoEffect(w, Next(w, CheckWrite(request)))
  {
    var w' := Next(w, CheckWrite(request));
    CheckKeepsOk(w.server, request, w.requests[request]);
    forall i | 0 <= i < |w.requests| ensures RequestOk(w', w.requests[i]) {
      assert RequestOk(w, w.requests[i]);
    }
    forall id ensures BodyIs(w', id) {
      assert BodyIs(w, id);
    }
    forall k ensures CommitOk(w', k) {
      assert CommitOk(w, k);
    }
    forall i | 0 <= i < |w.server.writes| ensures WriteHome(w', w.server.writes[i]) {
      assert WriteHome(w, w.server.writes[i]);
    }
    forall t ensures AttemptOk(w', t) {
      assert AttemptOk(w, t);
      NoEffectAttempt(w, w', t);
    }
    forall c | c in w'.orphans ensures CommitReady(w', c.spec, c.branch, c.result) {
      NoEffectReady(w, w', c.spec, c.branch, c.result);
    }
  }

  lemma ResendKeepsInv(w: World, request: nat)
    requires Inv(w) && Allowed(w, Resend(request))
    ensures Inv(Next(w, Resend(request))) && NoEffect(w, Next(w, Resend(request)))
  {
    var w' := Next(w, Resend(request));
    assert RequestOk(w, w.requests[request]);
    NoEffectSettled(w, w');
    forall t ensures AttemptOk(w', t) {
      assert AttemptOk(w, t);
      NoEffectAttempt(w, w', t);
    }
    forall c | c in w'.orphans ensures CommitReady(w', c.spec, c.branch, c.result) {
      NoEffectReady(w, w', c.spec, c.branch, c.result);
    }
  }

  /** From w to w' the format made the write x and nothing else changed but that write's body. */
  ghost predicate Makes(w: World, w': World, x: Write) {
    && w'.server.writes == w.server.writes + [x]
    && w'.server.fmt.ledger.Keys == w.server.fmt.ledger.Keys + {x.key}
    && w'.cat == w.cat && w'.latest == w.latest && w'.home == w.home && w'.attempts == w.attempts
    && w'.requests == w.requests && w'.orphans == w.orphans
    && x.key != "" && x.key in w.home && w.home[x.key] == x.target
  }

  lemma FinishMakes(w: World, request: nat)
    requires Inv(w) && Allowed(w, FinishWrite(request))
    ensures request < |w.requests| && w.server.bodies[request].op == w.requests[request]
    ensures Makes(w, Next(w, FinishWrite(request)), WriteOf(w.server, w.requests[request]))
  {
    assert BodyIs(w, request);
    assert RequestOk(w, w.requests[request]);
  }

  lemma MakesReady(w: World, w': World, x: Write, spec: Spec, branch: string, result: WriteResult)
    requires Makes(w, w', x) && CommitReady(w, spec, branch, result)
    ensures CommitReady(w', spec, branch, result)
  {
    StillMade(w.server.writes, x, Key(spec), result.snapshot);
  }

  lemma FinishWriteKeepsInv(w: World, request: nat)
    requires Inv(w) && Allowed(w, FinishWrite(request))
    ensures Inv(Next(w, FinishWrite(request)))
  {
    FinishMakes(w, request);
    var w', x := Next(w, FinishWrite(request)), WriteOf(w.server, w.requests[request]);
    FinishKeepsOk(w.server, request);
    forall i | 0 <= i < |w.requests| ensures RequestOk(w', w.requests[i]) {
      assert RequestOk(w, w.requests[i]);
    }
    forall id ensures BodyIs(w', id) {
      assert BodyIs(w, id);
    }
    forall k ensures CommitOk(w', k) {
      assert CommitOk(w, k);
      if k in w.cat.commitKeys {
        StillMade(w.server.writes, x, k, w.cat.commitKeys[k]);
      }
    }
    forall i | 0 <= i < |w'.server.writes| ensures WriteHome(w', w'.server.writes[i]) {
      assert i < |w.server.writes| ==> WriteHome(w, w.server.writes[i]);
    }
    forall t ensures AttemptOk(w', t) {
      assert AttemptOk(w, t);
      if t in w.attempts && w.attempts[t].stage.Committing? {
        MakesReady(w, w', x, w.attempts[t].spec, w.attempts[t].stage.branch, w.attempts[t].stage.result);
      }
    }
    forall c | c in w'.orphans ensures CommitReady(w', c.spec, c.branch, c.result) {
      MakesReady(w, w', x, c.spec, c.branch, c.result);
    }
  }

  lemma ReplyKeepsInv(w: World, target: string)
    requires Inv(w) && Allowed(w, Reply(target))
    ensures Inv(Next(w, Reply(target))) && NoEffect(w, Next(w, Reply(target)))
  {
    var w', a := Next(w, Reply(target)), w.attempts[target];
    NoEffectSettled(w, w');
    assert AttemptOk(w, target) && BodyIs(w, a.request) && BodyOk(w.server, a.request);
    forall t ensures AttemptOk(w', t) {
      assert AttemptOk(w, t);
      if t != target {
        NoEffectAttempt(w, w', t);
      }
    }
    forall c | c in w'.orphans ensures CommitReady(w', c.spec, c.branch, c.result) {
      NoEffectReady(w, w', c.spec, c.branch, c.result);
    }
  }

  // ----- commits -----

  lemma CommitKeyInjective(s: string, t: string, branch: string)
    requires Cat.CommitKey(s, branch) == Cat.CommitKey(t, branch)
    ensures s == t
  {
    var n := |s|;
    assert |s| == |t|;
    assert s == Cat.CommitKey(s, branch)[..n] && t == Cat.CommitKey(t, branch)[..n];
  }

  lemma MadeIsNotEmpty(s: Server, key: string, snapshot: string)
    requires ServerOk(s) && IsMade(s.writes, key, snapshot)
    ensures snapshot != "" && (key != "" ==> key in s.fmt.ledger)
  {
    var i :| 0 <= i < |s.writes| && s.writes[i].key == key && s.writes[i].snapshot == snapshot;
    assert WriteOk(s.fmt, s.writes[i]);
    SnapshotOfNotEmpty(s.writes[i].target, s.writes[i].version);
  }

  /** From w to w' the catalog recorded this snapshot under the key, or found the key recorded. */
  ghost predicate Commits(w: World, w': World, spec: Spec, snapshot: string) {
    var c, c', key := w.cat, w'.cat, Key(spec);
    && w'.server == w.server && w'.requests == w.requests && w'.orphans == w.orphans
    && w'.latest == w.latest && w'.home == w.home
    && c'.branches == c.branches && c'.tables == c.tables
    && (key in c.commitKeys ==> c'.commitKeys == c.commitKeys && c'.commits == c.commits)
    && (key !in c.commitKeys ==>
          && c'.commitKeys == c.commitKeys[key := snapshot]
          && c'.commits == c.commits[Cat.CommitKey(spec.target, "main") := snapshot])
  }

  /** A commit of the pipeline always lands, whether it is the first under its key, a replay, or late. */
  lemma CommitLands(w: World, spec: Spec, branch: string, result: WriteResult)
    requires ServerOk(w.server) && HomeOk(w) && CommitReady(w, spec, branch, result)
    ensures var (cat, a) := Cat.Commit(w.cat, spec.target, branch, result.snapshot, "", Key(spec));
      a.Landed? && Commits(w, w.(cat := cat), spec, result.snapshot)
  {
    MadeIsNotEmpty(w.server, Key(spec), result.snapshot);
  }

  lemma CommitsSettled(w: World, w': World, spec: Spec, snapshot: string)
    requires Inv(w) && Commits(w, w', spec, snapshot) && IsMade(w.server.writes, Key(spec), snapshot)
    ensures Settled(w') && (forall c | c in w.orphans :: CommitReady(w', c.spec, c.branch, c.result))
  {
    forall i | 0 <= i < |w.requests| ensures RequestOk(w', w.requests[i]) {
      assert RequestOk(w, w.requests[i]);
    }
    forall i | 0 <= i < |w.server.writes| ensures WriteHome(w', w.server.writes[i]) {
      assert WriteHome(w, w.server.writes[i]);
    }
    forall id ensures BodyIs(w', id) {
      assert BodyIs(w, id);
    }
    forall k ensures CommitOk(w', k) {
      assert CommitOk(w, k);
    }
  }

  lemma CommitCallKeepsInv(w: World, target: string, query: Option<seq<Row>>)
    requires Inv(w) && target in w.attempts && w.attempts[target].stage.Committing?
    ensures Inv(Called(w, target, query))
    ensures Commits(w, Called(w, target, query), w.attempts[target].spec, w.attempts[target].stage.result.snapshot)
    ensures CallResult(w, target, query) == Finished(w.attempts[target].stage.result)
  {
    var w', a := Called(w, target, query), w.attempts[target];
    assert AttemptOk(w, target);
    CommitLands(w, a.spec, a.stage.branch, a.stage.result);
    CommitsSettled(w, w', a.spec, a.stage.result.snapshot);
    forall t ensures AttemptOk(w', t) {
      assert AttemptOk(w, t);
    }
  }

  lemma LandKeepsInv(w: World, c: Orphan)
    requires Inv(w) && c in w.orphans
    ensures Inv(Landed(w, c)) && Commits(w, Landed(w, c), c.spec, c.result.snapshot)
  {
    var w' := Landed(w, c);
    CommitLands(w, c.spec, c.branch, c.result);
    CommitsSettled(w, w', c.spec, c.result.snapshot);
    forall t ensures AttemptOk(w', t) {
      assert AttemptOk(w, t);
    }
  }

  lemma NextKeepsInv(w: World, ev: Event)
    requires Inv(w) && Allowed(w, ev)
    ensures Inv(Next(w, ev))
  {
    match ev
    case Begin(spec) => BeginKeepsInv(w, spec);
    case CheckWrite(request) => CheckWriteKeepsInv(w, request);
    case FinishWrite(request) => FinishWriteKeepsInv(w, request);
    case Resend(request) => ResendKeepsInv(w, request);
    case Reply(target) => ReplyKeepsInv(w, target);
    case Crash(target) => CrashKeepsInv(w, target);
    case Land(commit) => LandKeepsInv(w, commit);
    case Other(op) => OtherKeepsInv(w, op);
    case Call(target, query) =>
      if w.attempts[target].stage.Committing? {
        CommitCallKeepsInv(w, target, query);
      } else {
        ReadKeepsInv(w, target, query);
      }
  }

  lemma InitialOk()
    ensures Inv(Initial())
  {
    NewServerOk();
  }

  lemma {:induction false} HistoryKeepsInv(evs: seq<Event>)
    requires After(evs).Some?
    ensures Inv(After(evs).value)
  {
    if evs != [] {
      var init := evs[..|evs|-1];
      HistoryKeepsInv(init);
      NextKeepsInv(After(init).value, evs[|evs|-1]);
    } else {
      InitialOk();
    }
  }

  /** The format of a history is the format of a run of overlapping writes, so what FormatRuns says of every
      run is true of it. */
  lemma {:induction false} ServerIsARun(evs: seq<Event>) returns (steps: seq<FormatRuns.Step>)
    requires After(evs).Some?
    ensures Run(steps) == After(evs).value.server
  {
    steps := [];
    if evs != [] {
      var w, ev := After(evs[..|evs|-1]).value, evs[|evs|-1];
      var before := ServerIsARun(evs[..|evs|-1]);
      steps := match ev
        case CheckWrite(request) => before + [Check(request, w.requests[request])]
        case FinishWrite(request) => before + [Finish(request)]
        case _ => before;
      assert steps != before ==> steps[..|steps|-1] == before;
    }
  }

  // ----- who sent what -----

  predicate SenderIs(w: World, i: nat)
    requires i < |w.senders| == |w.requests|
  {
    w.requests[i].key == Key(w.senders[i]) && w.requests[i].identifier == w.senders[i].target
  }

  predicate MakerIs(w: World, i: nat)
    requires i < |w.made| == |w.server.writes|
  {
    w.server.writes[i].key == Key(w.made[i]) && w.server.writes[i].target == w.made[i].target
  }

  /** Every request and every write carries the key of the run it was sent or made for. */
  ghost predicate SendersOk(w: World) {
    && |w.senders| == |w.requests| && |w.made| == |w.server.writes|
    && (forall i | 0 <= i < |w.requests| :: SenderIs(w, i))
    && (forall i | 0 <= i < |w.made| :: MakerIs(w, i))
  }

  lemma SentKeepsSenders(w: World, w': World, spec: Spec, op: WriteOp)
    requires SendersOk(w) && w'.server.writes == w.server.writes && w'.made == w.made
    requires w'.requests == w.requests + [op] && w'.senders == w.senders + [spec]
    requires op.key == Key(spec) && op.identifier == spec.target
    ensures SendersOk(w')
  {
    forall i | 0 <= i < |w'.requests| ensures SenderIs(w', i) {
      assert i < |w.requests| ==> SenderIs(w, i);
    }
    forall i | 0 <= i < |w'.made| ensures MakerIs(w', i) {
      assert MakerIs(w, i);
    }
  }

  lemma SameKeepsSenders(w: World, w': World)
    requires SendersOk(w) && w'.server.writes == w.server.writes && w'.made == w.made
    requires w'.requests == w.requests && w'.senders == w.senders
    ensures SendersOk(w')
  {
    forall i | 0 <= i < |w'.requests| ensures SenderIs(w', i) {
      assert SenderIs(w, i);
    }
    forall i | 0 <= i < |w'.made| ensures MakerIs(w', i) {
      assert MakerIs(w, i);
    }
  }

  lemma FinishKeepsSenders(w: World, request: nat)
    requires Inv(w) && SendersOk(w) && Allowed(w, FinishWrite(request))
    ensures SendersOk(Next(w, FinishWrite(request)))
  {
    var w' := Next(w, FinishWrite(request));
    FinishMakes(w, request);
    assert SenderIs(w, request);
    forall i | 0 <= i < |w'.requests| ensures SenderIs(w', i) {
      assert SenderIs(w, i);
    }
    forall i | 0 <= i < |w'.made| ensures MakerIs(w', i) {
      assert i < |w.made| ==> MakerIs(w, i);
    }
  }

  lemma CallKeepsSenders(w: World, target: string, query: Option<seq<Row>>)
    requires Inv(w) && SendersOk(w) && Allowed(w, Call(target, query))
    ensures SendersOk(Called(w, target, query))
  {
    var w', a := Called(w, target, query), w.attempts[target];
    if CallResult(w, target, query).Writing? {
      SentKeepsSenders(w, w', a.spec, w'.requests[|w.requests|]);
    } else {
      SameKeepsSenders(w, w');
    }
  }

  lemma NextKeepsSenders(w: World, ev: Event)
    requires Inv(w) && SendersOk(w) && Allowed(w, ev)
    ensures SendersOk(Next(w, ev))
  {
    match ev
    case Call(target, query) => CallKeepsSenders(w, target, query);
    case FinishWrite(request) => FinishKeepsSenders(w, request);
    case Resend(request) =>
      assert SenderIs(w, request);
      SentKeepsSenders(w, Next(w, ev), w.senders[request], w.requests[request]);
    case _ => SameKeepsSenders(w, Next(w, ev));
  }

  lemma {:induction false} HistoryKeepsSenders(evs: seq<Event>)
    requires After(evs).Some?
    ensures SendersOk(After(evs).value)
  {
    if evs != [] {
      var init := evs[..|evs|-1];
      HistoryKeepsInv(init);
      HistoryKeepsSenders(init);
      NextKeepsSenders(After(init).value, evs[|evs|-1]);
    }
  }
}
