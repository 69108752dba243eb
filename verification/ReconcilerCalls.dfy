/** The reconciler one whole call at a time (core/reconciler/reconciler.go with core/cmd/rat/rewire.go).
    Calls are the methods of Reconciler; each is also a run of the finer steps of ReconcilerRuns. What
    holds between calls, routing above all, does not hold when calls interleave: two runs show how. */
module ReconcilerCalls {
  import opened Lists
  import opened Options
  import opened Routing
  import opened Reconciler
  import opened ReconcilerRuns

  datatype Call =
    | AddCall(name: string)
    | RemoveCall(name: string)
    | ReconcileCall(now: int, envs: seq<Env>)

  function Called(c: Config, w: World, call: Call): World {
    match call
    case AddCall(name) => Added(w, name)
    case RemoveCall(name) => Removed(w, name)
    case ReconcileCall(now, envs) => if |envs| == |w.desired| then Pass(c, w, w.desired, now, envs) else w
  }

  function RunCalls(c: Config, w: World, calls: seq<Call>): World {
    if calls == [] then w else Called(c, RunCalls(c, w, calls[..|calls|-1]), calls[|calls|-1])
  }

  // ----- routing agrees with health -----

  /** Whether a dial succeeds depends on the endpoint alone: `accepts` is that test. */
  predicate DialsBy(accepts: string -> bool, w: World, name: string, e: Env) {
    e.dialable == accepts(Tracked(w, name).endpoint)
  }

  predicate PassDialsBy(accepts: string -> bool, c: Config, w: World, names: seq<string>, now: int, envs: seq<Env>)
    requires |envs| == |names|
  {
    names != [] ==>
      var n := |names| - 1;
      && PassDialsBy(accepts, c, w, names[..n], now, envs[..n])
      && DialsBy(accepts, Pass(c, w, names[..n], now, envs[..n]), names[n], envs[n])
  }

  predicate CallsDialBy(accepts: string -> bool, c: Config, w: World, calls: seq<Call>) {
    calls != [] ==>
      var rest, last := calls[..|calls|-1], calls[|calls|-1];
      var before := RunCalls(c, w, rest);
      && CallsDialBy(accepts, c, w, rest)
      && (last.ReconcileCall? && |last.envs| == |before.desired| ==>
            PassDialsBy(accepts, c, before, before.desired, last.now, last.envs))
  }

  ghost predicate Matched(accepts: string -> bool, providers: map<string, Conn>, plugins: map<string, Plugin>) {
    && (forall n :: n in providers <==> n in plugins && plugins[n].state.Healthy? && accepts(plugins[n].endpoint))
    && (forall n | n in providers && n in plugins :: providers[n].endpoint == plugins[n].endpoint)
  }

  /** A plugin is bound in the gateway exactly when it is Healthy at a dialable endpoint, and then to
      that endpoint; only desired plugins are tracked; the snapshot is current. */
  ghost predicate Agrees(accepts: string -> bool, w: World) {
    && Matched(accepts, w.routes.providers, w.plugins)
    && (forall n | n in w.plugins :: n in w.desired)
    && w.snap == Projections(w.plugins)
    && RoutesOk(w.routes, map[]) && w.routes.conns == w.routes.providers
  }

  lemma FailedIsNotHealthy(c: Config, p: Plugin, now: int, jitter: nat)
    ensures !AfterFail(c, p, now, jitter).state.Healthy?
  {
  }

  lemma MoveMatches(accepts: string -> bool, c: Config, w: World, name: string, now: int, e: Env)
    requires Matched(accepts, w.routes.providers, w.plugins) && DialsBy(accepts, w, name, e)
    ensures var p := Tracked(w, name);
      var m := Decide(c, p, now, e);
      Matched(accepts, Rerouted(w.routes, name, p, e, m).providers, w.plugins[name := Moved(c, p, now, e, m)])
  {
    FailedIsNotHealthy(c, Tracked(w, name), now, e.jitter);
  }

  lemma OneAgrees(accepts: string -> bool, c: Config, w: World, name: string, now: int, e: Env)
    requires Agrees(accepts, w) && name in w.desired && DialsBy(accepts, w, name, e)
    ensures Agrees(accepts, ReconcileOne(c, w, name, now, e))
    ensures ReconcileOne(c, w, name, now, e).desired == w.desired
  {
    var p := Tracked(w, name);
    MoveMatches(accepts, c, w, name, now, e);
    ReroutedOk(w.routes, name, p, e, Decide(c, p, now, e));
    ProjectionsUpdate(w.plugins, name, Moved(c, p, now, e, Decide(c, p, now, e)));
  }

  lemma ReroutedOk(routes: Routes, name: string, p: Plugin, e: Env, m: Move)
    requires RoutesOk(routes, map[]) && routes.conns == routes.providers
    ensures var r := Rerouted(routes, name, p, e, m); RoutesOk(r, map[]) && r.conns == r.providers
  {
    UnbindKeepsRoutes(routes, name);
    BindKeepsRoutes(routes, name, p.endpoint, e.dialable);
  }

  lemma ProjectionsUpdate(plugins: map<string, Plugin>, name: string, p: Plugin)
    ensures Projections(plugins[name := p]) == Projections(plugins)[name := Projection(p)]
  {
  }

  lemma {:induction false} PassAgrees(accepts: string -> bool, c: Config, w: World, names: seq<string>, now: int, envs: seq<Env>)
    requires |envs| == |names| && Agrees(accepts, w)
    requires forall n | n in names :: n in w.desired
    requires PassDialsBy(accepts, c, w, names, now, envs)
    ensures Agrees(accepts, Pass(c, w, names, now, envs))
    ensures Pass(c, w, names, now, envs).desired == w.desired
  {
    if names != [] {
      var n := |names| - 1;
      PassAgrees(accepts, c, w, names[..n], now, envs[..n]);
      OneAgrees(accepts, c, Pass(c, w, names[..n], now, envs[..n]), names[n], now, envs[n]);
    }
  }

  lemma MatchesWithout(accepts: string -> bool, providers: map<string, Conn>, plugins: map<string, Plugin>, name: string)
    requires Matched(accepts, providers, plugins)
    ensures Matched(accepts, providers - {name}, plugins - {name})
  {
  }

  lemma ProjectionsWithout(plugins: map<string, Plugin>, name: string)
    ensures Projections(plugins - {name}) == Projections(plugins) - {name}
  {
  }

  lemma RemovedAgrees(accepts: string -> bool, w: World, name: string)
    requires Agrees(accepts, w)
    ensures Agrees(accepts, Removed(w, name))
  {
    var w' := Removed(w, name);
    forall n | n in w'.plugins ensures n in w'.desired {
      WithoutIs(w.desired, name, n);
    }
    if name in w.plugins {
      MatchesWithout(accepts, w.routes.providers, w.plugins, name);
      ProjectionsWithout(w.plugins, name);
      UnbindKeepsRoutes(w.routes, name);
    }
  }

  /** Routing agreement: after any sequence of AddDesired, RemoveDesired and Reconcile calls, whatever
      the runtime answered in each. */
  lemma {:induction false} RoutingAgrees(accepts: string -> bool, c: Config, desired: seq<string>, calls: seq<Call>)
    requires CallsDialBy(accepts, c, NewWorld(desired), calls)
    ensures Agrees(accepts, RunCalls(c, NewWorld(desired), calls))
  {
    if calls != [] {
      var rest, last := calls[..|calls|-1], calls[|calls|-1];
      RoutingAgrees(accepts, c, desired, rest);
      var before := RunCalls(c, NewWorld(desired), rest);
      match last
      case AddCall(name) =>
      case RemoveCall(name) => RemovedAgrees(accepts, before, name);
      case ReconcileCall(now, envs) =>
        if |envs| == |before.desired| {
          PassAgrees(accepts, c, before, before.desired, now, envs);
        }
    }
  }

  /** A removed plugin leaves nothing behind: not desired, not tracked, not published, not routed. */
  lemma RemoveLeavesNothing(accepts: string -> bool, w: World, name: string)
    requires Agrees(accepts, w)
    ensures var w' := Removed(w, name);
      name !in w'.desired && name !in w'.plugins && name !in w'.snap && name !in w'.routes.providers
  {
    WithoutIs(w.desired, name, name);
  }

  /** What a caller may do with a published endpoint: between whole calls it is empty, or it is where the
      gateway routes the plugin, if it can be dialed at all. */
  lemma EndpointIsRouted(accepts: string -> bool, c: Config, desired: seq<string>, calls: seq<Call>, name: string)
    requires CallsDialBy(accepts, c, NewWorld(desired), calls)
    ensures var w := RunCalls(c, NewWorld(desired), calls);
      var endpoint := PublishedEndpoint(w.snap, name);
      endpoint != "" && accepts(endpoint) ==>
        name in w.routes.providers && w.routes.providers[name].endpoint == endpoint
  {
    RoutingAgrees(accepts, c, desired, calls);
  }

  // ----- calls are runs of the finer steps -----

  ghost predicate Quiet(f: Fine) {
    f.removals == map[] && f.dying == {} && f.pass.NoPass? && f.wires == map[] && !f.stopped
  }

  function WireActions(o: Owner): seq<Action> {
    [WireClose(o), WireRecord(o)]
  }

  function StepActions(now: int, envs: seq<Env>): seq<Action> {
    if envs == [] then []
    else StepActions(now, envs[..|envs|-1]) + ([PassStep(now, envs[|envs|-1])] + WireActions(ByPass))
  }

  function CallActions(call: Call): seq<Action> {
    match call
    case AddCall(name) => [Add(name)]
    case RemoveCall(name) => [RemoveBegin(0, name), RemoveForget(0)] + UnbindActions(0)
    case ReconcileCall(now, envs) => [PassBegin, PassLock] + StepActions(now, envs) + [PassEnd]
  }

  /** What is left of a removal that has forgotten its plugin. */
  function UnbindActions(call: nat): seq<Action> {
    [RemoveUnbind(call)] + WireActions(ByRemoval(call)) + [RemoveFinish(call)]
  }

  /** The runtime kept its promise throughout the pass. */
  predicate PassFresh(c: Config, w: World, names: seq<string>, now: int, envs: seq<Env>)
    requires |envs| == |names|
  {
    names != [] ==>
      var n := |names| - 1;
      && PassFresh(c, w, names[..n], now, envs[..n])
      && FreshLaunch(Pass(c, w, names[..n], now, envs[..n]).trace, envs[n])
  }

  lemma ExecNone(c: Config, f: Fine, a: Action)
    ensures Exec(c, f, [a]) == Next(c, f, a)
  {
    ExecOne(c, f, [], a);
    assert [] + [a] == [a];
  }

  lemma ExecTwo(c: Config, f: Fine, a: Action, b: Action)
    ensures Exec(c, f, [a, b]) == Next(c, Next(c, f, a), b)
  {
    ExecNone(c, f, a);
    ExecOne(c, f, [a], b);
    assert [a] + [b] == [a, b];
  }

  /** A call in flight that is left alone runs to its end. */
  lemma WireRuns(c: Config, f: Fine, o: Owner)
    requires o in f.wires
    ensures Exec(c, f, WireActions(o))
      == f.(w := f.w.(routes := Recorded(PrevClosed(f.w.routes, f.wires[o]), f.wires[o])), wires := f.wires - {o})
  {
    ExecTwo(c, f, WireClose(o), WireRecord(o));
    var g := Next(c, f, WireClose(o));
    assert g.wires - {o} == f.wires - {o};
  }

  lemma NoWireRuns(c: Config, f: Fine, o: Owner)
    requires o !in f.wires
    ensures Exec(c, f, WireActions(o)) == f
  {
    ExecTwo(c, f, WireClose(o), WireRecord(o));
  }

  /** One plugin's step with its routing call run to the end is the step of the method. */
  lemma PassStepIs(c: Config, f: Fine, now: int, e: Env)
    requires AboutToStep(f, e)
    ensures Exec(c, f, [PassStep(now, e)] + WireActions(ByPass))
      == f.(w := ReconcileOne(c, f.w, f.pass.names[0], now, e), pass := Running(f.pass.names[1..]))
  {
    var name := f.pass.names[0];
    var g := Next(c, f, PassStep(now, e));
    ExecNone(c, f, PassStep(now, e));
    ExecSplit(c, f, [PassStep(now, e)], WireActions(ByPass));
    if ByPass in g.wires {
      WireRuns(c, g, ByPass);
      assert g.wires - {ByPass} == f.wires;
    } else {
      NoWireRuns(c, g, ByPass);
    }
  }

  lemma {:induction false} StepsAreAPass(c: Config, f: Fine, names: seq<string>, now: int, envs: seq<Env>)
    requires f.pass.Running? && ByPass !in f.wires && |envs| <= |f.pass.names| && names == f.pass.names[..|envs|]
    requires PassFresh(c, f.w, names, now, envs)
    ensures Exec(c, f, StepActions(now, envs))
      == f.(w := Pass(c, f.w, names, now, envs), pass := Running(f.pass.names[|envs|..]))
  {
    if envs == [] {
      assert f.pass.names[0..] == f.pass.names;
    } else {
      var n := |envs| - 1;
      assert names[..n] == f.pass.names[..n];
      StepsAreAPass(c, f, names[..n], now, envs[..n]);
      var mid := Pass(c, f.w, names[..n], now, envs[..n]);
      var g := f.(w := mid, pass := Running(f.pass.names[n..]));
      ExecSplit(c, f, StepActions(now, envs[..n]), [PassStep(now, envs[n])] + WireActions(ByPass));
      assert g.pass.names[0] == names[n] && g.pass.names[1..] == f.pass.names[|envs|..];
      PassStepIs(c, g, now, envs[n]);
      assert Pass(c, f.w, names, now, envs) == ReconcileOne(c, mid, names[n], now, envs[n]);
    }
  }

  /** A removal left alone from its Unbind on. */
  lemma UnbindIsARun(c: Config, f: Fine, call: nat)
    requires AboutToUnbind(f, call)
    ensures var removal := f.removals[call];
      Exec(c, f, UnbindActions(call))
        == f.(w := Released(f.w, removal.name, removal.taken.value), removals := f.removals - {call})
  {
    var o, unbind := ByRemoval(call), RemoveUnbind(call);
    var g := Next(c, f, unbind);
    ExecNone(c, f, unbind);
    ExecSplit(c, f, [unbind], WireActions(o));
    WireRuns(c, g, o);
    assert g.wires - {o} == f.wires;
    ExecOne(c, f, [unbind] + WireActions(o), RemoveFinish(call));
    assert g.removals - {call} == f.removals - {call};
  }

  lemma RemoveIsARun(c: Config, f: Fine, name: string)
    requires Quiet(f)
    ensures Exec(c, f, CallActions(RemoveCall(name))) == f.(w := Removed(f.w, name))
  {
    var first := [RemoveBegin(0, name), RemoveForget(0)];
    ExecTwo(c, f, first[0], first[1]);
    ExecSplit(c, f, first, UnbindActions(0));
    var f1 := Next(c, f, first[0]);
    assert f1.removals == map[0 := Removal(name, None, false)];
    var f2 := Next(c, f1, first[1]);
    if name in f1.w.plugins {
      UnbindIsARun(c, f2, 0);
      assert f2.removals - {0} == map[];
    } else {
      assert f2.removals == map[];
      NothingToUnbind(c, f2, 0);
    }
  }

  lemma NothingToUnbind(c: Config, f: Fine, call: nat)
    requires call !in f.removals && ByRemoval(call) !in f.wires
    ensures Exec(c, f, UnbindActions(call)) == f
  {
    ExecNone(c, f, RemoveUnbind(call));
    ExecSplit(c, f, [RemoveUnbind(call)], WireActions(ByRemoval(call)));
    NoWireRuns(c, f, ByRemoval(call));
    ExecOne(c, f, [RemoveUnbind(call)] + WireActions(ByRemoval(call)), RemoveFinish(call));
  }

  lemma PassOpens(c: Config, f: Fine)
    requires f.pass.NoPass?
    ensures Exec(c, f, [PassBegin, PassLock]) == f.(pass := Running(f.w.desired))
  {
    ExecTwo(c, f, PassBegin, PassLock);
  }

  lemma PassEnds(c: Config, f: Fine)
    requires f.pass == Running([]) && ByPass !in f.wires
    ensures Exec(c, f, [PassEnd]) == f.(pass := NoPass)
  {
    ExecNone(c, f, PassEnd);
  }

  lemma ReconcileIsARun(c: Config, f: Fine, now: int, envs: seq<Env>)
    requires f.pass.NoPass? && ByPass !in f.wires
    requires |envs| == |f.w.desired| && PassFresh(c, f.w, f.w.desired, now, envs)
    ensures Exec(c, f, CallActions(ReconcileCall(now, envs))) == f.(w := Pass(c, f.w, f.w.desired, now, envs))
  {
    var names, open, steps := f.w.desired, [PassBegin, PassLock], StepActions(now, envs);
    var f2 := f.(pass := Running(names));
    PassOpens(c, f);
    assert names[..|envs|] == names && names[|envs|..] == [];
    StepsAreAPass(c, f2, names, now, envs);
    ExecSplit(c, f, open, steps);
    PassEnds(c, f2.(w := Pass(c, f.w, names, now, envs), pass := Running([])));
    ExecSplit(c, f, open + steps, [PassEnd]);
  }

  /** Every whole call, under a runtime that keeps its promise, is a run of the finer steps that ends
      quiet again in the world the call computes. So whatever holds over the finer runs, conservation,
      the launch budget, the waits, holds of the methods. */
  lemma CallIsARun(c: Config, f: Fine, call: Call)
    requires Quiet(f)
    requires call.ReconcileCall? ==> |call.envs| == |f.w.desired| && PassFresh(c, f.w, f.w.desired, call.now, call.envs)
    ensures Exec(c, f, CallActions(call)) == f.(w := Called(c, f.w, call))
  {
    match call
    case AddCall(name) => ExecNone(c, f, Add(name));
    case RemoveCall(name) => RemoveIsARun(c, f, name);
    case ReconcileCall(now, envs) => ReconcileIsARun(c, f, now, envs);
  }
}
