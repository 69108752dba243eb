/** Runs of the reconciler (core/reconciler/reconciler.go with core/cmd/rat/rewire.go) at the granularity
    of their locks.

    RemoveDesired, Reconcile, Shutdown, Bind and Unbind each release their locks in between their parts, so
    calls interleave: a pass copies the desired list before it takes the reconcile mutex, a removal unbinds
    and terminates after it has left it, and either one's Bind or Unbind changes the gateway's table, closes
    the displaced connection and changes the hook's table in three steps. Any number of removals may be in
    flight beside one pass. The runtime is an adversary that only never reuses an instance id.

    The pass holds the mutex while it routes, so what it does to its own plugin besides, which nobody else
    can see or touch meanwhile, is put into the first of those three steps. */
module ReconcilerRuns {
  import opened Options
  import opened Routing
  import opened Reconciler

  /** A RemoveDesired in flight. `taken` is the instance it captured under the mutex, `unbound` whether its
      Unbind has begun. */
  datatype Removal = Removal(name: string, taken: Option<string>, unbound: bool)

  /** `Running` holds the reconcile mutex. */
  datatype PassState = NoPass | Copied(names: seq<string>) | Running(names: seq<string>)

  datatype Fine = Fine(
    w: World,
    removals: map<nat, Removal>,
    dying: set<string>,
    pass: PassState,
    wires: map<Owner, Wire>,
    stopped: bool)

  datatype Action =
    | Add(name: string)
    | RemoveBegin(call: nat, name: string)
    | RemoveForget(call: nat)
    | RemoveUnbind(call: nat)
    | RemoveFinish(call: nat)
    | PassBegin
    | PassLock
    | PassStep(now: int, e: Env)
    | PassEnd
    | WireClose(owner: Owner)
    | WireRecord(owner: Owner)
    | ShutdownCollect
    | ShutdownTerminate(id: string)

  function Init(desired: seq<string>): Fine {
    Fine(NewWorld(desired), map[], {}, NoPass, map[], false)
  }

  /** The instance ids Launch has returned so far. */
  function Issued(trace: seq<Event>): set<string> {
    if trace == [] then {}
    else
      var e := trace[|trace|-1];
      Issued(trace[..|trace|-1]) + (if e.Launched? then {e.instance} else {})
  }

  /** How often Terminate was issued for an instance. */
  function TermCount(trace: seq<Event>, id: string): nat {
    if trace == [] then 0
    else TermCount(trace[..|trace|-1], id) + (if trace[|trace|-1] == Terminated(id) then 1 else 0)
  }

  /** The runtime's one promise: a launched instance has a new, non-empty id. */
  predicate FreshLaunch(trace: seq<Event>, e: Env) {
    e.launch.Some? ==> e.launch.value.0 != "" && e.launch.value.0 !in Issued(trace)
  }

  /** The removal has forgotten its plugin and is about to unbind it. */
  predicate AboutToUnbind(f: Fine, call: nat) {
    && call in f.removals && f.removals[call].taken.Some? && !f.removals[call].unbound
    && ByRemoval(call) !in f.wires
  }

  predicate AboutToFinish(f: Fine, call: nat) {
    && call in f.removals && f.removals[call].taken.Some? && f.removals[call].unbound
    && ByRemoval(call) !in f.wires
  }

  /** The pass is about to step its next plugin, and the runtime keeps its promise. */
  predicate AboutToStep(f: Fine, e: Env) {
    && f.pass.Running? && f.pass.names != [] && ByPass !in f.wires
    && FreshLaunch(f.w.trace, e)
  }

  /** The first section of the routing call a move makes, and that call. */
  function RouteOpened(r: Routes, name: string, p: Plugin, e: Env, m: Move): Routes {
    match m
    case Lose => UnbindOpened(r, name)
    case Rise => if e.dialable then BindOpened(r, name, p.endpoint) else r
    case _ => r
  }

  function RouteWire(r: Routes, name: string, p: Plugin, e: Env, m: Move): Option<Wire> {
    match m
    case Lose => Some(UnbindWire(r, name))
    case Rise => if e.dialable then Some(BindWire(r, name, p.endpoint)) else None
    case _ => None
  }

  function PassStepped(c: Config, f: Fine, name: string, now: int, e: Env): Fine {
    var p := Tracked(f.w, name);
    var m := Decide(c, p, now, e);
    var wire := RouteWire(f.w.routes, name, p, e, m);
    f.(w := ReconcileOne(c, f.w, name, now, e).(routes := RouteOpened(f.w.routes, name, p, e, m)),
       pass := if f.pass.Running? && f.pass.names != [] then Running(f.pass.names[1..]) else f.pass,
       wires := if wire.Some? then f.wires[ByPass := wire.value] else f.wires)
  }

  function Next(c: Config, f: Fine, a: Action): Fine {
    match a
    case Add(name) => f.(w := Added(f.w, name))
    case RemoveBegin(call, name) =>
      if call in f.removals then f
      else f.(w := Undesired(f.w, name), removals := f.removals[call := Removal(name, None, false)])
    case RemoveForget(call) =>
      if call in f.removals && f.removals[call].taken.None? && !f.pass.Running? then
        var name := f.removals[call].name;
        if name in f.w.plugins then
          f.(w := Forgot(f.w, name), removals := f.removals[call := Removal(name, Some(f.w.plugins[name].instance), false)])
        else f.(removals := f.removals - {call})
      else f
    case RemoveUnbind(call) =>
      if AboutToUnbind(f, call) then
        var name := f.removals[call].name;
        f.(w := f.w.(routes := UnbindOpened(f.w.routes, name)),
           wires := f.wires[ByRemoval(call) := UnbindWire(f.w.routes, name)],
           removals := f.removals[call := f.removals[call].(unbound := true)])
      else f
    case RemoveFinish(call) =>
      if AboutToFinish(f, call) then
        f.(w := f.w.(trace := f.w.trace + Termination(f.removals[call].taken.value)), removals := f.removals - {call})
      else f
    case PassBegin => if f.pass.NoPass? then f.(pass := Copied(f.w.desired)) else f
    case PassLock => if f.pass.Copied? then f.(pass := Running(f.pass.names)) else f
    case PassStep(now, e) => if AboutToStep(f, e) then PassStepped(c, f, f.pass.names[0], now, e) else f
    case PassEnd => if f.pass == Running([]) && ByPass !in f.wires then f.(pass := NoPass) else f
    case WireClose(o) =>
      if o in f.wires then
        f.(w := f.w.(routes := PrevClosed(f.w.routes, f.wires[o])), wires := f.wires[o := f.wires[o].(prev := None)])
      else f
    case WireRecord(o) =>
      if o in f.wires && f.wires[o].prev.None? then
        f.(w := f.w.(routes := Recorded(f.w.routes, f.wires[o])), wires := f.wires - {o})
      else f
    case ShutdownCollect =>
      if f.pass.Running? then f
      else
        f.(w := f.w.(plugins := Stopped(f.w.plugins), snap := Republished(f.w)),
           dying := f.dying + LiveInstances(f.w.plugins), stopped := true)
    case ShutdownTerminate(id) =>
      if id in f.dying then f.(w := f.w.(trace := f.w.trace + [Terminated(id)]), dying := f.dying - {id}) else f
  }

  /** Shutdown republishes only the plugins it took an instance from. */
  function Republished(w: World): map<string, StatusView> {
    map n | n in w.snap.Keys + w.plugins.Keys && (n in w.snap || w.plugins[n].instance != "") ::
      if n in w.plugins && w.plugins[n].instance != "" then Projection(w.plugins[n]) else w.snap[n]
  }

  function Exec(c: Config, f: Fine, acts: seq<Action>): Fine {
    if acts == [] then f else Next(c, Exec(c, f, acts[..|acts|-1]), acts[|acts|-1])
  }

  lemma ExecOne(c: Config, f: Fine, acts: seq<Action>, a: Action)
    ensures Exec(c, f, acts + [a]) == Next(c, Exec(c, f, acts), a)
  {
    assert (acts + [a])[..|acts|] == acts;
  }

  lemma {:induction false} ExecSplit(c: Config, f: Fine, xs: seq<Action>, ys: seq<Action>)
    ensures Exec(c, f, xs + ys) == Exec(c, Exec(c, f, xs), ys)
  {
    if ys == [] {
      assert xs + ys == xs;
    } else {
      var n := |ys| - 1;
      ExecSplit(c, f, xs, ys[..n]);
      assert (xs + ys)[..|xs + ys|-1] == xs + ys[..n];
    }
  }

  // ----- instance conservation -----

  /** Who is responsible for an instance. */
  datatype Place = OfPlugin(name: string) | OfRemoval(call: nat) | OfShutdown

  predicate Holds(f: Fine, p: Place, id: string) {
    match p
    case OfPlugin(name) => name in f.w.plugins && f.w.plugins[name].instance == id
    case OfRemoval(call) => call in f.removals && f.removals[call].taken == Some(id)
    case OfShutdown => id in f.dying
  }

  ghost predicate Held(f: Fine, id: string) {
    exists p :: Holds(f, p, id)
  }

  /** A launched instance has exactly one holder and was never terminated, or has none and was
      terminated exactly once; an id never launched has no holder and no termination. */
  ghost predicate Conserved(f: Fine, id: string) {
    && (forall p, q | Holds(f, p, id) && Holds(f, q, id) :: p == q)
    && TermCount(f.w.trace, id) == (if id in Issued(f.w.trace) && !Held(f, id) then 1 else 0)
    && (Held(f, id) ==> id in Issued(f.w.trace))
  }

  lemma {:induction false} TraceConcat(a: seq<Event>, b: seq<Event>, id: string)
    ensures Issued(a + b) == Issued(a) + Issued(b)
    ensures TermCount(a + b, id) == TermCount(a, id) + TermCount(b, id)
  {
    if b == [] {
      assert a + b == a;
    } else {
      TraceConcat(a, b[..|b|-1], id);
      assert (a + b)[..|a + b|-1] == a + b[..|b|-1];
    }
  }

  lemma TraceOne(e: Event, id: string)
    ensures Issued([e]) == if e.Launched? then {e.instance} else {}
    ensures TermCount([e], id) == if e == Terminated(id) then 1 else 0
  {
    assert [e][..0] == [];
  }

  /** A move keeps the plugin's instance, or terminates it, or gives it a fresh one. */
  predicate InstanceEffect(p: Plugin, p': Plugin, e: Env, events: seq<Event>, id: string) {
    || (p'.instance == p.instance && Issued(events) == {} && TermCount(events, id) == 0)
    || (p'.instance == "" && Issued(events) == {} && TermCount(events, id) == (if p.instance == id then 1 else 0))
    || (p.instance == "" && e.launch.Some? && p'.instance == e.launch.value.0
        && Issued(events) == {p'.instance} && TermCount(events, id) == 0)
  }

  lemma FailTraceEffect(name: string, p: Plugin, now: int, id: string)
    requires id != ""
    ensures Issued(FailTrace(name, p, now)) == {}
    ensures TermCount(FailTrace(name, p, now), id) == if p.instance == id then 1 else 0
  {
    var failed, dead := Failed(name, now, p.attempts + 1), Terminated(p.instance);
    TraceOne(failed, id);
    TraceOne(dead, id);
    TraceConcat(Termination(p.instance), [failed], id);
  }

  lemma MoveEffect(c: Config, name: string, p: Plugin, now: int, e: Env, id: string)
    requires id != ""
    ensures var m := Decide(c, p, now, e);
      InstanceEffect(p, Moved(c, p, now, e, m), e, EventsOf(name, p, now, m), id)
  {
    var m := Decide(c, p, now, e);
    match m
    case Stay =>
    case Start(instance, _) => TraceOne(Launched(name, instance, now), id);
    case Rise => TraceOne(BecameHealthy(name), id);
    case Miss =>
      FailTraceEffect(name, p, now, id);
      TraceOne(LaunchFailed(name, now), id);
      TraceConcat([LaunchFailed(name, now)], FailTrace(name, p, now), id);
    case _ => FailTraceEffect(name, p, now, id);
  }

  lemma PassStepConserves(c: Config, f: Fine, now: int, e: Env, id: string)
    requires id != "" && Conserved(f, id)
    ensures Conserved(Next(c, f, PassStep(now, e)), id)
  {
    if AboutToStep(f, e) {
      var f', name := Next(c, f, PassStep(now, e)), f.pass.names[0];
      var p := Tracked(f.w, name);
      var m := Decide(c, p, now, e);
      var p', events := Moved(c, p, now, e, m), EventsOf(name, p, now, m);
      MoveEffect(c, name, p, now, e, id);
      TraceConcat(f.w.trace, events, id);
      PluginChange(f, f', name, p', e, events, id);
    }
  }

  /** The bookkeeping of one plugin's change. */
  lemma PluginChange(f: Fine, f': Fine, name: string, p': Plugin, e: Env, events: seq<Event>, id: string)
    requires id != "" && Conserved(f, id)
    requires f'.w.plugins == f.w.plugins[name := p'] && f'.removals == f.removals && f'.dying == f.dying
    requires Issued(f'.w.trace) == Issued(f.w.trace) + Issued(events)
    requires TermCount(f'.w.trace, id) == TermCount(f.w.trace, id) + TermCount(events, id)
    requires InstanceEffect(Tracked(f.w, name), p', e, events, id) && FreshLaunch(f.w.trace, e)
    ensures Conserved(f', id)
  {
    var here, p := OfPlugin(name), Tracked(f.w, name);
    assert forall q | q != here :: Holds(f', q, id) <==> Holds(f, q, id);
    if p.instance == id {
      assert Holds(f, here, id);
      if p'.instance == id {
        Untouched(f, f', id);
      } else {
        Discharged(f, f', here, id);
      }
    } else if p'.instance == id {
      assert Holds(f', here, id) && !Held(f, id);
    } else {
      Untouched(f, f', id);
    }
  }

  /** An instance handed from one holder to another. */
  lemma Handover(f: Fine, f': Fine, p: Place, q: Place, id: string)
    requires Conserved(f, id) && Holds(f, p, id) && Holds(f', q, id)
    requires forall r | r != q :: !Holds(f', r, id)
    requires Issued(f'.w.trace) == Issued(f.w.trace) && TermCount(f'.w.trace, id) == TermCount(f.w.trace, id)
    ensures Conserved(f', id)
  {
  }

  lemma Untouched(f: Fine, f': Fine, id: string)
    requires Conserved(f, id)
    requires forall r :: Holds(f', r, id) <==> Holds(f, r, id)
    requires id in Issued(f'.w.trace) <==> id in Issued(f.w.trace)
    requires TermCount(f'.w.trace, id) == TermCount(f.w.trace, id)
    ensures Conserved(f', id)
  {
  }

  lemma Discharged(f: Fine, f': Fine, p: Place, id: string)
    requires Conserved(f, id) && Holds(f, p, id)
    requires forall r :: !Holds(f', r, id)
    requires Issued(f'.w.trace) == Issued(f.w.trace) && TermCount(f'.w.trace, id) == TermCount(f.w.trace, id) + 1
    ensures Conserved(f', id)
  {
  }

  /** The removal takes over the instance of the plugin it forgets. */
  lemma ForgottenHolds(f: Fine, f': Fine, name: string, call: nat, r: Place, id: string)
    requires name in f.w.plugins && call in f.removals && f.removals[call].taken.None?
    requires f'.w.plugins == f.w.plugins - {name} && f'.dying == f.dying
    requires f'.removals == f.removals[call := Removal(name, Some(f.w.plugins[name].instance), false)]
    ensures Holds(f', r, id) <==>
      if r == OfPlugin(name) then false
      else if r == OfRemoval(call) then f.w.plugins[name].instance == id
      else Holds(f, r, id)
  {
  }

  lemma ForgetConserves(c: Config, f: Fine, call: nat, id: string)
    requires id != "" && Conserved(f, id)
    ensures Conserved(Next(c, f, RemoveForget(call)), id)
  {
    var f' := Next(c, f, RemoveForget(call));
    if f' != f {
      var name := f.removals[call].name;
      if name in f.w.plugins {
        TraceConcat(f.w.trace, [Forgotten(name)], id);
        TraceOne(Forgotten(name), id);
        forall r { ForgottenHolds(f, f', name, call, r, id); }
        assert !Holds(f, OfRemoval(call), id);
        if f.w.plugins[name].instance == id {
          assert Holds(f, OfPlugin(name), id);
          Handover(f, f', OfPlugin(name), OfRemoval(call), id);
        } else {
          assert !Holds(f, OfPlugin(name), id);
          Untouched(f, f', id);
        }
      } else {
        forall r ensures Holds(f', r, id) <==> Holds(f, r, id) {}
        Untouched(f, f', id);
      }
    }
  }

  lemma FinishConserves(c: Config, f: Fine, call: nat, id: string)
    requires id != "" && Conserved(f, id)
    ensures Conserved(Next(c, f, RemoveFinish(call)), id)
  {
    var f' := Next(c, f, RemoveFinish(call));
    if AboutToFinish(f, call) {
      var taken := f.removals[call].taken.value;
      TraceConcat(f.w.trace, Termination(taken), id);
      TraceOne(Terminated(taken), id);
      if taken == id {
        assert Holds(f, OfRemoval(call), id);
        forall r ensures !Holds(f', r, id) {
          assert Holds(f', r, id) ==> Holds(f, r, id) && r != OfRemoval(call);
        }
        Discharged(f, f', OfRemoval(call), id);
      } else {
        Untouched(f, f', id);
      }
    }
  }

  lemma CollectConserves(c: Config, f: Fine, id: string)
    requires id != "" && Conserved(f, id)
    ensures Conserved(Next(c, f, ShutdownCollect), id)
  {
    var f' := Next(c, f, ShutdownCollect);
    if !f.pass.Running? {
      if id in LiveInstances(f.w.plugins) {
        var n :| n in f.w.plugins && f.w.plugins[n].instance == id;
        assert Holds(f, OfPlugin(n), id);
        forall r | r != OfShutdown ensures !Holds(f', r, id) {
          assert Holds(f', r, id) ==> Holds(f, r, id) && r != OfPlugin(n);
        }
        Handover(f, f', OfPlugin(n), OfShutdown, id);
      } else {
        assert forall n | n in f.w.plugins :: f.w.plugins[n].instance != id;
        Untouched(f, f', id);
      }
    }
  }

  lemma TerminateConserves(c: Config, f: Fine, dead: string, id: string)
    requires id != "" && Conserved(f, id)
    ensures Conserved(Next(c, f, ShutdownTerminate(dead)), id)
  {
    var f' := Next(c, f, ShutdownTerminate(dead));
    if dead in f.dying {
      TraceConcat(f.w.trace, [Terminated(dead)], id);
      TraceOne(Terminated(dead), id);
      if dead == id {
        assert Holds(f, OfShutdown, id);
        forall r ensures !Holds(f', r, id) {
          assert Holds(f', r, id) ==> Holds(f, r, id) && r != OfShutdown;
        }
        Discharged(f, f', OfShutdown, id);
      } else {
        Untouched(f, f', id);
      }
    }
  }

  lemma NextConserves(c: Config, f: Fine, a: Action, id: string)
    requires id != "" && Conserved(f, id)
    ensures Conserved(Next(c, f, a), id)
  {
    match a
    case RemoveForget(call) => ForgetConserves(c, f, call, id);
    case RemoveFinish(call) => FinishConserves(c, f, call, id);
    case PassStep(now, e) => PassStepConserves(c, f, now, e, id);
    case ShutdownCollect => CollectConserves(c, f, id);
    case ShutdownTerminate(dead) => TerminateConserves(c, f, dead, id);
    case _ => Untouched(f, Next(c, f, a), id);
  }

  lemma {:induction false} ExecConserves(c: Config, desired: seq<string>, acts: seq<Action>, id: string)
    requires id != ""
    ensures Conserved(Exec(c, Init(desired), acts), id)
  {
    if acts != [] {
      ExecConserves(c, desired, acts[..|acts|-1], id);
      NextConserves(c, Exec(c, Init(desired), acts[..|acts|-1]), acts[|acts|-1], id);
    }
  }

  /** Conservation: in every interleaving, Shutdown included, once no removal and no shutdown is in
      flight, each instance Launch ever returned is the current instance of exactly one tracked plugin
      and was never terminated, or is nobody's and was terminated exactly once. */
  lemma InstancesConserved(c: Config, desired: seq<string>, acts: seq<Action>, id: string)
    requires var f := Exec(c, Init(desired), acts);
      id in Issued(f.w.trace) && id != "" && f.removals == map[] && f.dying == {}
    ensures var f := Exec(c, Init(desired), acts);
      || (TermCount(f.w.trace, id) == 0
          && exists n :: n in f.w.plugins && f.w.plugins[n].instance == id
               && forall m | m in f.w.plugins && m != n :: f.w.plugins[m].instance != id)
      || (TermCount(f.w.trace, id) == 1 && forall m | m in f.w.plugins :: f.w.plugins[m].instance != id)
  {
    var f := Exec(c, Init(desired), acts);
    ExecConserves(c, desired, acts, id);
    if p :| Holds(f, p, id) {
      assert p.OfPlugin?;
      forall m | m in f.w.plugins && m != p.name ensures f.w.plugins[m].instance != id {
        assert Holds(f, OfPlugin(m), id) ==> OfPlugin(m) == p;
      }
    } else {
      forall m | m in f.w.plugins ensures f.w.plugins[m].instance != id {
        assert !Holds(f, OfPlugin(m), id);
      }
    }
  }
}
