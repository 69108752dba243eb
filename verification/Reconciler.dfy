/** The convergence loop (core/reconciler/reconciler.go): a per-plugin state machine with backoff and
    a crash-loop cap, driving a deployment runtime and the routing hook. The runtime, the jitter and
    the dialer are adversaries: whatever they answer is a parameter of the step they answer in. */
module Reconciler {
  import opened Lists
  import opened Options
  import opened Routing
  import Backoff

  datatype Phase = Pending | Healthy | Degraded

  datatype Plugin = Plugin(
    state: Phase,
    instance: string,     // "" when nothing is launched
    endpoint: string,
    attempts: nat,        // consecutive failures
    nextRetryAt: int,
    launchedAt: int)

  datatype StatusView = StatusView(state: Phase, attempts: nat, nextRetryAt: int, endpoint: string)

  datatype Config = Config(base: int, max: int, cap: int, readiness: int)

  /** A healthcheck answer; an RPC error reads as Unhealthy. */
  datatype Health = HealthyStatus | Unknown | Unhealthy | Unspecified

  /** Everything the outside world contributes to one plugin's step. */
  datatype Env = Env(launch: Option<(string, string)>, health: Health, jitter: nat, dialable: bool)

  /** What the reconciler did to the runtime, and the transitions it went through, in order. */
  datatype Event =
    | Launched(name: string, instance: string, now: int)
    | LaunchFailed(name: string, now: int)
    | Terminated(instance: string)
    | BecameHealthy(name: string)
    | Failed(name: string, now: int, attempts: nat)
    | Forgotten(name: string)

  datatype World = World(
    desired: seq<string>,
    plugins: map<string, Plugin>,
    snap: map<string, StatusView>,
    routes: Routes,
    trace: seq<Event>)

  function NewWorld(desired: seq<string>): World {
    World(desired, map[], map[], NoRoutes(), [])
  }

  const FRESH := Plugin(Pending, "", "", 0, 0, 0)

  function Projection(p: Plugin): StatusView {
    StatusView(p.state, p.attempts, p.nextRetryAt, p.endpoint)
  }

  function Published(w: World, name: string): World {
    w.(snap := if name in w.plugins then w.snap[name := Projection(w.plugins[name])] else w.snap - {name})
  }

  function Termination(instance: string): seq<Event> {
    if instance == "" then [] else [Terminated(instance)]
  }

  function Retry(c: Config, attempts: nat, now: int, jitter: nat): int
    requires attempts >= 1
  {
    now + (Backoff.Interval(c.base, c.max, attempts) + jitter)
  }

  /** `fail`: terminate what runs, count the failure, then cap out or schedule the retry. */
  function AfterFail(c: Config, p: Plugin, now: int, jitter: nat): Plugin {
    var q := (if p.instance != "" then p.(instance := "", endpoint := "") else p).(attempts := p.attempts + 1);
    if q.attempts >= c.cap then q.(state := Degraded)
    else q.(state := Pending, nextRetryAt := Retry(c, q.attempts, now, jitter))
  }

  function FailTrace(name: string, p: Plugin, now: int): seq<Event> {
    Termination(p.instance) + [Failed(name, now, p.attempts + 1)]
  }

  /** What one observe-or-act step decides for a tracked plugin. */
  datatype Move =
    | Stay                                        // capped, backing off, still healthy, or still starting
    | Lose                                        // was healthy and no longer is: unroute, then fail
    | Fall                                        // crashed or never became ready: fail
    | Miss                                        // the launch itself failed: fail
    | Start(instance: string, endpoint: string)   // launched
    | Rise                                        // became healthy: route

  function Decide(c: Config, p: Plugin, now: int, e: Env): Move {
    var health := if p.instance == "" then Unhealthy else e.health;
    match p.state
    case Degraded => Stay
    case Healthy => if health.HealthyStatus? then Stay else Lose
    case Pending =>
      if p.instance == "" then
        if now < p.nextRetryAt then Stay
        else if e.launch.None? then Miss
        else Start(e.launch.value.0, e.launch.value.1)
      else
        match health
        case HealthyStatus => Rise
        case Unknown => if now - p.launchedAt > c.readiness then Fall else Stay
        case _ => Fall
  }

  function Moved(c: Config, p: Plugin, now: int, e: Env, m: Move): Plugin {
    match m
    case Stay => p
    case Start(instance, endpoint) => p.(instance := instance, endpoint := endpoint, launchedAt := now)
    case Rise => p.(state := Healthy, attempts := 0)
    case _ => AfterFail(c, p, now, e.jitter)
  }

  function EventsOf(name: string, p: Plugin, now: int, m: Move): seq<Event> {
    match m
    case Stay => []
    case Start(instance, _) => [Launched(name, instance, now)]
    case Rise => [BecameHealthy(name)]
    case Miss => [LaunchFailed(name, now)] + FailTrace(name, p, now)
    case _ => FailTrace(name, p, now)
  }

  function Rerouted(routes: Routes, name: string, p: Plugin, e: Env, m: Move): Routes {
    match m
    case Lose => Unbound(routes, name)
    case Rise => Bound(routes, name, p.endpoint, e.dialable)
    case _ => routes
  }

  /** The step, before the plugin's status is published. */
  function Stepped(c: Config, w: World, name: string, p: Plugin, now: int, e: Env): World {
    var m := Decide(c, p, now, e);
    w.(plugins := w.plugins[name := Moved(c, p, now, e, m)],
       routes := Rerouted(w.routes, name, p, e, m),
       trace := w.trace + EventsOf(name, p, now, m))
  }

  function Tracked(w: World, name: string): Plugin {
    if name in w.plugins then w.plugins[name] else FRESH
  }

  function ReconcileOne(c: Config, w: World, name: string, now: int, e: Env): World {
    Published(Stepped(c, w, name, Tracked(w, name), now, e), name)
  }

  /** A pass over the names copied at its start; `envs[i]` answers for the i-th. */
  function Pass(c: Config, w: World, names: seq<string>, now: int, envs: seq<Env>): World
    requires |envs| == |names|
  {
    if names == [] then w
    else
      var n := |names| - 1;
      ReconcileOne(c, Pass(c, w, names[..n], now, envs[..n]), names[n], now, envs[n])
  }

  function Added(w: World, name: string): World {
    if name in w.desired then w else w.(desired := w.desired + [name])
  }

  /** RemoveDesired in its parts: edit the desired set under its lock, */
  function Undesired(w: World, name: string): World {
    w.(desired := Without(w.desired, name))
  }

  /** forget the status under the reconcile mutex, */
  function Forgot(w: World, name: string): World {
    if name in w.plugins then
      Published(w.(plugins := w.plugins - {name}, trace := w.trace + [Forgotten(name)]), name)
    else w
  }

  /** and unbind and terminate outside it. */
  function Released(w: World, name: string, instance: string): World {
    w.(routes := Unbound(w.routes, name), trace := w.trace + Termination(instance))
  }

  function Removed(w: World, name: string): World {
    var u := Undesired(w, name);
    if name in u.plugins then Released(Forgot(u, name), name, u.plugins[name].instance) else u
  }

  /** What Endpoint reports from the published snapshot. */
  function PublishedEndpoint(snap: map<string, StatusView>, name: string): string {
    if name in snap && snap[name].state.Healthy? then snap[name].endpoint else ""
  }

  // ----- the object -----

  class Reconciler {
    const cfg: Config
    const rewire: GatewayRewire

    var desired: seq<string>
    var plugins: map<string, Plugin>
    var snap: map<string, StatusView>
    ghost var trace: seq<Event>

    ghost function View(): World
      reads this, rewire, rewire.gw
    {
      World(desired, plugins, snap, rewire.View(), trace)
    }

    constructor (cfg: Config, rewire: GatewayRewire, desired: seq<string>)
      requires rewire.View() == NoRoutes()
      ensures this.cfg == cfg && this.rewire == rewire && View() == NewWorld(desired)
    {
      this.cfg, this.rewire, this.desired := cfg, rewire, desired;
      plugins, snap, trace := map[], map[], [];
    }

    method AddDesired(name: string) returns (ok: bool)
      modifies this
      ensures ok <==> name !in old(desired)
      ensures desired == if name in old(desired) then old(desired) else old(desired) + [name]
      ensures View() == Added(old(View()), name)
    {
      for i := 0 to |desired|
        invariant View() == old(View())
        invariant forall j | 0 <= j < i :: desired[j] != name
      {
        if desired[i] == name {
          return false;
        }
      }
      desired := desired + [name];
      return true;
    }

    method PublishLocked(name: string)
      modifies this`snap
      ensures View() == Published(old(View()), name)
    {
      if name in plugins {
        var p := plugins[name];
        snap := snap[name := StatusView(p.state, p.attempts, p.nextRetryAt, p.endpoint)];
      } else {
        snap := snap - {name};
      }
    }

    method RemoveDesired(name: string)
      modifies this, rewire, rewire.gw
      ensures View() == Removed(old(View()), name)
    {
      var kept: seq<string> := [];
      for i := 0 to |desired|
        invariant View() == old(View())
        invariant kept == Without(desired[..i], name)
      {
        assert desired[..i+1][..i] == desired[..i];
        if desired[i] != name {
          kept := kept + [desired[i]];
        }
      }
      assert desired[..|desired|] == desired;
      desired := kept;
      if name in plugins {
        var instance := plugins[name].instance;
        plugins := plugins - {name};
        trace := trace + [Forgotten(name)];
        PublishLocked(name);
        rewire.Unbind(name);
        trace := trace + Termination(instance);
      }
    }

    method Fail(name: string, now: int, jitter: nat)
      requires name in plugins
      modifies this`plugins, this`trace
      ensures plugins == old(plugins)[name := AfterFail(cfg, old(plugins)[name], now, jitter)]
      ensures trace == old(trace) + FailTrace(name, old(plugins)[name], now)
    {
      var p := plugins[name];
      if p.instance != "" {
        trace := trace + [Terminated(p.instance)];
        p := p.(instance := "", endpoint := "");
      }
      p := p.(attempts := p.attempts + 1);
      trace := trace + [Failed(name, now, p.attempts)];
      if p.attempts >= cfg.cap {
        p := p.(state := Degraded);
      } else {
        p := p.(state := Pending, nextRetryAt := now + (Backoff.Interval(cfg.base, cfg.max, p.attempts) + jitter));
      }
      plugins := plugins[name := p];
    }

    method Launch(name: string, now: int, e: Env)
      requires name in plugins
      modifies this`plugins, this`trace
      ensures e.launch.None? ==>
        && plugins == old(plugins)[name := AfterFail(cfg, old(plugins)[name], now, e.jitter)]
        && trace == old(trace) + [LaunchFailed(name, now)] + FailTrace(name, old(plugins)[name], now)
      ensures e.launch.Some? ==>
        && plugins == old(plugins)[name := old(plugins)[name].(instance := e.launch.value.0, endpoint := e.launch.value.1, launchedAt := now)]
        && trace == old(trace) + [Launched(name, e.launch.value.0, now)]
    {
      match e.launch {
        case None =>
          trace := trace + [LaunchFailed(name, now)];
          Fail(name, now, e.jitter);
        case Some(answer) =>
          plugins := plugins[name := plugins[name].(instance := answer.0, endpoint := answer.1, launchedAt := now)];
          trace := trace + [Launched(name, answer.0, now)];
      }
    }

    method Step(name: string, now: int, e: Env)
      modifies this, rewire, rewire.gw
      ensures View() == ReconcileOne(cfg, old(View()), name, now, e)
    {
      if name !in plugins {
        plugins := plugins[name := FRESH];
      }
      var p := plugins[name];
      var health := if p.instance == "" then Unhealthy else e.health;
      match p.state {
        case Degraded =>
        case Healthy =>
          if !health.HealthyStatus? {
            rewire.Unbind(name);
            Fail(name, now, e.jitter);
          }
        case Pending =>
          if p.instance == "" {
            if p.nextRetryAt <= now {
              Launch(name, now, e);
            }
          } else {
            match health {
              case HealthyStatus =>
                plugins := plugins[name := p.(state := Healthy, attempts := 0)];
                trace := trace + [BecameHealthy(name)];
                rewire.Bind(name, p.endpoint, e.dialable);
              case Unknown =>
                if now - p.launchedAt > cfg.readiness {
                  Fail(name, now, e.jitter);
                }
              case _ =>
                Fail(name, now, e.jitter);
            }
          }
      }
      PublishLocked(name);
    }

    method Reconcile(now: int, envs: seq<Env>)
      requires |envs| == |desired|
      modifies this, rewire, rewire.gw
      ensures View() == Pass(cfg, old(View()), old(desired), now, envs)
    {
      var names := desired;
      for i := 0 to |names|
        invariant View() == Pass(cfg, old(View()), names[..i], now, envs[..i])
      {
        assert names[..i+1][..i] == names[..i] && envs[..i+1][..i] == envs[..i];
        Step(names[i], now, envs[i]);
      }
      assert names[..|names|] == names && envs[..|envs|] == envs;
    }

    method Status(name: string) returns (state: Phase, attempts: nat, nextRetryAt: int)
      ensures name in snap ==> StatusView(state, attempts, nextRetryAt, snap[name].endpoint) == snap[name]
      ensures name !in snap ==> (state, attempts, nextRetryAt) == (Pending, 0, 0)
    {
      if name !in snap {
        return Pending, 0, 0;
      }
      var v := snap[name];
      return v.state, v.attempts, v.nextRetryAt;
    }

    method Endpoint(name: string) returns (endpoint: string)
      ensures endpoint == PublishedEndpoint(snap, name)
    {
      if name in snap {
        var v := snap[name];
        if v.state.Healthy? {
          return v.endpoint;
        }
      }
      return "";
    }

    method TakeInstance(name: string) returns (id: string)
      requires name in plugins
      modifies this`plugins, this`snap
      ensures id == old(plugins)[name].instance
      ensures plugins == old(plugins)[name := old(plugins)[name].(instance := "")]
      ensures old(snap == Projections(plugins)) ==> snap == Projections(plugins)
    {
      id := plugins[name].instance;
      if id != "" {
        plugins := plugins[name := plugins[name].(instance := "")];
        PublishLocked(name);
      } else {
        assert plugins == plugins[name := plugins[name].(instance := "")];
      }
    }

    /** The locked half of Shutdown: take every live instance id, visiting the plugins in no
        particular `order`. `state` and `endpoint` stay as they are, so the snapshot still agrees. */
    method CollectInstances() returns (ids: seq<string>, ghost order: seq<string>)
      modifies this`plugins, this`snap
      ensures plugins == Stopped(old(plugins))
      ensures old(snap == Projections(plugins)) ==> snap == Projections(plugins)
      ensures Visits(order, old(plugins).Keys) && ids == InstancesAlong(old(plugins), order)
    {
      ids, order := [], [];
      var left := plugins.Keys;
      while left != {}
        invariant left <= plugins.Keys == old(plugins).Keys
        invariant Visits(order, plugins.Keys - left) && ids == InstancesAlong(old(plugins), order)
        invariant forall n | n in plugins :: plugins[n] == if n in left then old(plugins)[n] else old(plugins)[n].(instance := "")
        invariant old(snap == Projections(plugins)) ==> snap == Projections(plugins)
        decreases left
      {
        var n :| n in left;
        ghost var visited := order;
        left, order := left - {n}, order + [n];
        assert order[..|visited|] == visited;
        var id := TakeInstance(n);
        ids := if id != "" then ids + [id] else ids;
      }
    }

    method Shutdown() returns (ids: seq<string>)
      modifies this`plugins, this`snap, this`trace
      ensures plugins == Stopped(old(plugins)) && desired == old(desired)
      ensures old(snap == Projections(plugins)) ==> snap == Projections(plugins)
      ensures (set id | id in ids) == LiveInstances(old(plugins))
      ensures InstancesDistinct(old(plugins)) ==> NoRepeats(ids)
      ensures trace == old(trace) + Terminations(ids)
    {
      ghost var order;
      ids, order := CollectInstances();
      InstancesAlongAll(old(plugins), order);
      for i := 0 to |ids|
        invariant trace == old(trace) + Terminations(ids[..i])
      {
        assert ids[..i+1][..i] == ids[..i];
        trace := trace + [Terminated(ids[i])];
      }
      assert ids[..|ids|] == ids;
    }
  }

  function InstancesAlong(plugins: map<string, Plugin>, order: seq<string>): seq<string> {
    if order == [] then []
    else
      var n := order[|order|-1];
      InstancesAlong(plugins, order[..|order|-1])
        + (if n in plugins && plugins[n].instance != "" then [plugins[n].instance] else [])
  }

  lemma {:induction false} InstanceVisited(plugins: map<string, Plugin>, order: seq<string>, id: string)
    ensures id in InstancesAlong(plugins, order)
      <==> exists n :: n in order && n in plugins && plugins[n].instance == id && id != ""
  {
    if order != [] {
      var n, rest := order[|order|-1], order[..|order|-1];
      assert order == rest + [n];
      InstanceVisited(plugins, rest, id);
    }
  }

  lemma {:induction false} InstancesAlongDistinct(plugins: map<string, Plugin>, order: seq<string>)
    requires NoRepeats(order) && InstancesDistinct(plugins)
    ensures NoRepeats(InstancesAlong(plugins, order))
  {
    if order != [] {
      var n, rest := order[|order|-1], order[..|order|-1];
      InstancesAlongDistinct(plugins, rest);
      if n in plugins && plugins[n].instance != "" {
        InstanceVisited(plugins, rest, plugins[n].instance);
      }
    }
  }

  lemma InstancesAlongAll(plugins: map<string, Plugin>, order: seq<string>)
    requires Visits(order, plugins.Keys)
    ensures (set id | id in InstancesAlong(plugins, order)) == LiveInstances(plugins)
    ensures InstancesDistinct(plugins) ==> NoRepeats(InstancesAlong(plugins, order))
  {
    forall id { InstanceVisited(plugins, order, id); }
    if InstancesDistinct(plugins) {
      InstancesAlongDistinct(plugins, order);
    }
  }

  predicate InstancesDistinct(plugins: map<string, Plugin>) {
    forall m, n | m in plugins && n in plugins && m != n && plugins[m].instance != "" ::
      plugins[m].instance != plugins[n].instance
  }

  function Stopped(plugins: map<string, Plugin>): map<string, Plugin> {
    map n | n in plugins :: plugins[n].(instance := "")
  }

  function Projections(plugins: map<string, Plugin>): map<string, StatusView> {
    map n | n in plugins :: Projection(plugins[n])
  }

  function LiveInstances(plugins: map<string, Plugin>): set<string> {
    set n | n in plugins && plugins[n].instance != "" :: plugins[n].instance
  }

  function Terminations(ids: seq<string>): seq<Event> {
    if ids == [] then [] else Terminations(ids[..|ids|-1]) + [Terminated(ids[|ids|-1])]
  }
}
