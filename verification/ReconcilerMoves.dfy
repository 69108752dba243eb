/** What a pass of the reconciler does for a plugin, told from what the runtime answered: which plugins are
    Healthy after it, what becomes of one that is lost or never starts, when one is launched, and that a
    plane whose runtime answers well converges (core/reconciler/reconciler.go). */
module ReconcilerMoves {
  import opened Options
  import opened Routing
  import opened Reconciler
  import Backoff

  // ----- one step -----

  /** The plugin has an instance and the runtime answers Healthy for it. */
  predicate AnsweredHealthy(p: Plugin, e: Env) {
    p.instance != "" && e.health == HealthyStatus
  }

  /** From p to q one failure was counted: what ran is gone, and the plugin is Degraded if its failures have
      reached the cap, or else Pending until the backoff of this failure, with its jitter, has passed. */
  predicate FailedOnce(c: Config, p: Plugin, q: Plugin, now: int, e: Env) {
    && q.attempts == p.attempts + 1 && q.instance == "" && q.launchedAt == p.launchedAt
    && (p.instance != "" ==> q.endpoint == "") && (p.instance == "" ==> q.endpoint == p.endpoint)
    && (if q.attempts >= c.cap then q.state == Degraded && q.nextRetryAt == p.nextRetryAt
        else q.state == Pending && q.nextRetryAt == now + Backoff.Interval(c.base, c.max, q.attempts) + e.jitter)
  }

  /** The runtime was told to terminate what ran, once, and the failure was noted. */
  function FailureEvents(name: string, p: Plugin, now: int): seq<Event> {
    (if p.instance == "" then [] else [Terminated(p.instance)]) + [Failed(name, now, p.attempts + 1)]
  }

  /** The step touches no other plugin and no other binding, and publishes what it leaves. */
  ghost predicate OnlyThis(w: World, w': World, name: string) {
    && w'.desired == w.desired
    && name in w'.plugins && w'.plugins - {name} == w.plugins - {name}
    && w'.snap == w.snap[name := StatusView(w'.plugins[name].state, w'.plugins[name].attempts,
                                            w'.plugins[name].nextRetryAt, w'.plugins[name].endpoint)]
    && w'.routes.providers - {name} == w.routes.providers - {name} && w'.routes.conns - {name} == w.routes.conns - {name}
  }

  lemma StepIsLocal(c: Config, w: World, name: string, now: int, e: Env)
    ensures OnlyThis(w, ReconcileOne(c, w, name, now, e), name)
  {
  }

  /** After its step a plugin is Healthy exactly when it had an instance, the runtime answered Healthy for
      it, and it was not Degraded. */
  lemma HealthyIff(c: Config, w: World, name: string, now: int, e: Env)
    ensures var p, w' := Tracked(w, name), ReconcileOne(c, w, name, now, e);
      name in w'.plugins && (w'.plugins[name].state.Healthy? <==> p.state != Degraded && AnsweredHealthy(p, e))
  {
  }

  /** A Healthy plugin that is answered Healthy is left alone; any other is unrouted, its instance
      terminated once and one failure counted. */
  lemma LostIsTornDown(c: Config, w: World, name: string, now: int, e: Env)
    requires Tracked(w, name).state == Healthy
    ensures var p, w' := Tracked(w, name), ReconcileOne(c, w, name, now, e);
      if AnsweredHealthy(p, e) then w'.plugins[name] == p && w'.routes == w.routes && w'.trace == w.trace
      else
        && name !in w'.routes.providers && name !in w'.routes.conns
        && FailedOnce(c, p, w'.plugins[name], now, e)
        && w'.trace == w.trace + FailureEvents(name, p, now)
  {
  }

  /** A plugin that is starting rises at its first Healthy answer, with its failures forgotten and its
      endpoint routed; on Unknown it waits for as long as the readiness timeout, and is failed exactly when
      that has passed; any other answer fails it. No route changes otherwise. */
  lemma StartingIff(c: Config, w: World, name: string, now: int, e: Env)
    requires Tracked(w, name).state == Pending && Tracked(w, name).instance != ""
    ensures var p, w' := Tracked(w, name), ReconcileOne(c, w, name, now, e);
      var q, late := w'.plugins[name], now - p.launchedAt > c.readiness;
      match e.health
      case HealthyStatus =>
        && q == p.(state := Healthy, attempts := 0) && w'.trace == w.trace + [BecameHealthy(name)]
        && (e.dialable ==>
              name in w'.routes.providers && w'.routes.providers[name].endpoint == p.endpoint
              && name in w'.routes.conns && w'.routes.conns[name] == w'.routes.providers[name])
        && (!e.dialable ==> w'.routes == w.routes)
      case Unknown =>
        && w'.routes == w.routes
        && (if late then FailedOnce(c, p, q, now, e) && w'.trace == w.trace + FailureEvents(name, p, now)
            else q == p && w'.trace == w.trace)
      case _ =>
        w'.routes == w.routes && FailedOnce(c, p, q, now, e) && w'.trace == w.trace + FailureEvents(name, p, now)
  {
  }

  /** A Pending plugin with nothing running is launched exactly when its retry time has come: then the
      runtime's answer is recorded, or the refused launch counted as a failure; until then it is left
      alone. */
  lemma LaunchedIffDue(c: Config, w: World, name: string, now: int, e: Env)
    requires Tracked(w, name).state == Pending && Tracked(w, name).instance == ""
    ensures var p, w' := Tracked(w, name), ReconcileOne(c, w, name, now, e);
      var q := w'.plugins[name];
      && w'.routes == w.routes
      && (now < p.nextRetryAt ==> q == p && w'.trace == w.trace)
      && (p.nextRetryAt <= now && e.launch.Some? ==>
            && q == p.(instance := e.launch.value.0, endpoint := e.launch.value.1, launchedAt := now)
            && w'.trace == w.trace + [Launched(name, e.launch.value.0, now)])
      && (p.nextRetryAt <= now && e.launch.None? ==>
            FailedOnce(c, p, q, now, e) && w'.trace == w.trace + [LaunchFailed(name, now), Failed(name, now, p.attempts + 1)])
  {
  }

  /** A Degraded plugin is left alone, whatever the runtime would say. */
  lemma DegradedIsLeft(c: Config, w: World, name: string, now: int, e: Env)
    requires Tracked(w, name).state == Degraded
    ensures var p, w' := Tracked(w, name), ReconcileOne(c, w, name, now, e);
      w'.plugins[name] == p && w'.routes == w.routes && w'.trace == w.trace
  {
  }

  // ----- a whole pass -----

  /** What a pass knows of a plugin before it: the plugin itself, its status and its bindings. */
  ghost predicate SameAt(w: World, w': World, name: string) {
    && Tracked(w', name) == Tracked(w, name) && (name in w.plugins ==> name in w'.plugins)
    && Lookup(w'.routes.providers, name) == Lookup(w.routes.providers, name)
    && Lookup(w'.routes.conns, name) == Lookup(w.routes.conns, name)
    && (name in w.snap <==> name in w'.snap) && (name in w.snap ==> w'.snap[name] == w.snap[name])
  }

  lemma StepSparesOthers(c: Config, w: World, name: string, now: int, e: Env, other: string)
    requires other != name
    ensures SameAt(w, ReconcileOne(c, w, name, now, e), other) && w.trace <= ReconcileOne(c, w, name, now, e).trace
  {
    var w' := ReconcileOne(c, w, name, now, e);
    StepIsLocal(c, w, name, now, e);
    assert other in w.plugins ==> (w'.plugins - {name})[other] == (w.plugins - {name})[other];
    assert other in w'.plugins ==> other in w'.plugins - {name};
    assert other in w.routes.providers ==> (w'.routes.providers - {name})[other] == (w.routes.providers - {name})[other];
    assert other in w'.routes.providers ==> other in w'.routes.providers - {name};
    assert other in w.routes.conns ==> (w'.routes.conns - {name})[other] == (w.routes.conns - {name})[other];
    assert other in w'.routes.conns ==> other in w'.routes.conns - {name};
  }

  /** From a to b nothing happened to the plugin, and the trace only grew. */
  ghost predicate Spares(a: World, b: World, other: string) {
    SameAt(a, b, other) && a.trace <= b.trace
  }

  lemma StillSpared(c: Config, a: World, b: World, name: string, now: int, e: Env, other: string)
    requires other != name && Spares(a, b, other)
    ensures Spares(a, ReconcileOne(c, b, name, now, e), other)
  {
    StepSparesOthers(c, b, name, now, e, other);
  }

  /** A pass spares a plugin it does not name. */
  lemma {:induction false} RestSpares(c: Config, a: World, w: World, names: seq<string>, now: int, envs: seq<Env>, k: nat, other: string)
    requires |envs| == |names| && k <= |names| && other !in names[k..] && Spares(a, Pass(c, w, names[..k], now, envs[..k]), other)
    ensures Spares(a, Pass(c, w, names, now, envs), other)
    decreases |names| - k
  {
    if k == |names| {
      assert names[..k] == names && envs[..k] == envs;
    } else {
      assert names[k] == names[k..][0] && names[k+1..] == names[k..][1..];
      StillSpared(c, a, Pass(c, w, names[..k], now, envs[..k]), names[k], now, envs[k], other);
      PassSnoc(c, w, names, now, envs, k);
      RestSpares(c, a, w, names, now, envs, k + 1, other);
    }
  }

  lemma PassSnoc(c: Config, w: World, names: seq<string>, now: int, envs: seq<Env>, i: nat)
    requires |envs| == |names| && i < |names|
    ensures Pass(c, w, names[..i+1], now, envs[..i+1])
      == ReconcileOne(c, Pass(c, w, names[..i], now, envs[..i]), names[i], now, envs[i])
  {
    assert names[..i+1][..i] == names[..i] && envs[..i+1][..i] == envs[..i];
  }

  /** After a pass a plugin is as its last turn left it, and before its first turn as the pass found it. */
  lemma PassIsStep(c: Config, w: World, names: seq<string>, now: int, envs: seq<Env>, i: nat)
    requires |envs| == |names| && i < |names| && names[i] !in names[i+1..]
    ensures var before, after := Pass(c, w, names[..i], now, envs[..i]), Pass(c, w, names, now, envs);
      && (names[i] !in names[..i] ==> SameAt(w, before, names[i]))
      && SameAt(ReconcileOne(c, before, names[i], now, envs[i]), after, names[i])
      && ReconcileOne(c, before, names[i], now, envs[i]).trace <= after.trace
  {
    if names[i] !in names[..i] {
      RestSpares(c, w, w, names[..i], now, envs[..i], 0, names[i]);
    }
    PassSnoc(c, w, names, now, envs, i);
    RestSpares(c, Pass(c, w, names[..i+1], now, envs[..i+1]), w, names, now, envs, i + 1, names[i]);
  }

  /** The plugin as it is before the pass comes to position i. */
  function BeforeTurn(c: Config, w: World, names: seq<string>, now: int, envs: seq<Env>, i: nat): Plugin
    requires |envs| == |names| && i < |names|
  {
    Tracked(Pass(c, w, names[..i], now, envs[..i]), names[i])
  }

  /** After a pass each of its plugins is Healthy exactly when it had an instance before its turn, the runtime
      answered Healthy for that, and it was not Degraded; and before its turn it is as the pass found it,
      unless the pass names it twice, when the last turn counts. */
  lemma HealthyAfterPassIff(c: Config, w: World, names: seq<string>, now: int, envs: seq<Env>, i: nat)
    requires |envs| == |names| && i < |names| && names[i] !in names[i+1..]
    ensures var p, w' := BeforeTurn(c, w, names, now, envs, i), Pass(c, w, names, now, envs);
      && names[i] in w'.plugins
      && (w'.plugins[names[i]].state.Healthy? <==> p.state != Degraded && AnsweredHealthy(p, envs[i]))
      && (names[i] !in names[..i] ==> p == Tracked(w, names[i]))
  {
    PassIsStep(c, w, names, now, envs, i);
    HealthyIff(c, Pass(c, w, names[..i], now, envs[..i]), names[i], now, envs[i]);
  }

  /** And one that was Healthy and is not answered Healthy ends unrouted, its instance terminated and one
      failure counted, in its turn. */
  lemma LostAfterPass(c: Config, w: World, names: seq<string>, now: int, envs: seq<Env>, i: nat)
    requires |envs| == |names| && i < |names| && names[i] !in names[i+1..]
    requires var p := BeforeTurn(c, w, names, now, envs, i); p.state == Healthy && !AnsweredHealthy(p, envs[i])
    ensures var p, w' := BeforeTurn(c, w, names, now, envs, i), Pass(c, w, names, now, envs);
      && names[i] in w'.plugins && FailedOnce(c, p, w'.plugins[names[i]], now, envs[i])
      && names[i] !in w'.routes.providers && names[i] !in w'.routes.conns
      && Pass(c, w, names[..i], now, envs[..i]).trace + FailureEvents(names[i], p, now) <= w'.trace
      && (names[i] !in names[..i] ==> p == Tracked(w, names[i]))
  {
    PassIsStep(c, w, names, now, envs, i);
    LostIsTornDown(c, Pass(c, w, names[..i], now, envs[..i]), names[i], now, envs[i]);
  }

  // ----- convergence -----

  /** The plugin has nothing running and may be launched now. */
  predicate Due(p: Plugin, now: int) {
    p.state == Pending && p.instance == "" && p.nextRetryAt <= now
  }

  /** The pass names the plugin here and nowhere else. */
  predicate NamedOnce(names: seq<string>, i: nat) {
    i < |names| && names[i] !in names[..i] && names[i] !in names[i+1..]
  }

  predicate Launches(e: Env) {
    e.launch.Some? && e.launch.value.0 != ""
  }

  /** A plane whose plugins are all due converges in two passes, if the runtime launches every one in the
      first and answers Healthy for every one in the second: each is then Healthy with no failure counted,
      and routed to the endpoint it was launched at. */
  lemma ConvergesInTwoPasses(c: Config, w: World, names: seq<string>, t1: int, first: seq<Env>, t2: int, second: seq<Env>, i: nat)
    requires |first| == |second| == |names| && NamedOnce(names, i)
    requires Due(Tracked(w, names[i]), t1) && Launches(first[i])
    requires second[i].health == HealthyStatus && second[i].dialable
    ensures var w' := Pass(c, Pass(c, w, names, t1, first), names, t2, second);
      && names[i] in w'.plugins && w'.plugins[names[i]].state == Healthy && w'.plugins[names[i]].attempts == 0
      && w'.plugins[names[i]].instance == first[i].launch.value.0
      && names[i] in w'.routes.providers && w'.routes.providers[names[i]].endpoint == first[i].launch.value.1
  {
    var w1 := Pass(c, w, names, t1, first);
    PassIsStep(c, w, names, t1, first, i);
    LaunchedIffDue(c, Pass(c, w, names[..i], t1, first[..i]), names[i], t1, first[i]);
    PassIsStep(c, w1, names, t2, second, i);
    StartingIff(c, Pass(c, w1, names[..i], t2, second[..i]), names[i], t2, second[i]);
  }
}
