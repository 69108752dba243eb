/** Crash-loop discipline and the published snapshot (core/reconciler/reconciler.go), over every
    interleaving of ReconcilerRuns. */
module ReconcilerBudget {
  import opened Options
  import opened Routing
  import opened Reconciler
  import opened ReconcilerRuns
  import Backoff

  /** The number of failures that degrades a plugin; a cap below one still allows the first. */
  function Cap(c: Config): nat {
    if c.cap <= 1 then 1 else c.cap
  }

  // ----- reading the trace -----

  predicate IsLaunch(e: Event, name: string) {
    (e.Launched? || e.LaunchFailed?) && e.name == name
  }

  function CountLaunch(before: nat, e: Event, name: string): nat {
    if IsLaunch(e, name) then before + 1
    else if e == BecameHealthy(name) then 1
    else if e == Forgotten(name) then 0
    else before
  }

  /** Launches of `name` since it was first tracked, or, once it has been Healthy, since and including
      the launch of the instance that last became Healthy. */
  function LaunchesSince(trace: seq<Event>, name: string): nat {
    if trace == [] then 0
    else CountLaunch(LaunchesSince(trace[..|trace|-1], name), trace[|trace|-1], name)
  }

  datatype Failure = Failure(at: int, attempts: nat)

  function NoteFailure(before: Option<Failure>, e: Event, name: string): Option<Failure> {
    if e.Failed? && e.name == name then Some(Failure(e.now, e.attempts))
    else if e == Forgotten(name) then None
    else before
  }

  /** The last failure of `name` since it was first tracked. */
  function LastFailure(trace: seq<Event>, name: string): Option<Failure> {
    if trace == [] then None
    else NoteFailure(LastFailure(trace[..|trace|-1], name), trace[|trace|-1], name)
  }

  predicate Waited(c: Config, before: seq<Event>, e: Event) {
    (e.Launched? || e.LaunchFailed?) ==>
      var f := LastFailure(before, e.name);
      f.Some? ==>
        && f.value.attempts >= 1
        && e.now >= f.value.at + Backoff.Interval(c.base, c.max, f.value.attempts)
  }

  /** Every relaunch in the trace waited out the backoff of the failure before it. */
  predicate WaitsKept(c: Config, trace: seq<Event>) {
    trace == [] || (WaitsKept(c, trace[..|trace|-1]) && Waited(c, trace[..|trace|-1], trace[|trace|-1]))
  }

  lemma TraceSnoc(c: Config, trace: seq<Event>, e: Event, name: string)
    ensures LaunchesSince(trace + [e], name) == CountLaunch(LaunchesSince(trace, name), e, name)
    ensures LastFailure(trace + [e], name) == NoteFailure(LastFailure(trace, name), e, name)
    ensures WaitsKept(c, trace + [e]) <==> WaitsKept(c, trace) && Waited(c, trace, e)
  {
    assert (trace + [e])[..|trace|] == trace;
  }

  // ----- the invariant -----

  ghost predicate PluginOk(c: Config, f: Fine, name: string) {
    if name !in f.w.plugins then
      LaunchesSince(f.w.trace, name) == 0 && LastFailure(f.w.trace, name) == None
    else
      var p := f.w.plugins[name];
      TrackedOk(c, f.w.trace, f.stopped, name, p)
  }

  ghost predicate TrackedOk(c: Config, trace: seq<Event>, stopped: bool, name: string, p: Plugin) {
    && (if p.state.Degraded? then p.instance == "" && p.attempts == Cap(c)
        else p.attempts < Cap(c) && Armed(c, LastFailure(trace, name), p))
    && (p.state.Healthy? ==> p.attempts == 0)
    && (!stopped ==>
          && LaunchesSince(trace, name) == p.attempts + (if p.instance != "" then 1 else 0)
          && (p.state.Healthy? ==> p.instance != ""))
  }

  predicate Armed(c: Config, last: Option<Failure>, p: Plugin) {
    last.Some? ==>
      && last.value.attempts >= 1
      && p.nextRetryAt >= last.value.at + Backoff.Interval(c.base, c.max, last.value.attempts)
  }

  /** Events of other plugins, and terminations, change nothing for this one. */
  lemma TerminationIsSilent(c: Config, trace: seq<Event>, instance: string, name: string)
    requires WaitsKept(c, trace)
    ensures LaunchesSince(trace + Termination(instance), name) == LaunchesSince(trace, name)
    ensures LastFailure(trace + Termination(instance), name) == LastFailure(trace, name)
    ensures WaitsKept(c, trace + Termination(instance))
  {
    if instance == "" {
      assert trace + Termination(instance) == trace;
    } else {
      TraceSnoc(c, trace, Terminated(instance), name);
    }
  }

  lemma FailTraceReads(c: Config, trace: seq<Event>, name: string, p: Plugin, now: int, other: string)
    requires WaitsKept(c, trace)
    ensures var t := trace + FailTrace(name, p, now);
      && WaitsKept(c, t)
      && LaunchesSince(t, other) == LaunchesSince(trace, other)
      && LastFailure(t, other) == if other == name then Some(Failure(now, p.attempts + 1)) else LastFailure(trace, other)
  {
    TerminationIsSilent(c, trace, p.instance, other);
    TraceSnoc(c, trace + Termination(p.instance), Failed(name, now, p.attempts + 1), other);
    assert trace + FailTrace(name, p, now) == trace + Termination(p.instance) + [Failed(name, now, p.attempts + 1)];
  }

  lemma FailIsOk(c: Config, trace: seq<Event>, stopped: bool, name: string, p: Plugin, now: int, jitter: nat)
    requires p.attempts < Cap(c) && LastFailure(trace, name) == Some(Failure(now, p.attempts + 1))
    requires !stopped ==> LaunchesSince(trace, name) == p.attempts + 1
    ensures TrackedOk(c, trace, stopped, name, AfterFail(c, p, now, jitter))
  {
  }

  /** The trace has grown by events that are all about `name`. */
  ghost predicate OnlyAbout(c: Config, trace: seq<Event>, trace': seq<Event>, name: string) {
    && WaitsKept(c, trace')
    && forall n | n != name :: LaunchesSince(trace', n) == LaunchesSince(trace, n) && LastFailure(trace', n) == LastFailure(trace, n)
  }

  lemma OneAbout(c: Config, trace: seq<Event>, e: Event, name: string)
    requires WaitsKept(c, trace) && Waited(c, trace, e)
    requires e.Launched? || e.LaunchFailed? || e.BecameHealthy? || e.Forgotten?
    requires e.name == name
    ensures OnlyAbout(c, trace, trace + [e], name)
    ensures LaunchesSince(trace + [e], name) == CountLaunch(LaunchesSince(trace, name), e, name)
    ensures LastFailure(trace + [e], name) == NoteFailure(LastFailure(trace, name), e, name)
  {
    forall n { TraceSnoc(c, trace, e, n); }
    TraceSnoc(c, trace, e, name);
  }

  lemma FailAbout(c: Config, trace: seq<Event>, name: string, p: Plugin, now: int)
    requires WaitsKept(c, trace)
    ensures OnlyAbout(c, trace, trace + FailTrace(name, p, now), name)
    ensures LaunchesSince(trace + FailTrace(name, p, now), name) == LaunchesSince(trace, name)
    ensures LastFailure(trace + FailTrace(name, p, now), name) == Some(Failure(now, p.attempts + 1))
  {
    forall n { FailTraceReads(c, trace, name, p, now, n); }
    FailTraceReads(c, trace, name, p, now, name);
  }

  /** A launch, failed or not, comes after the wait: the guard compared with `nextRetryAt`. */
  lemma LaunchWaited(c: Config, trace: seq<Event>, name: string, p: Plugin, now: int, e: Event)
    requires Armed(c, LastFailure(trace, name), p) && p.nextRetryAt <= now
    requires e == LaunchFailed(name, now) || (e.Launched? && e.name == name && e.now == now)
    ensures Waited(c, trace, e)
  {
  }

  lemma StillArmed(c: Config, last: Option<Failure>, p: Plugin, q: Plugin)
    requires Armed(c, last, p) && q.nextRetryAt == p.nextRetryAt
    ensures Armed(c, last, q)
  {
  }

  lemma StartReads(c: Config, trace: seq<Event>, stopped: bool, name: string, p: Plugin, now: int, instance: string, endpoint: string)
    requires WaitsKept(c, trace) && TrackedOk(c, trace, stopped, name, p)
    requires p.state.Pending? && p.instance == "" && p.nextRetryAt <= now && instance != ""
    ensures var t := trace + [Launched(name, instance, now)];
      && OnlyAbout(c, trace, t, name)
      && TrackedOk(c, t, stopped, name, p.(instance := instance, endpoint := endpoint, launchedAt := now))
  {
    var e, q := Launched(name, instance, now), p.(instance := instance, endpoint := endpoint, launchedAt := now);
    LaunchWaited(c, trace, name, p, now, e);
    OneAbout(c, trace, e, name);
    StillArmed(c, LastFailure(trace, name), p, q);
  }

  lemma RiseReads(c: Config, trace: seq<Event>, stopped: bool, name: string, p: Plugin)
    requires WaitsKept(c, trace) && TrackedOk(c, trace, stopped, name, p)
    requires p.state.Pending? && p.instance != ""
    ensures var t := trace + [BecameHealthy(name)];
      && OnlyAbout(c, trace, t, name)
      && TrackedOk(c, t, stopped, name, p.(state := Healthy, attempts := 0))
  {
    OneAbout(c, trace, BecameHealthy(name), name);
    StillArmed(c, LastFailure(trace, name), p, p.(state := Healthy, attempts := 0));
  }

  lemma MissReads(c: Config, trace: seq<Event>, stopped: bool, name: string, p: Plugin, now: int, jitter: nat)
    requires WaitsKept(c, trace) && TrackedOk(c, trace, stopped, name, p)
    requires p.state.Pending? && p.instance == "" && p.nextRetryAt <= now
    ensures var t := trace + ([LaunchFailed(name, now)] + FailTrace(name, p, now));
      && OnlyAbout(c, trace, t, name)
      && TrackedOk(c, t, stopped, name, AfterFail(c, p, now, jitter))
  {
    var tried := trace + [LaunchFailed(name, now)];
    LaunchWaited(c, trace, name, p, now, LaunchFailed(name, now));
    OneAbout(c, trace, LaunchFailed(name, now), name);
    FailAbout(c, tried, name, p, now);
    assert trace + ([LaunchFailed(name, now)] + FailTrace(name, p, now)) == tried + FailTrace(name, p, now);
    FailIsOk(c, tried + FailTrace(name, p, now), stopped, name, p, now, jitter);
  }

  lemma FallReads(c: Config, trace: seq<Event>, stopped: bool, name: string, p: Plugin, now: int, jitter: nat)
    requires WaitsKept(c, trace) && TrackedOk(c, trace, stopped, name, p)
    requires p.state.Healthy? || (p.state.Pending? && p.instance != "")
    ensures var t := trace + FailTrace(name, p, now);
      && OnlyAbout(c, trace, t, name)
      && TrackedOk(c, t, stopped, name, AfterFail(c, p, now, jitter))
  {
    FailAbout(c, trace, name, p, now);
    FailIsOk(c, trace + FailTrace(name, p, now), stopped, name, p, now, jitter);
  }

  /** One step of one plugin, as the traces of all plugins see it. */
  lemma MoveReads(c: Config, trace: seq<Event>, stopped: bool, name: string, p: Plugin, now: int, e: Env)
    requires WaitsKept(c, trace) && TrackedOk(c, trace, stopped, name, p)
    requires e.launch.Some? ==> e.launch.value.0 != ""
    ensures var m := Decide(c, p, now, e);
      var t := trace + EventsOf(name, p, now, m);
      OnlyAbout(c, trace, t, name) && TrackedOk(c, t, stopped, name, Moved(c, p, now, e, m))
  {
    match Decide(c, p, now, e)
    case Stay => assert trace + [] == trace;
    case Start(instance, endpoint) => StartReads(c, trace, stopped, name, p, now, instance, endpoint);
    case Rise => RiseReads(c, trace, stopped, name, p);
    case Miss => MissReads(c, trace, stopped, name, p, now, e.jitter);
    case _ => FallReads(c, trace, stopped, name, p, now, e.jitter);
  }

  ghost predicate BudgetInv(c: Config, f: Fine) {
    WaitsKept(c, f.w.trace) && forall n :: PluginOk(c, f, n)
  }

  lemma PassStepBudget(c: Config, f: Fine, now: int, e: Env)
    requires BudgetInv(c, f)
    ensures BudgetInv(c, Next(c, f, PassStep(now, e)))
  {
    var f' := Next(c, f, PassStep(now, e));
    if AboutToStep(f, e) {
      var name := f.pass.names[0];
      assert PluginOk(c, f, name);
      MoveReads(c, f.w.trace, f.stopped, name, Tracked(f.w, name), now, e);
      forall n ensures PluginOk(c, f', n) {
        assert PluginOk(c, f, n);
      }
    }
  }

  lemma ForgetBudget(c: Config, f: Fine, call: nat)
    requires BudgetInv(c, f)
    ensures BudgetInv(c, Next(c, f, RemoveForget(call)))
  {
    var f' := Next(c, f, RemoveForget(call));
    forall n ensures PluginOk(c, f', n) {
      assert PluginOk(c, f, n);
      if f'.w != f.w {
        OneAbout(c, f.w.trace, Forgotten(f.removals[call].name), f.removals[call].name);
      }
    }
    if f'.w != f.w {
      OneAbout(c, f.w.trace, Forgotten(f.removals[call].name), f.removals[call].name);
    }
  }

  /** Terminating an instance changes no plugin's record. */
  lemma TerminationBudget(c: Config, f: Fine, f': Fine, instance: string)
    requires BudgetInv(c, f)
    requires f'.w.plugins == f.w.plugins && f'.stopped == f.stopped && f'.w.trace == f.w.trace + Termination(instance)
    ensures BudgetInv(c, f')
  {
    forall n ensures PluginOk(c, f', n) {
      assert PluginOk(c, f, n);
      TerminationIsSilent(c, f.w.trace, instance, n);
    }
    TerminationIsSilent(c, f.w.trace, instance, "");
  }

  /** A step that leaves plugins and trace alone, or only takes the instances away for good. */
  lemma QuietBudget(c: Config, f: Fine, f': Fine)
    requires BudgetInv(c, f) && f'.w.trace == f.w.trace
    requires (f'.w.plugins == f.w.plugins && f'.stopped == f.stopped) || (f'.w.plugins == Stopped(f.w.plugins) && f'.stopped)
    ensures BudgetInv(c, f')
  {
    forall n ensures PluginOk(c, f', n) {
      assert PluginOk(c, f, n);
    }
  }

  lemma NextBudget(c: Config, f: Fine, a: Action)
    requires BudgetInv(c, f)
    ensures BudgetInv(c, Next(c, f, a))
  {
    var f' := Next(c, f, a);
    match a
    case PassStep(now, e) => PassStepBudget(c, f, now, e);
    case RemoveForget(call) => ForgetBudget(c, f, call);
    case RemoveFinish(call) =>
      if AboutToFinish(f, call) {
        TerminationBudget(c, f, f', f.removals[call].taken.value);
      }
    case ShutdownTerminate(id) =>
      if id in f.dying {
        TerminatedIsTermination(c, f, f', id);
      }
    case _ => QuietBudget(c, f, f');
  }

  lemma TerminatedIsTermination(c: Config, f: Fine, f': Fine, id: string)
    requires BudgetInv(c, f)
    requires f'.w.plugins == f.w.plugins && f'.stopped == f.stopped && f'.w.trace == f.w.trace + [Terminated(id)]
    ensures BudgetInv(c, f')
  {
    forall n ensures PluginOk(c, f', n) {
      assert PluginOk(c, f, n);
      TraceSnoc(c, f.w.trace, Terminated(id), n);
    }
    TraceSnoc(c, f.w.trace, Terminated(id), "");
  }

  lemma {:induction false} ExecBudget(c: Config, desired: seq<string>, acts: seq<Action>)
    ensures BudgetInv(c, Exec(c, Init(desired), acts))
  {
    if acts != [] {
      ExecBudget(c, desired, acts[..|acts|-1]);
      NextBudget(c, Exec(c, Init(desired), acts[..|acts|-1]), acts[|acts|-1]);
    }
  }

  // ----- the results -----

  /** Budget: before Shutdown, the launches spent on a tracked plugin are its failures plus the live
      instance, never above the cap; only a Degraded plugin has used the cap up. */
  lemma LaunchBudget(c: Config, desired: seq<string>, acts: seq<Action>, name: string)
    requires !Exec(c, Init(desired), acts).stopped
    ensures var f := Exec(c, Init(desired), acts);
      && LaunchesSince(f.w.trace, name) <= Cap(c)
      && (name in f.w.plugins ==>
            var p := f.w.plugins[name];
            && LaunchesSince(f.w.trace, name) == p.attempts + (if p.instance != "" then 1 else 0)
            && (p.state.Degraded? <==> p.attempts == Cap(c)))
  {
    ExecBudget(c, desired, acts);
    assert PluginOk(c, Exec(c, Init(desired), acts), name);
  }

  /** In every run every relaunch, failed or not, comes no earlier than the failure before it plus the
      backoff of that failure's attempt count; jitter only adds to the wait. */
  lemma RelaunchesWait(c: Config, desired: seq<string>, acts: seq<Action>)
    ensures WaitsKept(c, Exec(c, Init(desired), acts).w.trace)
  {
    ExecBudget(c, desired, acts);
  }

  /** Degraded is left only by a removal: every other step leaves the plugin exactly as it is. */
  lemma DegradedStays(c: Config, desired: seq<string>, acts: seq<Action>, a: Action, name: string)
    requires var f := Exec(c, Init(desired), acts);
      && name in f.w.plugins && f.w.plugins[name].state.Degraded?
      && !(a.RemoveForget? && a.call in f.removals && f.removals[a.call].name == name)
    ensures var f, f' := Exec(c, Init(desired), acts), Next(c, Exec(c, Init(desired), acts), a);
      name in f'.w.plugins && f'.w.plugins[name] == f.w.plugins[name]
  {
    ExecBudget(c, desired, acts);
    assert PluginOk(c, Exec(c, Init(desired), acts), name);
  }

  lemma NextSnapshot(c: Config, f: Fine, a: Action)
    requires f.w.snap == Projections(f.w.plugins)
    ensures Next(c, f, a).w.snap == Projections(Next(c, f, a).w.plugins)
  {
  }

  /** The published snapshot says of each tracked plugin what the table does, and of no other, in every state,
      Shutdown included. */
  lemma {:induction false} SnapshotAgrees(c: Config, desired: seq<string>, acts: seq<Action>)
    ensures var w := Exec(c, Init(desired), acts).w;
      && w.snap == Projections(w.plugins) && w.snap.Keys == w.plugins.Keys
      && forall n | n in w.plugins :: var p, v := w.plugins[n], w.snap[n];
           v.state == p.state && v.attempts == p.attempts && v.nextRetryAt == p.nextRetryAt && v.endpoint == p.endpoint
  {
    if acts != [] {
      SnapshotAgrees(c, desired, acts[..|acts|-1]);
      NextSnapshot(c, Exec(c, Init(desired), acts[..|acts|-1]), acts[|acts|-1]);
    }
  }
}
