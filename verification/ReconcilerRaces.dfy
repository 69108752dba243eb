/** Runs in which overlapping calls leave the reconciler and its routes out of step: one for each of the
    conditions of ReconcilerRouting. Each ends quiet, with nothing in flight that could repair it. */
module ReconcilerRaces {
  import opened Lists
  import opened Options
  import opened Routing
  import opened Reconciler
  import opened ReconcilerRuns
  import opened ReconcilerCalls
  import opened ReconcilerRouting

  const CONFIG := Config(1, 8, 3, 10)
  const CALM := Env(None, HealthyStatus, 0, true)

  function Addr(id: string): string {
    "addr-" + id
  }

  function Launching(id: string): Env {
    Env(Some((id, Addr(id))), HealthyStatus, 0, true)
  }

  function HealthyAt(id: string): Plugin {
    Plugin(Healthy, id, Addr(id), 0, 0, 0)
  }

  /** Two whole passes: launch, then become Healthy. */
  function Converge(id: string): seq<Action> {
    CallActions(ReconcileCall(0, [Launching(id)])) + CallActions(ReconcileCall(1, [CALM]))
  }

  lemma LaunchRound(w: World, id: string)
    requires "p" !in w.plugins && id != ""
    ensures var w' := ReconcileOne(CONFIG, w, "p", 0, Launching(id));
      && "p" in w'.plugins && w'.plugins["p"] == HealthyAt(id).(state := Pending)
      && w'.routes == w.routes && w'.desired == w.desired && Issued(w'.trace) == Issued(w.trace) + {id}
  {
    assert Decide(CONFIG, FRESH, 0, Launching(id)) == Start(id, Addr(id));
    TraceConcat(w.trace, [Launched("p", id, 0)], id);
    TraceOne(Launched("p", id, 0), id);
  }

  lemma RiseRound(w: World, id: string)
    requires "p" in w.plugins && w.plugins["p"] == HealthyAt(id).(state := Pending) && id != ""
    ensures var w' := ReconcileOne(CONFIG, w, "p", 1, CALM);
      && "p" in w'.plugins && w'.plugins["p"] == HealthyAt(id)
      && w'.routes == Bound(w.routes, "p", Addr(id), true) && w'.desired == w.desired
      && Issued(w'.trace) == Issued(w.trace)
  {
    assert Decide(CONFIG, w.plugins["p"], 1, CALM) == Rise;
    TraceConcat(w.trace, [BecameHealthy("p")], id);
    TraceOne(BecameHealthy("p"), id);
  }

  lemma OnePass(f: Fine, now: int, e: Env)
    requires f.pass.NoPass? && ByPass !in f.wires && f.w.desired == ["p"] && FreshLaunch(f.w.trace, e)
    ensures Exec(CONFIG, f, CallActions(ReconcileCall(now, [e]))) == f.(w := ReconcileOne(CONFIG, f.w, "p", now, e))
  {
    var names, envs := ["p"], [e];
    assert names[..0] == [] && envs[..0] == [];
    assert Pass(CONFIG, f.w, names[..0], now, envs[..0]) == f.w;
    ReconcileIsARun(CONFIG, f, now, envs);
  }

  /** From a state that desires only "p" and does not track it, whatever removals hang in it. */
  lemma ConvergeRun(f: Fine, id: string)
    requires f.pass.NoPass? && ByPass !in f.wires && f.w.desired == ["p"] && "p" !in f.w.plugins
    requires id != "" && id !in Issued(f.w.trace)
    ensures var f' := Exec(CONFIG, f, Converge(id));
      && "p" in f'.w.plugins && f'.w.plugins["p"] == HealthyAt(id)
      && f' == f.(w := f'.w) && f'.w.desired == ["p"]
      && Issued(f'.w.trace) == Issued(f.w.trace) + {id}
      && f'.w.routes == Bound(f.w.routes, "p", Addr(id), true)
  {
    var first, second := CallActions(ReconcileCall(0, [Launching(id)])), CallActions(ReconcileCall(1, [CALM]));
    ExecSplit(CONFIG, f, first, second);
    OnePass(f, 0, Launching(id));
    LaunchRound(f.w, id);
    var g := Exec(CONFIG, f, first);
    OnePass(g, 1, CALM);
    RiseRound(g.w, id);
  }

  /** A removal of "p" that stops before its Unbind, after which "p" is added again. */
  const REMOVE_AND_ADD := [RemoveBegin(0, "p"), RemoveForget(0)] + [Add("p")]

  lemma BeginStep(f: Fine)
    requires f.removals == map[] && f.w.desired == ["p"]
    ensures Next(CONFIG, f, RemoveBegin(0, "p"))
      == f.(w := Undesired(f.w, "p"), removals := map[0 := Removal("p", None, false)])
    ensures Undesired(f.w, "p").desired == []
  {
    assert ["p"][..0] == [];
  }

  lemma ForgetRun(f: Fine, id: string)
    requires f.removals == map[] && f.pass.NoPass? && f.w.desired == ["p"]
    requires "p" in f.w.plugins && f.w.plugins["p"] == HealthyAt(id)
    ensures var f' := Exec(CONFIG, f, [RemoveBegin(0, "p"), RemoveForget(0)]);
      && f' == f.(w := Forgot(Undesired(f.w, "p"), "p"), removals := map[0 := Removal("p", Some(id), false)])
      && f'.w.desired == []
  {
    ExecTwo(CONFIG, f, RemoveBegin(0, "p"), RemoveForget(0));
    BeginStep(f);
    var f1 := Next(CONFIG, f, RemoveBegin(0, "p"));
    assert f1.removals[0 := Removal("p", Some(id), false)] == map[0 := Removal("p", Some(id), false)];
  }

  lemma ReaddRun(f: Fine, id: string)
    requires f.removals == map[] && f.pass.NoPass? && f.w.desired == ["p"]
    requires "p" in f.w.plugins && f.w.plugins["p"] == HealthyAt(id)
    ensures var f' := Exec(CONFIG, f, REMOVE_AND_ADD);
      && f' == f.(w := f'.w, removals := map[0 := Removal("p", Some(id), false)])
      && f'.w.desired == ["p"] && "p" !in f'.w.plugins && f'.w.routes == f.w.routes
      && Issued(f'.w.trace) == Issued(f.w.trace)
  {
    ForgetRun(f, id);
    ExecOne(CONFIG, f, [RemoveBegin(0, "p"), RemoveForget(0)], Add("p"));
    assert [] + ["p"] == ["p"];
    TraceConcat(f.w.trace, [Forgotten("p")], "p");
    TraceOne(Forgotten("p"), "p");
  }

  /** "p" Healthy as "i1", then removed up to its Unbind, and added again. */
  lemma FirstLife() returns (acts: seq<Action>)
    ensures var f := Exec(CONFIG, Init(["p"]), acts);
      && f == Fine(f.w, map[0 := Removal("p", Some("i1"), false)], {}, NoPass, map[], false)
      && f.w.desired == ["p"] && "p" !in f.w.plugins && Issued(f.w.trace) == {"i1"}
      && f.w.routes == Bound(NoRoutes(), "p", Addr("i1"), true)
  {
    ConvergeRun(Init(["p"]), "i1");
    var f1 := Exec(CONFIG, Init(["p"]), Converge("i1"));
    assert Init(["p"]).w.routes == NoRoutes();
    assert f1.w.routes == Bound(NoRoutes(), "p", Addr("i1"), true);
    ReaddRun(f1, "i1");
    ExecSplit(CONFIG, Init(["p"]), Converge("i1"), REMOVE_AND_ADD);
    acts := Converge("i1") + REMOVE_AND_ADD;
  }

  /** A removal that unbinds late: "p" is removed, added again and back to Healthy before the removal gets
      to its Unbind, which then drops the new binding. A Healthy, desired plugin is not routed. */
  lemma LateUnbindDropsNewBinding() returns (acts: seq<Action>)
    ensures var f := Exec(CONFIG, Init(["p"]), acts);
      && Quiet(f) && "p" in f.w.desired
      && "p" in f.w.plugins && f.w.plugins["p"].state.Healthy?
      && "p" !in f.w.routes.providers
  {
    var before := FirstLife();
    var f1 := Exec(CONFIG, Init(["p"]), before);
    ConvergeRun(f1, "i2");
    ExecSplit(CONFIG, Init(["p"]), before, Converge("i2"));
    var f2 := Exec(CONFIG, f1, Converge("i2"));
    UnbindIsARun(CONFIG, f2, 0);
    ExecSplit(CONFIG, Init(["p"]), before + Converge("i2"), UnbindActions(0));
    acts := before + Converge("i2") + UnbindActions(0);
    assert f2.removals - {0} == map[];
  }

  /** The removal's first two sections: out of the gateway, and closed. */
  lemma HalfUnbind(f: Fine)
    requires f.removals == map[0 := Removal("p", Some("i1"), false)] && f.wires == map[]
    ensures var f' := Exec(CONFIG, f, [RemoveUnbind(0), WireClose(ByRemoval(0))]);
      && f'.removals == map[0 := Removal("p", Some("i1"), true)]
      && f'.wires == map[ByRemoval(0) := Wire("p", None, None)]
      && f' == f.(w := f.w.(routes := f'.w.routes), removals := f'.removals, wires := f'.wires)
  {
    ExecTwo(CONFIG, f, RemoveUnbind(0), WireClose(ByRemoval(0)));
    var o, wire := ByRemoval(0), UnbindWire(f.w.routes, "p");
    var f1 := Next(CONFIG, f, RemoveUnbind(0));
    assert f1 == f.(w := f.w.(routes := UnbindOpened(f.w.routes, "p")), wires := map[o := wire],
                    removals := map[0 := Removal("p", Some("i1"), true)]);
    assert f1.wires[o := wire.(prev := None)] == map[o := Wire("p", None, None)];
  }

  /** Its last section, and its end. */
  lemma LateDelete(f: Fine)
    requires f.removals == map[0 := Removal("p", Some("i1"), true)]
    requires f.wires == map[ByRemoval(0) := Wire("p", None, None)]
    ensures var f' := Exec(CONFIG, f, [WireRecord(ByRemoval(0)), RemoveFinish(0)]);
      && f'.removals == map[] && f'.wires == map[] && f'.pass == f.pass && f'.dying == f.dying && f'.stopped == f.stopped
      && f'.w.plugins == f.w.plugins && f'.w.routes == f.w.routes.(conns := f.w.routes.conns - {"p"})
  {
    ExecTwo(CONFIG, f, WireRecord(ByRemoval(0)), RemoveFinish(0));
    var f1 := Next(CONFIG, f, WireRecord(ByRemoval(0)));
    assert f1.wires == map[] && f1.removals - {0} == map[];
  }

  /** A removal that updates the hook's table late: it takes "p" out of the gateway and closes its
      connection; "p" comes back and is bound; then the removal deletes the new connection from the hook's
      table. The gateway routes "p" over a connection that shutdown will never close. */
  lemma LateDeleteLeaksConnection() returns (acts: seq<Action>)
    ensures var f := Exec(CONFIG, Init(["p"]), acts);
      && Quiet(f) && "p" in f.w.routes.providers && "p" !in f.w.routes.conns
      && "p" in f.w.plugins && f.w.plugins["p"].state.Healthy?
  {
    var begin, end := [RemoveUnbind(0), WireClose(ByRemoval(0))], [WireRecord(ByRemoval(0)), RemoveFinish(0)];
    var before := FirstLife();
    var f1 := Exec(CONFIG, Init(["p"]), before);
    HalfUnbind(f1);
    ExecSplit(CONFIG, Init(["p"]), before, begin);
    var f2 := Exec(CONFIG, f1, begin);
    ConvergeRun(f2, "i2");
    ExecSplit(CONFIG, Init(["p"]), before + begin, Converge("i2"));
    var f3 := Exec(CONFIG, f2, Converge("i2"));
    LateDelete(f3);
    ExecSplit(CONFIG, Init(["p"]), before + begin + Converge("i2"), end);
    acts := before + begin + Converge("i2") + end;
  }

  /** A pass has bound "p" in the gateway and not yet written the hook's table. */
  lemma HalfBind(f: Fine)
    requires f.pass.NoPass? && f.wires == map[] && f.w.desired == ["p"]
    requires "p" in f.w.plugins && f.w.plugins["p"] == HealthyAt("i2").(state := Pending)
    ensures var f', conn := Exec(CONFIG, f, [PassBegin, PassLock] + [PassStep(1, CALM)]), NewConn(f.w.routes, "p", Addr("i2"));
      && f' == f.(w := f'.w, pass := Running([]), wires := map[ByPass := Wire("p", Some(conn), Lookup(f.w.routes.providers, "p"))])
      && f'.w.routes == BindOpened(f.w.routes, "p", Addr("i2"))
      && "p" in f'.w.plugins && f'.w.plugins["p"].state.Healthy?
  {
    PassOpens(CONFIG, f);
    ExecOne(CONFIG, f, [PassBegin, PassLock], PassStep(1, CALM));
    var g := f.(pass := Running(["p"]));
    assert AboutToStep(g, CALM) && ["p"][1..] == [];
    assert Decide(CONFIG, f.w.plugins["p"], 1, CALM) == Rise;
  }

  /** The earlier removal's whole Unbind closes that connection. */
  lemma UnbindHalfBound(f: Fine, conn: Conn)
    requires f.removals == map[0 := Removal("p", Some("i1"), false)]
    requires f.wires.Keys == {ByPass} && Lookup(f.w.routes.providers, "p") == Some(conn)
    ensures var f' := Exec(CONFIG, f, UnbindActions(0));
      && f' == f.(w := f'.w, removals := map[]) && f'.w.plugins == f.w.plugins
      && "p" !in f'.w.routes.providers && conn.id in f'.w.routes.closed
  {
    UnbindIsARun(CONFIG, f, 0);
    var g := Exec(CONFIG, f, UnbindActions(0));
    assert g.removals == map[];
    assert g.w.routes.closed[|f.w.routes.closed|] == conn.id;
  }

  /** And then the pass writes it into the hook's table and ends. */
  lemma WriteHalfBound(f: Fine, conn: Conn)
    requires f.pass == Running([]) && f.wires.Keys == {ByPass}
    requires f.wires[ByPass].name == "p" && f.wires[ByPass].next == Some(conn)
    requires "p" !in f.w.routes.providers && conn.id in f.w.routes.closed
    ensures var f' := Exec(CONFIG, f, WireActions(ByPass) + [PassEnd]);
      && f' == f.(w := f'.w, pass := NoPass, wires := map[]) && f'.w.plugins == f.w.plugins
      && "p" !in f'.w.routes.providers
      && Lookup(f'.w.routes.conns, "p") == Some(conn) && conn.id in f'.w.routes.closed
  {
    WireRuns(CONFIG, f, ByPass);
    assert f.wires - {ByPass} == map[];
    ExecOne(CONFIG, f, WireActions(ByPass), PassEnd);
  }

  /** A pass that updates the hook's table late: it binds "p" in the gateway; an earlier removal, only now
      at its Unbind, takes that connection out and closes it; then the pass writes it into the hook's
      table. Shutdown will close it a second time. */
  lemma LateWriteClosesTwice() returns (acts: seq<Action>)
    ensures var f := Exec(CONFIG, Init(["p"]), acts);
      && Quiet(f) && "p" in f.w.plugins && f.w.plugins["p"].state.Healthy? && "p" !in f.w.routes.providers
      && "p" in f.w.routes.conns && f.w.routes.conns["p"].id in f.w.routes.closed
  {
    var launch, bind := CallActions(ReconcileCall(0, [Launching("i2")])), [PassBegin, PassLock] + [PassStep(1, CALM)];
    var unbind, end := UnbindActions(0), WireActions(ByPass) + [PassEnd];
    var before := FirstLife();
    var f1 := Exec(CONFIG, Init(["p"]), before);
    OnePass(f1, 0, Launching("i2"));
    LaunchRound(f1.w, "i2");
    ExecSplit(CONFIG, Init(["p"]), before, launch);
    var f2 := Exec(CONFIG, f1, launch);
    HalfBind(f2);
    ExecSplit(CONFIG, Init(["p"]), before + launch, bind);
    var f3 := Exec(CONFIG, f2, bind);
    var conn := NewConn(f2.w.routes, "p", Addr("i2"));
    UnbindHalfBound(f3, conn);
    ExecSplit(CONFIG, Init(["p"]), before + launch + bind, unbind);
    WriteHalfBound(Exec(CONFIG, f3, unbind), conn);
    ExecSplit(CONFIG, Init(["p"]), before + launch + bind + unbind, end);
    acts := before + launch + bind + unbind + end;
  }

  /** A pass that copied its list early: "p" is removed between the copy and the mutex, and the pass then
      launches it. An instance runs that no later pass over the desired set will ever visit. */
  lemma StaleCopyOrphansInstance() returns (acts: seq<Action>)
    ensures var f := Exec(CONFIG, Init(["p"]), acts);
      && Quiet(f) && f.w.desired == []
      && "p" in f.w.plugins && f.w.plugins["p"].instance == "i1"
  {
    var f0 := Init(["p"]);
    var first, second := [PassBegin, RemoveBegin(0, "p")], [RemoveForget(0), PassLock];
    var third := [PassStep(0, Launching("i1")), PassEnd];
    ExecTwo(CONFIG, f0, first[0], first[1]);
    var f1 := Exec(CONFIG, f0, first);
    assert f1 == f0.(w := Undesired(f0.w, "p"), removals := map[0 := Removal("p", None, false)], pass := Copied(["p"]));
    assert f1.w.desired == [] by { assert ["p"][..0] == []; }
    ExecTwo(CONFIG, f1, second[0], second[1]);
    var f2 := Exec(CONFIG, f1, second);
    assert f2 == f1.(removals := map[], pass := Running(["p"]));
    LaunchAndEnd(f2);
    ExecSplit(CONFIG, f0, first, second);
    ExecSplit(CONFIG, f0, first + second, third);
    acts := first + second + third;
  }

  lemma LaunchAndEnd(f: Fine)
    requires f.pass == Running(["p"]) && f.wires == map[] && "p" !in f.w.plugins && "i1" !in Issued(f.w.trace)
    ensures var f' := Exec(CONFIG, f, [PassStep(0, Launching("i1")), PassEnd]);
      && f' == f.(w := f'.w, pass := NoPass) && f'.w.desired == f.w.desired
      && "p" in f'.w.plugins && f'.w.plugins["p"].instance == "i1"
  {
    ExecTwo(CONFIG, f, PassStep(0, Launching("i1")), PassEnd);
    assert ["p"][1..] == [];
    LaunchRound(f.w, "i1");
    assert AboutToStep(f, Launching("i1"));
  }
}
