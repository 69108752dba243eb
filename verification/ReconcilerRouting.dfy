/** Routing under interleaved calls (core/reconciler/reconciler.go with core/cmd/rat/rewire.go): what holds
    in every run of ReconcilerRuns, and for what does not, exactly which steps break it. */
module ReconcilerRouting {
  import opened Lists
  import opened Options
  import opened Routing
  import opened Reconciler
  import opened ReconcilerRuns
  import opened ReconcilerCalls

  function At(c: Config, desired: seq<string>, acts: seq<Action>, i: nat): Fine
    requires i <= |acts|
  {
    Exec(c, Init(desired), acts[..i])
  }

  lemma AtNext(c: Config, desired: seq<string>, acts: seq<Action>, i: nat)
    requires i < |acts|
    ensures At(c, desired, acts, i + 1) == Next(c, At(c, desired, acts, i), acts[i])
  {
    assert acts[..i+1] == acts[..i] + [acts[i]];
    ExecOne(c, Init(desired), acts[..i], acts[i]);
  }

  // ----- every connection, in every interleaving -----

  lemma PassStepKeepsRoutes(c: Config, f: Fine, now: int, e: Env)
    requires RoutesOk(f.w.routes, f.wires) && AboutToStep(f, e)
    ensures var f' := PassStepped(c, f, f.pass.names[0], now, e); RoutesOk(f'.w.routes, f'.wires)
  {
    var name := f.pass.names[0];
    var p := Tracked(f.w, name);
    match Decide(c, p, now, e)
    case Lose => UnbindOpenKeepsRoutes(f.w.routes, f.wires, ByPass, name);
    case Rise => BindOpenKeepsRoutes(f.w.routes, f.wires, ByPass, name, p.endpoint);
    case _ =>
  }

  lemma NextKeepsRoutes(c: Config, f: Fine, a: Action)
    requires RoutesOk(f.w.routes, f.wires)
    ensures RoutesOk(Next(c, f, a).w.routes, Next(c, f, a).wires)
  {
    match a
    case RemoveUnbind(call) =>
      if AboutToUnbind(f, call) {
        UnbindOpenKeepsRoutes(f.w.routes, f.wires, ByRemoval(call), f.removals[call].name);
      }
    case PassStep(now, e) =>
      if AboutToStep(f, e) { PassStepKeepsRoutes(c, f, now, e); }
    case WireClose(o) =>
      if o in f.wires { CloseKeepsRoutes(f.w.routes, f.wires, o); }
    case WireRecord(o) =>
      if o in f.wires && f.wires[o].prev.None? { RecordKeepsRoutes(f.w.routes, f.wires, o); }
    case _ =>
  }

  /** In every interleaving each connection ever dialed is live in the gateway, held by exactly one call in
      flight that is about to close it, or was closed exactly once. */
  lemma {:induction false} ConnectionsClosedOnce(c: Config, desired: seq<string>, acts: seq<Action>)
    ensures var f := Exec(c, Init(desired), acts); RoutesOk(f.w.routes, f.wires)
  {
    if acts != [] {
      ConnectionsClosedOnce(c, desired, acts[..|acts|-1]);
      NextKeepsRoutes(c, Exec(c, Init(desired), acts[..|acts|-1]), acts[|acts|-1]);
    }
  }

  // ----- when the hook's table is the gateway's -----

  /** The step is a call's last section: it writes the hook's table. */
  predicate Records(f: Fine, a: Action) {
    a.WireRecord? && a.owner in f.wires && f.wires[a.owner].prev.None?
  }

  /** It comes late: the gateway no longer shows for the name what this call put there. */
  predicate RecordsLate(f: Fine, a: Action)
    requires Records(f, a)
  {
    f.wires[a.owner].next != Lookup(f.w.routes.providers, f.wires[a.owner].name)
  }

  /** The names whose last write to the hook's table came late. */
  function LateNames(c: Config, desired: seq<string>, acts: seq<Action>): set<string> {
    if acts == [] then {}
    else
      var init, a := acts[..|acts|-1], acts[|acts|-1];
      var before, f := LateNames(c, desired, init), Exec(c, Init(desired), init);
      if !Records(f, a) then before
      else if RecordsLate(f, a) then before + {f.wires[a.owner].name}
      else before - {f.wires[a.owner].name}
  }

  predicate NoWireOn(f: Fine, name: string) {
    forall o | o in f.wires :: f.wires[o].name != name
  }

  predicate TablesDiffer(r: Routes, name: string) {
    Lookup(r.conns, name) != Lookup(r.providers, name)
  }

  /** A first section of a call on another name. */
  lemma OpenElsewhere(f: Fine, f': Fine, o: Owner, wire: Wire, name: string)
    requires o !in f.wires && f'.wires == f.wires[o := wire] && NoWireOn(f', name)
    requires f'.w.routes.conns == f.w.routes.conns
    requires forall n | n != wire.name :: Lookup(f'.w.routes.providers, n) == Lookup(f.w.routes.providers, n)
    ensures NoWireOn(f, name) && (TablesDiffer(f'.w.routes, name) <==> TablesDiffer(f.w.routes, name))
  {
    assert f'.wires[o] == wire;
    assert forall p | p in f.wires :: p in f'.wires && f'.wires[p] == f.wires[p];
  }

  lemma PassStepOnName(c: Config, f: Fine, now: int, e: Env, name: string)
    requires AboutToStep(f, e) && NoWireOn(PassStepped(c, f, f.pass.names[0], now, e), name)
    ensures var f' := PassStepped(c, f, f.pass.names[0], now, e);
      NoWireOn(f, name) && (TablesDiffer(f'.w.routes, name) <==> TablesDiffer(f.w.routes, name))
  {
    var f', p := PassStepped(c, f, f.pass.names[0], now, e), Tracked(f.w, f.pass.names[0]);
    var wire := RouteWire(f.w.routes, f.pass.names[0], p, e, Decide(c, p, now, e));
    if wire.Some? {
      OpenElsewhere(f, f', ByPass, wire.value, name);
    }
  }

  /** The hook's table is written for another name, or a displaced connection is closed. */
  lemma WireOnName(c: Config, f: Fine, a: Action, name: string)
    requires a.WireClose? || (a.WireRecord? && !(Records(f, a) && f.wires[a.owner].name == name))
    requires NoWireOn(Next(c, f, a), name)
    ensures NoWireOn(f, name)
    ensures TablesDiffer(Next(c, f, a).w.routes, name) <==> TablesDiffer(f.w.routes, name)
  {
    var f' := Next(c, f, a);
    assert forall p | p in f.wires && p != a.owner :: p in f'.wires && f'.wires[p] == f.wires[p];
    assert a.owner in f'.wires ==> f'.wires[a.owner].name == f.wires[a.owner].name;
  }

  /** A step that neither opens a call on the name nor writes the hook's table for it leaves it alone. */
  lemma StepOnName(c: Config, f: Fine, a: Action, name: string)
    requires NoWireOn(Next(c, f, a), name)
    requires !(Records(f, a) && f.wires[a.owner].name == name)
    ensures NoWireOn(f, name)
    ensures TablesDiffer(Next(c, f, a).w.routes, name) <==> TablesDiffer(f.w.routes, name)
  {
    match a
    case PassStep(now, e) =>
      if AboutToStep(f, e) { PassStepOnName(c, f, now, e, name); }
    case RemoveUnbind(call) =>
      if AboutToUnbind(f, call) {
        OpenElsewhere(f, Next(c, f, a), ByRemoval(call), UnbindWire(f.w.routes, f.removals[call].name), name);
      }
    case WireClose(o) => WireOnName(c, f, a, name);
    case WireRecord(o) => WireOnName(c, f, a, name);
    case _ =>
  }

  lemma {:induction false} LateIffDiffer(c: Config, desired: seq<string>, acts: seq<Action>, name: string)
    requires NoWireOn(Exec(c, Init(desired), acts), name)
    ensures name in LateNames(c, desired, acts) <==> TablesDiffer(Exec(c, Init(desired), acts).w.routes, name)
  {
    if acts != [] {
      var init, a := acts[..|acts|-1], acts[|acts|-1];
      var f := Exec(c, Init(desired), init);
      if !(Records(f, a) && f.wires[a.owner].name == name) {
        StepOnName(c, f, a, name);
        LateIffDiffer(c, desired, init, name);
      }
    }
  }

  /** With no call in flight the hook's table is the gateway's exactly when, for every name, the last write
      to the hook's table did not come late. A call can check that before it writes: it is late when the
      gateway no longer shows what the call put there. */
  lemma TablesAgreeIff(c: Config, desired: seq<string>, acts: seq<Action>)
    requires Exec(c, Init(desired), acts).wires == map[]
    ensures var r := Exec(c, Init(desired), acts).w.routes;
      r.conns == r.providers <==> LateNames(c, desired, acts) == {}
  {
    var r := Exec(c, Init(desired), acts).w.routes;
    forall name ensures name in LateNames(c, desired, acts) <==> TablesDiffer(r, name) {
      LateIffDiffer(c, desired, acts, name);
    }
    if LateNames(c, desired, acts) == {} {
      forall name ensures Lookup(r.conns, name) == Lookup(r.providers, name) {
        assert name !in LateNames(c, desired, acts);
      }
      SameLookups(r.conns, r.providers);
    } else {
      var name :| name in LateNames(c, desired, acts);
      assert TablesDiffer(r, name);
    }
  }

  /** So daemon shutdown, with no call in flight, closes every connection exactly once exactly then. */
  lemma ShutdownClosesOnceIff(c: Config, desired: seq<string>, acts: seq<Action>, order: seq<string>)
    requires var f := Exec(c, Init(desired), acts); f.wires == map[] && Visits(order, f.w.routes.conns.Keys)
    ensures var f := Exec(c, Init(desired), acts);
      AllClosedOnce(f.w.routes.closed + IdsAlong(f.w.routes.conns, order), f.w.routes, f.wires)
      <==> LateNames(c, desired, acts) == {}
  {
    var f := Exec(c, Init(desired), acts);
    ConnectionsClosedOnce(c, desired, acts);
    CloseIsRightIff(f.w.routes, f.wires, order);
    TablesAgreeIff(c, desired, acts);
  }

  // ----- Healthy plugins are routed -----

  /** Every Healthy plugin at a dialable endpoint is routed to it. */
  ghost predicate HealthyRouted(accepts: string -> bool, f: Fine) {
    forall n | n in f.w.plugins && f.w.plugins[n].state.Healthy? && accepts(f.w.plugins[n].endpoint) ::
      n in f.w.routes.providers && f.w.routes.providers[n].endpoint == f.w.plugins[n].endpoint
  }

  /** Whether a dial succeeds depends on the endpoint alone. */
  predicate StepDialsBy(accepts: string -> bool, f: Fine, a: Action) {
    a.PassStep? && AboutToStep(f, a.e) ==> DialsBy(accepts, f.w, f.pass.names[0], a.e)
  }

  /** An Unbind begins on a plugin that is, at that moment, tracked, Healthy and dialable again. */
  predicate UnbindsHealthy(accepts: string -> bool, f: Fine, a: Action) {
    && a.RemoveUnbind? && AboutToUnbind(f, a.call)
    && var n := f.removals[a.call].name;
       n in f.w.plugins && f.w.plugins[n].state.Healthy? && accepts(f.w.plugins[n].endpoint)
  }

  /** One step keeps Healthy plugins routed exactly when it is not such an Unbind. */
  lemma StepKeepsRoutedIff(accepts: string -> bool, c: Config, f: Fine, a: Action)
    requires HealthyRouted(accepts, f) && StepDialsBy(accepts, f, a)
    ensures HealthyRouted(accepts, Next(c, f, a)) <==> !UnbindsHealthy(accepts, f, a)
  {
    match a
    case PassStep(now, e) =>
      if AboutToStep(f, e) {
        FailedIsNotHealthy(c, Tracked(f.w, f.pass.names[0]), now, e.jitter);
      }
    case _ =>
  }

  /** In a run, Healthy plugins are routed at every moment exactly when no Unbind ever began on a plugin
      that was tracked, Healthy and dialable at that moment. */
  lemma AlwaysRoutedIff(accepts: string -> bool, c: Config, desired: seq<string>, acts: seq<Action>)
    requires forall i | 0 <= i < |acts| :: StepDialsBy(accepts, At(c, desired, acts, i), acts[i])
    ensures (forall i | 0 <= i <= |acts| :: HealthyRouted(accepts, At(c, desired, acts, i)))
      <==> (forall i | 0 <= i < |acts| :: !UnbindsHealthy(accepts, At(c, desired, acts, i), acts[i]))
  {
    if forall i | 0 <= i <= |acts| :: HealthyRouted(accepts, At(c, desired, acts, i)) {
      forall i | 0 <= i < |acts| ensures !UnbindsHealthy(accepts, At(c, desired, acts, i), acts[i]) {
        assert HealthyRouted(accepts, At(c, desired, acts, i + 1));
        AtNext(c, desired, acts, i);
        StepKeepsRoutedIff(accepts, c, At(c, desired, acts, i), acts[i]);
      }
    }
    if forall i | 0 <= i < |acts| :: !UnbindsHealthy(accepts, At(c, desired, acts, i), acts[i]) {
      forall i | 0 <= i <= |acts| ensures HealthyRouted(accepts, At(c, desired, acts, i)) {
        RoutedUpTo(accepts, c, desired, acts, i);
      }
    }
  }

  lemma {:induction false} RoutedUpTo(accepts: string -> bool, c: Config, desired: seq<string>, acts: seq<Action>, i: nat)
    requires i <= |acts|
    requires forall k | 0 <= k < |acts| :: StepDialsBy(accepts, At(c, desired, acts, k), acts[k])
    requires forall k | 0 <= k < |acts| :: !UnbindsHealthy(accepts, At(c, desired, acts, k), acts[k])
    ensures HealthyRouted(accepts, At(c, desired, acts, i))
  {
    if i > 0 {
      RoutedUpTo(accepts, c, desired, acts, i - 1);
      AtNext(c, desired, acts, i - 1);
      StepKeepsRoutedIff(accepts, c, At(c, desired, acts, i - 1), acts[i - 1]);
    }
  }

  // ----- only Healthy plugins are routed, or leaving ones -----

  ghost predicate Leaving(f: Fine, name: string) {
    exists call :: AboutToUnbind(f, call) && f.removals[call].name == name
  }

  ghost predicate Explained(f: Fine, name: string) {
    name in f.w.routes.providers ==>
      || (name in f.w.plugins && f.w.plugins[name].state.Healthy?
          && f.w.routes.providers[name].endpoint == f.w.plugins[name].endpoint)
      || Leaving(f, name)
  }

  /** A removal's call is in flight only after its Unbind began. */
  ghost predicate WiresOwned(f: Fine) {
    forall call | ByRemoval(call) in f.wires :: call in f.removals && f.removals[call].unbound && f.removals[call].taken.Some?
  }

  ghost predicate RoutesExplained(f: Fine) {
    WiresOwned(f) && forall n :: Explained(f, n)
  }

  /** A removal about to unbind stays so until it does. */
  lemma StillLeaving(c: Config, f: Fine, a: Action, name: string)
    requires Leaving(f, name) && !(a.RemoveUnbind? && AboutToUnbind(f, a.call) && f.removals[a.call].name == name)
    ensures Leaving(Next(c, f, a), name)
  {
    var call :| AboutToUnbind(f, call) && f.removals[call].name == name;
    assert AboutToUnbind(Next(c, f, a), call) && Next(c, f, a).removals[call].name == name;
  }

  lemma NextExplains(c: Config, f: Fine, a: Action, name: string)
    requires WiresOwned(f) && Explained(f, name)
    ensures Explained(Next(c, f, a), name)
  {
    var f' := Next(c, f, a);
    if name in f'.w.routes.providers {
      if Leaving(f, name) && !(a.RemoveUnbind? && AboutToUnbind(f, a.call) && f.removals[a.call].name == name) {
        StillLeaving(c, f, a, name);
      } else if a.RemoveForget? && a.call in f.removals && f.removals[a.call].name == name && f' != f {
        assert name in f.w.plugins ==> AboutToUnbind(f', a.call);
      }
    }
  }

  lemma NextOwns(c: Config, f: Fine, a: Action)
    requires WiresOwned(f)
    ensures WiresOwned(Next(c, f, a))
  {
    var f' := Next(c, f, a);
    forall call | ByRemoval(call) in f'.wires
      ensures call in f'.removals && f'.removals[call].unbound && f'.removals[call].taken.Some?
    {
      assert ByRemoval(call) in f.wires || a == RemoveUnbind(call);
    }
  }

  /** In every interleaving, whatever the gateway routes is a Healthy plugin at its current endpoint, or a
      plugin some removal has forgotten and is about to unbind. */
  lemma {:induction false} RoutedIsHealthyOrLeaving(c: Config, desired: seq<string>, acts: seq<Action>)
    ensures RoutesExplained(Exec(c, Init(desired), acts))
  {
    if acts != [] {
      var init, a := acts[..|acts|-1], acts[|acts|-1];
      RoutedIsHealthyOrLeaving(c, desired, init);
      NextOwns(c, Exec(c, Init(desired), init), a);
      forall n ensures Explained(Exec(c, Init(desired), acts), n) {
        NextExplains(c, Exec(c, Init(desired), init), a, n);
      }
    }
  }

  // ----- only wanted plugins are tracked -----

  /** The name is desired, or a removal is about to forget it. */
  ghost predicate Wanted(f: Fine, name: string) {
    name in f.w.desired || exists call :: Awaits(f, call, name)
  }

  predicate Awaits(f: Fine, call: nat, name: string) {
    call in f.removals && f.removals[call].name == name && f.removals[call].taken.None?
  }

  ghost predicate TrackedWanted(f: Fine) {
    forall n | n in f.w.plugins :: Wanted(f, n)
  }

  /** A pass steps a name it copied while it was desired, which is now neither desired nor awaited. */
  ghost predicate StepsUnwanted(f: Fine, a: Action) {
    a.PassStep? && AboutToStep(f, a.e) && !Wanted(f, f.pass.names[0])
  }

  lemma StillWanted(c: Config, f: Fine, a: Action, name: string)
    requires Wanted(f, name) && name in Next(c, f, a).w.plugins
    ensures Wanted(Next(c, f, a), name)
  {
    var f' := Next(c, f, a);
    if name in f.w.desired {
      if a.RemoveBegin? {
        WithoutIs(f.w.desired, a.name, name);
        assert a.name == name && f' != f ==> Awaits(f', a.call, name);
      }
    } else {
      var call :| Awaits(f, call, name);
      assert name in f'.w.plugins ==> Awaits(f', call, name);
    }
  }

  /** One step keeps every tracked plugin wanted exactly when it is not such a step. */
  lemma StepKeepsWantedIff(c: Config, f: Fine, a: Action)
    requires TrackedWanted(f)
    ensures TrackedWanted(Next(c, f, a)) <==> !StepsUnwanted(f, a)
  {
    var f' := Next(c, f, a);
    if StepsUnwanted(f, a) {
      var name := f.pass.names[0];
      assert name in f'.w.plugins;
      assert forall call :: Awaits(f', call, name) <==> Awaits(f, call, name);
    } else {
      forall n | n in f'.w.plugins ensures Wanted(f', n) {
        StillWanted(c, f, a, n);
      }
    }
  }

  /** In a run, only wanted plugins are tracked at every moment exactly when no pass ever stepped a name
      that was, at that moment, neither desired nor about to be forgotten. */
  lemma AlwaysWantedIff(c: Config, desired: seq<string>, acts: seq<Action>)
    ensures (forall i | 0 <= i <= |acts| :: TrackedWanted(At(c, desired, acts, i)))
      <==> (forall i | 0 <= i < |acts| :: !StepsUnwanted(At(c, desired, acts, i), acts[i]))
  {
    if forall i | 0 <= i <= |acts| :: TrackedWanted(At(c, desired, acts, i)) {
      forall i | 0 <= i < |acts| ensures !StepsUnwanted(At(c, desired, acts, i), acts[i]) {
        assert TrackedWanted(At(c, desired, acts, i + 1));
        AtNext(c, desired, acts, i);
        StepKeepsWantedIff(c, At(c, desired, acts, i), acts[i]);
      }
    }
    if forall i | 0 <= i < |acts| :: !StepsUnwanted(At(c, desired, acts, i), acts[i]) {
      forall i | 0 <= i <= |acts| ensures TrackedWanted(At(c, desired, acts, i)) {
        WantedUpTo(c, desired, acts, i);
      }
    }
  }

  lemma {:induction false} WantedUpTo(c: Config, desired: seq<string>, acts: seq<Action>, i: nat)
    requires i <= |acts|
    requires forall k | 0 <= k < |acts| :: !StepsUnwanted(At(c, desired, acts, k), acts[k])
    ensures TrackedWanted(At(c, desired, acts, i))
  {
    if i > 0 {
      WantedUpTo(c, desired, acts, i - 1);
      AtNext(c, desired, acts, i - 1);
      StepKeepsWantedIff(c, At(c, desired, acts, i - 1), acts[i - 1]);
    }
  }
}
