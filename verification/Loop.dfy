/** One tick of a core replica (core/reconciler/loop.go): step the elector, and run a convergence pass only
    while it leads. Over replicas that share a lease, passes started by different ones are kept apart by
    their leases, and by nothing else. Each replica reads its own clock, and a pass is placed in time by the
    clock of the replica that runs it: passes are apart by those readings, and really apart if the clocks
    agree. */
module Loop {
  import opened Options
  import opened StateLog
  import opened LeaseChain
  import opened LeaseProtocol
  import Lease
  import LeaseRuns
  import Reconciler
  import Routing

  class Loop {
    const elector: Lease.Elector
    const reconciler: Reconciler.Reconciler

    constructor (elector: Lease.Elector, reconciler: Reconciler.Reconciler)
      ensures this.elector == elector && this.reconciler == reconciler
    {
      this.elector, this.reconciler := elector, reconciler;
    }

    /** What the timer runs. A follower leaves the plane alone; a leader makes one pass over it. */
    method Tick(now: int, f: Lease.Faults, envs: seq<Reconciler.Env>) returns (converged: bool)
      requires elector !in elector.store.Objects()
      requires {reconciler, reconciler.rewire, reconciler.rewire.gw} !! {elector} + elector.store.Objects()
      requires |envs| == |reconciler.desired|
      modifies elector, elector.store.Objects(), reconciler, reconciler.rewire, reconciler.rewire.gw
      ensures elector.store.Shared? ==>
        (elector.store.state.cas.View(), elector.View(), converged)
          == Lease.SharedStep(old(elector.store.state.cas.View()), elector.store.state.key, elector.store.state.createSupported,
                              old(elector.View()), elector.id, now, elector.ttl, f)
      ensures elector.store.Mem? ==>
        (elector.store.mem.View(), elector.View(), converged)
          == Lease.MemStep(old(elector.store.mem.View()), old(elector.View()), elector.id, now, elector.ttl)
      ensures reconciler.View() ==
        if converged then Reconciler.Pass(reconciler.cfg, old(reconciler.View()), old(reconciler.desired), now, envs)
        else old(reconciler.View())
    {
      converged := elector.Step(now, f);
      if converged {
        reconciler.Reconcile(now, envs);
      }
    }
  }

  // ----- passes of different replicas -----

  /** A pass started by the Step that gave `answer`, up to but not including the millisecond `end`. */
  datatype PassRun = PassRun(answer: Answer, end: int)

  function StartMs(p: PassRun): int {
    p.answer.now / MS
  }

  /** How far past its lease the pass runs, in whole milliseconds; not positive if it stays within. */
  function Overrun(p: PassRun): int {
    p.end - p.answer.expiry / MS
  }

  /** No millisecond belongs to both passes, each by its own replica's clock. */
  predicate Disjoint(p: PassRun, q: PassRun) {
    p.end <= StartMs(q) || q.end <= StartMs(p)
  }

  /** Passes of different replicas that end within their leases never run at the same time by the replicas'
      own clocks. */
  lemma PassesWithinLeasesDisjoint(c: Config, acts: seq<Action>, p: PassRun, q: PassRun)
    requires c.Valid() && c.createSupported
    requires p.answer in Exec(c, Init(c), acts).answers && q.answer in Exec(c, Init(c), acts).answers
    requires p.answer.id != q.answer.id && Overrun(p) <= 0 && Overrun(q) <= 0
    ensures Disjoint(p, q)
  {
    AtMostOneLeader(c, acts, p.answer, q.answer);
  }

  /** Whatever the electors and the network do, passes that overrun their leases by at most `over` never
      run at the same time on different replicas, by the replicas' own clocks. */
  ghost predicate NeverTogether(c: Config, over: int) {
    forall acts: seq<Action>, p: PassRun, q: PassRun |
      && p.answer in Exec(c, Init(c), acts).answers && q.answer in Exec(c, Init(c), acts).answers
      && p.answer.id != q.answer.id && Overrun(p) <= over && Overrun(q) <= over ::
      Disjoint(p, q)
  }

  /** When y may take the lease over from x, who took it at the epoch. */
  function HandoverTime(c: Config, x: string): int
    requires x in c.ttl
  {
    var expiryMs := (c.epoch + c.ttl[x]) / MS;
    if expiryMs * MS >= c.epoch then expiryMs * MS else c.epoch
  }

  lemma HandoverIsExpiry(c: Config, x: string)
    requires x in c.ttl
    ensures HandoverTime(c, x) >= c.epoch && HandoverTime(c, x) / MS == (c.epoch + c.ttl[x]) / MS
  {
    DivMonotone(MS, c.epoch, c.epoch + c.ttl[x]);
  }

  /** x leads from the epoch, and y takes over in the very millisecond in which x's lease ends. */
  lemma Handover(c: Config, x: string, y: string) returns (acts: seq<Action>)
    requires c.Valid() && c.createSupported && x in c.ttl && y in c.ttl && x != y
    ensures Answer(x, c.epoch, c.epoch + c.ttl[x]) in Exec(c, Init(c), acts).answers
    ensures var t := HandoverTime(c, x); Answer(y, t, t + c.ttl[y]) in Exec(c, Init(c), acts).answers
  {
    HandoverIsExpiry(c, x);
    assert Exec(c, Init(c), []) == Init(c);
    var first := LeaseRuns.TakeLease(c, [], x, c.epoch);
    assert Exec(c, Init(c), first).electors[y] == NewElector(c, c.epoch);
    acts := LeaseRuns.TakeLease(c, first, y, HandoverTime(c, x));
  }

  /** Passes are kept apart exactly as long as none outlives its lease: with two electors, passes that
      overrun by at most `over` milliseconds never run together in any run if and only if `over` is not
      positive. */
  lemma NeverTogetherIff(c: Config, x: string, y: string, over: int)
    requires c.Valid() && c.createSupported && x in c.ttl && y in c.ttl && x != y
    ensures NeverTogether(c, over) <==> over <= 0
  {
    if over <= 0 {
      forall acts: seq<Action>, p: PassRun, q: PassRun |
        && p.answer in Exec(c, Init(c), acts).answers && q.answer in Exec(c, Init(c), acts).answers
        && p.answer.id != q.answer.id && Overrun(p) <= over && Overrun(q) <= over
        ensures Disjoint(p, q)
      {
        PassesWithinLeasesDisjoint(c, acts, p, q);
      }
    } else {
      var acts := Handover(c, x, y);
      var t := HandoverTime(c, x);
      HandoverIsExpiry(c, x);
      var a, b := Answer(x, c.epoch, c.epoch + c.ttl[x]), Answer(y, t, t + c.ttl[y]);
      var p, q := PassRun(a, a.expiry / MS + over), PassRun(b, b.expiry / MS + over);
      DivMonotone(MS, c.epoch, t);
      DivMonotone(MS, t, t + c.ttl[y]);
      assert p.answer in Exec(c, Init(c), acts).answers && q.answer in Exec(c, Init(c), acts).answers;
      assert !Disjoint(p, q);
    }
  }
}
