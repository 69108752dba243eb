/** The lease objects (core/lease/lease.go and core/lease/statestore.go): the in-memory Store, the
    StateStore over a shared state backend, and the Elector that drives either of them. The methods
    are proved against functions on values; the functions are tied to the step system of
    LeaseProtocol, and leadership is proved stable under partial outages. */
module Lease {
  import opened Options
  import opened StateLog
  import opened LeaseChain
  import opened LeaseProtocol

  /** The Backend contract's three outcomes: (true, token, nil), (false, 0, nil) and (_, _, err). */
  datatype Verdict = Granted(token: int) | Refused | Uncertain

  /** What the network does to one write: the reply arrives; the write is lost; or the write is
      carried out and only the reply is lost. */
  datatype Fate = Answered | Dropped | Unacked

  /** The fates of the calls one Step can make. */
  datatype Faults = Faults(renew: Fate, get: bool, write: Fate)

  /** The Elector's mutable fields. */
  datatype Seat = Seat(leader: bool, token: int, acquiredAt: int, expiry: int)

  // ----- the in-memory store -----

  datatype MemLease = MemLease(holder: string, expiry: int, version: int)

  function MemAcquire(l: MemLease, candidate: string, now: int, ttl: nat): (MemLease, Verdict) {
    if l.holder != "" && now < l.expiry then (l, Refused)
    else (MemLease(candidate, now + ttl, l.version + 1), Granted(l.version + 1))
  }

  function MemRenew(l: MemLease, candidate: string, token: int, now: int, ttl: nat): (MemLease, Verdict) {
    if l.holder != candidate || l.version != token || now >= l.expiry then (l, Refused)
    else (l.(expiry := now + ttl), Granted(token))
  }

  class MemStore {
    var holder: string
    var expiry: int
    var version: int

    ghost function View(): MemLease
      reads this
    {
      MemLease(holder, expiry, version)
    }

    constructor ()
      ensures View() == MemLease("", 0, 0)
    {
      holder, expiry, version := "", 0, 0;
    }

    method Acquire(candidate: string, now: int, ttl: nat) returns (v: Verdict)
      modifies this
      ensures (View(), v) == MemAcquire(old(View()), candidate, now, ttl)
    {
      if holder != "" && now < expiry {
        return Refused;
      }
      holder := candidate;
      expiry := now + ttl;
      version := version + 1;
      return Granted(version);
    }

    method Renew(candidate: string, token: int, now: int, ttl: nat) returns (v: Verdict)
      modifies this
      ensures (View(), v) == MemRenew(old(View()), candidate, token, now, ttl)
    {
      if holder != candidate || version != token || now >= expiry {
        return Refused;
      }
      expiry := now + ttl;
      return Granted(token);
    }
  }

  // ----- the state-backed store -----

  /** One write call as its caller sees it. */
  function Call(kv: Kv<Value>, key: string, v: Value, mode: Mode, fate: Fate): (Kv<Value>, Option<Reply>) {
    match fate
    case Answered => var (kv', r) := Execute(kv, key, v, mode); (kv', Some(r))
    case Dropped => (kv, None)
    case Unacked => (Execute(kv, key, v, mode).0, None)
  }

  function Outcome(reply: Option<Reply>): Verdict {
    match reply
    case None => Uncertain
    case Some(r) => if r.committed then Granted(r.revision) else Refused
  }

  function Stamp(id: string, now: int, ttl: nat): Value {
    Record(id, UnixMilli(now + ttl))
  }

  function SharedRenew(kv: Kv<Value>, key: string, id: string, token: int, now: int, ttl: nat, f: Faults)
    : (Kv<Value>, Verdict)
  {
    var (kv', reply) := Call(kv, key, Stamp(id, now, ttl), Cas(token), f.renew);
    (kv', Outcome(reply))
  }

  function SharedAcquire(kv: Kv<Value>, key: string, createSupported: bool, id: string, now: int, ttl: nat, f: Faults)
    : (Kv<Value>, Verdict)
  {
    if !f.get then (kv, Uncertain)
    else if key in kv.data && !MayTakeOver(kv.data[key].value, id, now) then (kv, Refused)
    else
      var mode := if key in kv.data then Cas(kv.data[key].revision) else if createSupported then Create else Cas(0);
      var (kv', reply) := Call(kv, key, Stamp(id, now, ttl), mode, f.write);
      (kv', Outcome(reply))
  }

  class StateStore {
    const cas: Store<Value>
    const key: string
    const createSupported: bool

    constructor (cas: Store<Value>, key: string, createSupported: bool)
      ensures this.cas == cas && this.key == key && this.createSupported == createSupported
    {
      this.cas, this.key, this.createSupported := cas, key, createSupported;
    }

    method Send(v: Value, mode: Mode, fate: Fate) returns (reply: Option<Reply>)
      modifies cas
      ensures (cas.View(), reply) == Call(old(cas.View()), key, v, mode, fate)
    {
      if fate.Dropped? {
        return None;
      }
      var r;
      match mode {
        case Cas(ifRev) => r := cas.Put(key, v, ifRev);
        case Create => r := cas.CreateIfAbsent(key, v);
      }
      return if fate.Answered? then Some(r) else None;
    }

    method Renew(candidate: string, token: int, now: int, ttl: nat, f: Faults) returns (v: Verdict)
      modifies cas
      ensures (cas.View(), v) == SharedRenew(old(cas.View()), key, candidate, token, now, ttl, f)
    {
      var reply := Send(Stamp(candidate, now, ttl), Cas(token), f.renew);
      return Outcome(reply);
    }

    method Acquire(candidate: string, now: int, ttl: nat, f: Faults) returns (v: Verdict)
      modifies cas
      ensures (cas.View(), v) == SharedAcquire(old(cas.View()), key, createSupported, candidate, now, ttl, f)
    {
      if !f.get {
        return Uncertain;
      }
      var entry := cas.Get(key);
      var reply;
      if entry.Some? {
        if !MayTakeOver(entry.value.value, candidate, now) {
          return Refused;
        }
        reply := Send(Stamp(candidate, now, ttl), Cas(entry.value.revision), f.write);
      } else if createSupported {
        reply := Send(Stamp(candidate, now, ttl), Create, f.write);
      } else {
        reply := Send(Stamp(candidate, now, ttl), Cas(0), f.write);
      }
      return Outcome(reply);
    }
  }

  // ----- the elector -----

  /** How a Step takes its renewal: an answer, or None to go on to an Acquire in the same Step. */
  function AfterRenew(seat: Seat, now: int, ttl: nat, v: Verdict): (Seat, Option<bool>) {
    if v.Granted? then (seat.(token := v.token, expiry := now + ttl), Some(true))
    else if v.Uncertain? && now < seat.expiry then (seat, Some(true))
    else (seat.(leader := false), None)
  }

  function AfterAcquire(seat: Seat, now: int, ttl: nat, v: Verdict): (Seat, bool) {
    if v.Granted? then (Seat(true, v.token, now, now + ttl), true) else (seat, false)
  }

  function MemStep(l: MemLease, seat: Seat, id: string, now: int, ttl: nat): (MemLease, Seat, bool) {
    var (l1, seat1, done) :=
      if seat.leader then
        var (l1, v) := MemRenew(l, id, seat.token, now, ttl);
        var (seat1, done) := AfterRenew(seat, now, ttl, v);
        (l1, seat1, done)
      else (l, seat, None);
    if done.Some? then (l1, seat1, done.value)
    else
      var (l2, v) := MemAcquire(l1, id, now, ttl);
      var (seat2, r) := AfterAcquire(seat1, now, ttl, v);
      (l2, seat2, r)
  }

  function SharedStep(kv: Kv<Value>, key: string, createSupported: bool, seat: Seat, id: string, now: int, ttl: nat, f: Faults)
    : (Kv<Value>, Seat, bool)
  {
    var (kv1, seat1, done) :=
      if seat.leader then
        var (kv1, v) := SharedRenew(kv, key, id, seat.token, now, ttl, f);
        var (seat1, done) := AfterRenew(seat, now, ttl, v);
        (kv1, seat1, done)
      else (kv, seat, None);
    if done.Some? then (kv1, seat1, done.value)
    else
      var (kv2, v) := SharedAcquire(kv1, key, createSupported, id, now, ttl, f);
      var (seat2, r) := AfterAcquire(seat1, now, ttl, v);
      (kv2, seat2, r)
  }

  /** The two implementations of the Backend interface. */
  datatype Backend = Mem(mem: MemStore) | Shared(state: StateStore) {
    ghost function Objects(): set<object> {
      match this
      case Mem(m) => {m}
      case Shared(s) => {s.cas}
    }

    method Renew(candidate: string, token: int, now: int, ttl: nat, f: Faults) returns (v: Verdict)
      modifies Objects()
      ensures Mem? ==> (mem.View(), v) == MemRenew(old(mem.View()), candidate, token, now, ttl)
      ensures Shared? ==>
        (state.cas.View(), v) == SharedRenew(old(state.cas.View()), state.key, candidate, token, now, ttl, f)
    {
      match this {
        case Mem(m) => v := m.Renew(candidate, token, now, ttl);
        case Shared(s) => v := s.Renew(candidate, token, now, ttl, f);
      }
    }

    method Acquire(candidate: string, now: int, ttl: nat, f: Faults) returns (v: Verdict)
      modifies Objects()
      ensures Mem? ==> (mem.View(), v) == MemAcquire(old(mem.View()), candidate, now, ttl)
      ensures Shared? ==>
        (state.cas.View(), v)
          == SharedAcquire(old(state.cas.View()), state.key, state.createSupported, candidate, now, ttl, f)
    {
      match this {
        case Mem(m) => v := m.Acquire(candidate, now, ttl);
        case Shared(s) => v := s.Acquire(candidate, now, ttl, f);
      }
    }
  }

  class Elector {
    const id: string
    const store: Backend
    const ttl: nat

    var leader: bool
    var token: int
    var acquiredAt: int
    var leaseExpiry: int

    ghost function View(): Seat
      reads this
    {
      Seat(leader, token, acquiredAt, leaseExpiry)
    }

    constructor (id: string, store: Backend, ttl: nat)
      ensures this.id == id && this.store == store && this.ttl == ttl
      ensures !leader
    {
      this.id, this.store, this.ttl := id, store, ttl;
      leader, token, acquiredAt, leaseExpiry := false, 0, 0, 0;
    }

    /** `f` is what the network does to the calls this Step makes. */
    method Step(now: int, f: Faults) returns (r: bool)
      requires this !in store.Objects()
      modifies this, store.Objects()
      ensures store.Mem? ==>
        (store.mem.View(), View(), r) == MemStep(old(store.mem.View()), old(View()), id, now, ttl)
      ensures store.Shared? ==>
        (store.state.cas.View(), View(), r)
          == SharedStep(old(store.state.cas.View()), store.state.key, store.state.createSupported,
                        old(View()), id, now, ttl, f)
    {
      if leader {
        var v := store.Renew(id, token, now, ttl, f);
        if v.Granted? {
          token := v.token;
          leaseExpiry := now + ttl;
          return true;
        } else if v.Uncertain? && now < leaseExpiry {
          return true;
        }
        leader := false;
      }
      var v := store.Acquire(id, now, ttl, f);
      if v.Granted? {
        leader, token, acquiredAt, leaseExpiry := true, v.token, now, now + ttl;
        return true;
      }
      return false;
    }
  }

  // ----- a whole Step is a run of the protocol -----

  function SeatOf(e: LeaseProtocol.Elector, acquiredAt: int): Seat {
    Seat(e.leader, e.token, acquiredAt, e.expiry)
  }

  function ReplyActions(heard: Action, unheard: Action, w: Write, fate: Fate): seq<Action> {
    match fate
    case Answered => [heard]
    case Dropped => [unheard]
    case Unacked => [Land(w), unheard]
  }

  /** The protocol steps of one Acquire from a state where `id` has its Get outstanding. */
  function AcquireActions(c: Config, s: State, id: string, now: int, f: Faults): seq<Action> {
    if !f.get then [GetReply(id, false)]
    else if c.key in s.kv.data && !MayTakeOver(s.kv.data[c.key].value, id, now) then [GetReply(id, true)]
    else
      var mode := if c.key in s.kv.data then Cas(s.kv.data[c.key].revision) else if c.createSupported then Create else Cas(0);
      [GetReply(id, true)] + ReplyActions(WriteReply(id, true), WriteReply(id, false), Write(id, now, mode), f.write)
  }

  lemma {:induction false} ReplyRun(c: Config, s: State, heard: Action, unheard: Action, w: Write, fate: Fate)
    ensures Exec(c, s, ReplyActions(heard, unheard, w, fate)) ==
      match fate
      case Answered => Next(c, s, heard)
      case Dropped => Next(c, s, unheard)
      case Unacked => Next(c, Next(c, s, Land(w)), unheard)
  {
    if fate.Unacked? {
      ExecOne(c, s, [], Land(w));
      assert [] + [Land(w)] == [Land(w)];
      ExecOne(c, s, [Land(w)], unheard);
    } else {
      var a := if fate.Answered? then heard else unheard;
      ExecOne(c, s, [], a);
      assert [] + [a] == ReplyActions(heard, unheard, w, fate);
    }
  }

  /** The last leg of an Acquire: the write is sent and its fate decides. */
  lemma {:induction false} WriteIsARun(c: Config, s: State, id: string, now: int, w: Write, fate: Fate)
    requires id in c.ttl && id in s.electors && s.electors[id].phase == Writing(now, w)
    requires w in s.sent && w.id == id && w.now == now
    ensures var s', e := Exec(c, s, ReplyActions(WriteReply(id, true), WriteReply(id, false), w, fate)), s.electors[id];
      var (kv', reply) := Call(s.kv, c.key, Stamp(id, now, c.ttl[id]), w.mode, fate);
      var v := Outcome(reply);
      && s'.kv == kv'
      && s'.electors == s.electors[id :=
          if v.Granted? then LeaseProtocol.Elector(true, v.token, now + c.ttl[id], Idle, e.clock) else e.(phase := Idle)]
      && s'.answers == s.answers + (if v.Granted? then {Answer(id, now, now + c.ttl[id])} else {})
  {
    ReplyRun(c, s, WriteReply(id, true), WriteReply(id, false), w, fate);
  }

  /** The Get leg decides as SharedAcquire does: give up, or send the same write. */
  lemma GetDecides(c: Config, s: State, id: string, now: int, f: Faults)
    requires id in c.ttl && id in s.electors && s.electors[id].phase == Reading(now)
    ensures var s1, e := Next(c, s, GetReply(id, f.get)), s.electors[id];
      var (kv', v) := SharedAcquire(s.kv, c.key, c.createSupported, id, now, c.ttl[id], f);
      var acts := AcquireActions(c, s, id, now, f);
      && s1.kv == s.kv && s1.answers == s.answers && id in s1.electors
      && match s1.electors[id].phase
         case Writing(t, w) =>
           && t == now && w.id == id && w.now == now && w in s1.sent
           && s1.electors == s.electors[id := e.(phase := Writing(now, w))]
           && acts == [GetReply(id, f.get)] + ReplyActions(WriteReply(id, true), WriteReply(id, false), w, f.write)
           && var (kv2, reply) := Call(s.kv, c.key, Stamp(id, now, c.ttl[id]), w.mode, f.write);
              kv' == kv2 && v == Outcome(reply)
         case _ =>
           && s1.electors == s.electors[id := e.(phase := Idle)]
           && acts == [GetReply(id, f.get)]
           && kv' == s.kv && !v.Granted?
  {
  }

  lemma {:induction false} AcquireIsARun(c: Config, s: State, id: string, now: int, f: Faults)
    requires id in c.ttl && id in s.electors && s.electors[id].phase == Reading(now)
    ensures var s', e := Exec(c, s, AcquireActions(c, s, id, now, f)), s.electors[id];
      var (kv', v) := SharedAcquire(s.kv, c.key, c.createSupported, id, now, c.ttl[id], f);
      && s'.kv == kv'
      && s'.electors == s.electors[id :=
          if v.Granted? then LeaseProtocol.Elector(true, v.token, now + c.ttl[id], Idle, e.clock) else e.(phase := Idle)]
      && s'.answers == s.answers + (if v.Granted? then {Answer(id, now, now + c.ttl[id])} else {})
  {
    var get := GetReply(id, f.get);
    var s1 := Next(c, s, get);
    GetDecides(c, s, id, now, f);
    assert Exec(c, s, [get]) == s1 by {
      ExecOne(c, s, [], get);
      assert [] + [get] == [get];
    }
    if s1.electors[id].phase.Writing? {
      var w := s1.electors[id].phase.w;
      WriteIsARun(c, s1, id, now, w, f.write);
      ExecSplit(c, s, [get], ReplyActions(WriteReply(id, true), WriteReply(id, false), w, f.write));
      assert s.electors[id := s1.electors[id]][id := Exec(c, s, AcquireActions(c, s, id, now, f)).electors[id]]
        == s.electors[id := Exec(c, s, AcquireActions(c, s, id, now, f)).electors[id]];
    }
  }

  function RenewActions(id: string, now: int, token: int, fate: Fate): seq<Action> {
    [Begin(id, now)] + ReplyActions(RenewReply(id, true), RenewReply(id, false), Write(id, now, Cas(token)), fate)
  }

  /** The renewal is sent and its fate decides. */
  lemma {:induction false} RenewFate(c: Config, s: State, id: string, now: int, fate: Fate)
    requires id in c.ttl && id in s.electors && s.electors[id].phase == Renewing(now)
    requires Write(id, now, Cas(s.electors[id].token)) in s.sent
    ensures var e := s.electors[id];
      var w := Write(id, now, Cas(e.token));
      var s' := Exec(c, s, ReplyActions(RenewReply(id, true), RenewReply(id, false), w, fate));
      var (kv', reply) := Call(s.kv, c.key, Stamp(id, now, c.ttl[id]), w.mode, fate);
      var s1 := Renewed(s.(kv := kv'), id, e, now, c.ttl[id], reply);
      s'.kv == s1.kv && s'.electors == s1.electors && s'.answers == s1.answers
  {
    var w := Write(id, now, Cas(s.electors[id].token));
    ReplyRun(c, s, RenewReply(id, true), RenewReply(id, false), w, fate);
  }

  lemma {:induction false} RenewIsARun(c: Config, s: State, id: string, now: int, f: Faults, acquiredAt: int)
    requires id in c.ttl && id in s.electors
    requires s.electors[id].phase.Idle? && s.electors[id].clock <= now && s.electors[id].leader
    ensures var s', e := Exec(c, s, RenewActions(id, now, s.electors[id].token, f.renew)), s.electors[id];
      var (kv', v) := SharedRenew(s.kv, c.key, id, e.token, now, c.ttl[id], f);
      var (seat', done) := AfterRenew(SeatOf(e, acquiredAt), now, c.ttl[id], v);
      && s'.kv == kv'
      && s'.electors.Keys == s.electors.Keys
      && SeatOf(s'.electors[id], acquiredAt) == seat'
      && s'.electors[id].phase == (if done.Some? then Idle else Reading(now))
      && s'.answers == s.answers + (if done.Some? then {Answer(id, now, seat'.expiry)} else {})
  {
    var begin, token := Begin(id, now), s.electors[id].token;
    var w := Write(id, now, Cas(token));
    var s1 := Next(c, s, begin);
    assert Exec(c, s, [begin]) == s1 by {
      ExecOne(c, s, [], begin);
      assert [] + [begin] == [begin];
    }
    assert s1.electors[id] == s.electors[id].(phase := Renewing(now), clock := now);
    RenewFate(c, s1, id, now, f.renew);
    ExecSplit(c, s, [begin], ReplyActions(RenewReply(id, true), RenewReply(id, false), w, f.renew));
  }

  /** Steps that left `id` about to acquire, and then its Acquire. */
  lemma ThenAcquires(c: Config, s: State, first: seq<Action>, id: string, now: int, f: Faults) returns (acts: seq<Action>)
    requires id in c.ttl && id in Exec(c, s, first).electors && Exec(c, s, first).electors[id].phase == Reading(now)
    ensures var s1, s' := Exec(c, s, first), Exec(c, s, acts);
      var (kv', v) := SharedAcquire(s1.kv, c.key, c.createSupported, id, now, c.ttl[id], f);
      && s'.kv == kv' && id in s'.electors
      && s'.electors[id] == (if v.Granted? then LeaseProtocol.Elector(true, v.token, now + c.ttl[id], Idle, s1.electors[id].clock)
                             else s1.electors[id].(phase := Idle))
      && s'.answers == s1.answers + (if v.Granted? then {Answer(id, now, now + c.ttl[id])} else {})
  {
    var s1 := Exec(c, s, first);
    acts := first + AcquireActions(c, s1, id, now, f);
    AcquireIsARun(c, s1, id, now, f);
    ExecSplit(c, s, first, AcquireActions(c, s1, id, now, f));
  }

  /** What a run that answers a Step has in common with the Step. */
  predicate Answers(c: Config, s: State, s': State, id: string, now: int, kv': Kv<Value>, seat': Seat, r: bool) {
    && s'.kv == kv'
    && id in s'.electors && s'.electors[id].phase.Idle?
    && SeatOf(s'.electors[id], seat'.acquiredAt) == seat'
    && s'.answers == s.answers + (if r then {Answer(id, now, seat'.expiry)} else {})
  }

  lemma LeaderStepIsARun(c: Config, s: State, id: string, now: int, f: Faults, acquiredAt: int) returns (acts: seq<Action>)
    requires id in c.ttl && id in s.electors && s.electors[id].leader
    requires s.electors[id].phase.Idle? && s.electors[id].clock <= now
    ensures var (kv', seat', r) :=
        SharedStep(s.kv, c.key, c.createSupported, SeatOf(s.electors[id], acquiredAt), id, now, c.ttl[id], f);
      Answers(c, s, Exec(c, s, acts), id, now, kv', seat', r)
  {
    acts := RenewActions(id, now, s.electors[id].token, f.renew);
    RenewIsARun(c, s, id, now, f, acquiredAt);
    if !Exec(c, s, acts).electors[id].phase.Idle? {
      acts := ThenAcquires(c, s, acts, id, now, f);
    }
  }

  lemma FollowerStepIsARun(c: Config, s: State, id: string, now: int, f: Faults, acquiredAt: int) returns (acts: seq<Action>)
    requires id in c.ttl && id in s.electors && !s.electors[id].leader
    requires s.electors[id].phase.Idle? && s.electors[id].clock <= now
    ensures var (kv', seat', r) :=
        SharedStep(s.kv, c.key, c.createSupported, SeatOf(s.electors[id], acquiredAt), id, now, c.ttl[id], f);
      Answers(c, s, Exec(c, s, acts), id, now, kv', seat', r)
  {
    ExecOne(c, s, [], Begin(id, now));
    assert [] + [Begin(id, now)] == [Begin(id, now)];
    acts := ThenAcquires(c, s, [Begin(id, now)], id, now, f);
  }

  /** Refinement: from any state with `id` between Steps, a whole Elector.Step (renewal, fallback to
      Acquire, every fate of every call) is some sequence of protocol steps with the same store, the
      same elector fields and the same answer. So the protocol's safety is the Elector's. */
  lemma StepIsARun(c: Config, s: State, id: string, now: int, f: Faults, acquiredAt: int) returns (acts: seq<Action>)
    requires id in c.ttl && id in s.electors
    requires s.electors[id].phase.Idle? && s.electors[id].clock <= now
    ensures var (kv', seat', r) :=
        SharedStep(s.kv, c.key, c.createSupported, SeatOf(s.electors[id], acquiredAt), id, now, c.ttl[id], f);
      Answers(c, s, Exec(c, s, acts), id, now, kv', seat', r)
  {
    if s.electors[id].leader {
      acts := LeaderStepIsARun(c, s, id, now, f, acquiredAt);
    } else {
      acts := FollowerStepIsARun(c, s, id, now, f, acquiredAt);
    }
  }

  /** An Acquire over the shared store that nothing disturbs is granted exactly where nobody else's lease still
      runs, in whole milliseconds: on an absent key, an undecodable or released record, the candidate's own,
      or one whose expiry has come. It then has the store's newest revision for its token and its own record
      stored; otherwise it is refused and changes nothing. */
  lemma AcquireGrantedIff(kv: Kv<Value>, key: string, create: bool, id: string, now: int, ttl: nat)
    ensures var (kv', v) := SharedAcquire(kv, key, create, id, now, ttl, Faults(Answered, true, Answered));
      var free := key !in kv.data || kv.data[key].value.Undecodable?
        || kv.data[key].value.holder in {"", id} || kv.data[key].value.expiryMs <= now / 1_000_000;
      && (free ==>
            && v == Granted(kv.rev + 1) && key in kv'.data
            && kv'.data[key] == Entry(Record(id, (now + ttl) / 1_000_000), kv.rev + 1))
      && (!free ==> v == Refused && kv' == kv)
  {
  }

  // ----- leadership does not flap -----

  /** In one Step the backend answers every call, or none; in an outage a renewal is either carried
      out or dropped. */
  datatype Weather = Up | DownLanded | DownDropped

  datatype Tick = Tick(id: string, now: int, weather: Weather)

  datatype Fleet = Fleet(kv: Kv<Value>, seats: map<string, Seat>)

  function FaultsOf(w: Weather): Faults {
    match w
    case Up => Faults(Answered, true, Answered)
    case DownLanded => Faults(Unacked, false, Dropped)
    case DownDropped => Faults(Dropped, false, Dropped)
  }

  function FleetStep(c: Config, f: Fleet, t: Tick): (Fleet, bool) {
    if t.id in f.seats && t.id in c.ttl then
      var (kv', seat', r) := SharedStep(f.kv, c.key, c.createSupported, f.seats[t.id], t.id, t.now, c.ttl[t.id], FaultsOf(t.weather));
      (Fleet(kv', f.seats[t.id := seat']), r)
    else (f, false)
  }

  function Rounds(c: Config, f: Fleet, ticks: seq<Tick>): Fleet {
    if ticks == [] then f else FleetStep(c, Rounds(c, f, ticks[..|ticks|-1]), ticks[|ticks|-1]).0
  }

  /** The leader steps between its last confirmed write and its own expiry; the others step before
      that expiry in whole milliseconds. */
  predicate InTime(c: Config, f: Fleet, leader: string, t: Tick)
    requires leader in f.seats && leader in c.ttl
  {
    var expiry := f.seats[leader].expiry;
    if t.id == leader then expiry - c.ttl[leader] <= t.now < expiry
    else UnixMilli(t.now) < UnixMilli(expiry)
  }

  /** `leader` is the only leader and the store shows its record, good for at least as long as its
      own expiry. The revision may have moved past its token: a renewal that landed unheard. */
  ghost predicate InOffice(c: Config, f: Fleet, leader: string) {
    && leader in f.seats && leader in c.ttl && leader != ""
    && c.key in f.kv.data
    && f.kv.data[c.key].value.Record?
    && f.kv.data[c.key].value.holder == leader
    && f.kv.data[c.key].value.expiryMs >= UnixMilli(f.seats[leader].expiry)
    && (forall id | id in f.seats :: f.seats[id].leader <==> id == leader)
  }

  /** An Acquire that the guard permits and nothing disturbs makes its elector leader, and puts it in office
      exactly when no other elector still believes it leads. */
  lemma AcquireTakesOfficeIff(c: Config, f: Fleet, t: Tick)
    requires t.weather.Up? && t.id in f.seats && t.id in c.ttl && t.id != "" && !f.seats[t.id].leader
    requires c.key in f.kv.data ==> MayTakeOver(f.kv.data[c.key].value, t.id, t.now)
    ensures FleetStep(c, f, t).1 && FleetStep(c, f, t).0.seats[t.id].leader
    ensures InOffice(c, FleetStep(c, f, t).0, t.id) <==> forall id | id in f.seats && id != t.id :: !f.seats[id].leader
  {
    var f' := FleetStep(c, f, t).0;
    assert f'.seats[t.id] == Seat(true, f.kv.rev + 1, t.now, t.now + c.ttl[t.id]);
    assert c.key in f'.kv.data && f'.kv.data[c.key].value == Stamp(t.id, t.now, c.ttl[t.id]);
    assert forall id | id in f.seats && id != t.id :: id in f'.seats && f'.seats[id] == f.seats[id];
  }

  lemma TickKeepsOffice(c: Config, f: Fleet, leader: string, t: Tick)
    requires InOffice(c, f, leader) && InTime(c, f, leader, t)
    ensures InOffice(c, FleetStep(c, f, t).0, leader)
    ensures FleetStep(c, f, t).1 <==> t.id == leader
  {
    if t.id == leader {
      DivMonotone(MS, f.seats[leader].expiry, t.now + c.ttl[leader]);
    }
  }

  predicate InTimeThroughout(c: Config, f: Fleet, leader: string, ticks: seq<Tick>) {
    ticks != [] ==>
      var rest := ticks[..|ticks|-1];
      var g := Rounds(c, f, rest);
      && InTimeThroughout(c, f, leader, rest)
      && leader in g.seats && leader in c.ttl
      && InTime(c, g, leader, ticks[|ticks|-1])
  }

  /** What each Step of a run returned. */
  function Returned(c: Config, f: Fleet, ticks: seq<Tick>): seq<bool> {
    if ticks == [] then []
    else
      var rest := ticks[..|ticks|-1];
      Returned(c, f, rest) + [FleetStep(c, Rounds(c, f, rest), ticks[|ticks|-1]).1]
  }

  /** No flapping: through any mix of good Steps and outages, whichever unheard renewals landed, the
      leader answers true at every Step and nobody else ever does. */
  lemma {:induction false} LeadershipHolds(c: Config, f: Fleet, leader: string, ticks: seq<Tick>)
    requires InOffice(c, f, leader) && InTimeThroughout(c, f, leader, ticks)
    ensures InOffice(c, Rounds(c, f, ticks), leader)
    ensures |Returned(c, f, ticks)| == |ticks|
    ensures forall i | 0 <= i < |ticks| :: Returned(c, f, ticks)[i] <==> ticks[i].id == leader
  {
    if ticks != [] {
      var n := |ticks| - 1;
      LeadershipHolds(c, f, leader, ticks[..n]);
      TickKeepsOffice(c, Rounds(c, f, ticks[..n]), leader, ticks[n]);
    }
  }

  /** The electors of a configuration before anything has happened. */
  function NewFleet(c: Config): Fleet {
    Fleet(Empty(), map id | id in c.ttl :: Seat(false, 0, 0, 0))
  }

  /** So from the start, the first elector to step while the backend answers takes office and keeps it, as
      long as every later step is in time. */
  lemma FirstStaysLeader(c: Config, first: Tick, ticks: seq<Tick>)
    requires c.Valid() && first.id in c.ttl && first.weather.Up?
    requires InTimeThroughout(c, FleetStep(c, NewFleet(c), first).0, first.id, ticks)
    ensures var r := Returned(c, FleetStep(c, NewFleet(c), first).0, ticks);
      |r| == |ticks| && forall i | 0 <= i < |r| :: r[i] <==> ticks[i].id == first.id
  {
    AcquireTakesOfficeIff(c, NewFleet(c), first);
    LeadershipHolds(c, FleetStep(c, NewFleet(c), first).0, first.id, ticks);
  }

  /** "All or none" is needed. Once a renewal has landed unheard, a Step inside the leader's own lease
      answers true exactly when its renewal stays unheard again, or its Get and its overwrite are
      both answered. */
  lemma StaleTokenHoldsIff(kv: Kv<Value>, key: string, create: bool, seat: Seat, id: string, now: int, ttl: nat, f: Faults)
    requires seat.leader && seat.token > 0 && now < seat.expiry
    requires key in kv.data && kv.data[key].value.Record? && kv.data[key].value.holder == id
    requires kv.data[key].revision != seat.token
    ensures SharedStep(kv, key, create, seat, id, now, ttl, f).2
      <==> !f.renew.Answered? || (f.get && f.write.Answered?)
  {
  }

  // ----- the in-memory lease is safe too -----

  datatype MemTick = MemTick(id: string, now: int)

  /** `chain` records one term for each Step that answered true. */
  datatype MemFleet = MemFleet(lease: MemLease, seats: map<string, Seat>, clocks: map<string, int>, chain: seq<Term>)

  function MemFleetStep(ttl: map<string, nat>, f: MemFleet, t: MemTick): MemFleet {
    if t.id in f.seats && t.id in f.clocks && t.id in ttl && f.clocks[t.id] <= t.now then
      var (lease', seat', r) := MemStep(f.lease, f.seats[t.id], t.id, t.now, ttl[t.id]);
      MemFleet(lease', f.seats[t.id := seat'], f.clocks[t.id := t.now],
               if r then f.chain + [Term(t.id, t.now, ttl[t.id], seat'.token)] else f.chain)
    else f
  }

  function MemRounds(ttl: map<string, nat>, epoch: int, ticks: seq<MemTick>): MemFleet {
    if ticks == [] then
      MemFleet(MemLease("", 0, 0), map id | id in ttl :: Seat(false, 0, 0, 0), map id | id in ttl :: epoch, [])
    else
      MemFleetStep(ttl, MemRounds(ttl, epoch, ticks[..|ticks|-1]), ticks[|ticks|-1])
  }

  ghost predicate MemInv(ttl: map<string, nat>, f: MemFleet) {
    && f.seats.Keys == f.clocks.Keys == ttl.Keys
    && Linked(1, f.chain)
    && (f.lease.holder != "" <==> f.chain != [])
    && (f.chain != [] ==>
          var last := f.chain[|f.chain|-1];
          last.holder == f.lease.holder && Expiry(last) == f.lease.expiry)
    && (forall i | 0 <= i < |f.chain| ::
          f.chain[i].holder in ttl && f.chain[i].ttl == ttl[f.chain[i].holder]
          && f.chain[i].now <= f.clocks[f.chain[i].holder])
  }

  lemma MemStepKeepsInv(ttl: map<string, nat>, f: MemFleet, t: MemTick)
    requires "" !in ttl && MemInv(ttl, f)
    ensures MemInv(ttl, MemFleetStep(ttl, f, t))
  {
  }

  lemma {:induction false} MemRoundsInv(ttl: map<string, nat>, epoch: int, ticks: seq<MemTick>)
    requires "" !in ttl
    ensures MemInv(ttl, MemRounds(ttl, epoch, ticks))
  {
    if ticks != [] {
      var before := ticks[..|ticks|-1];
      MemRoundsInv(ttl, epoch, before);
      MemStepKeepsInv(ttl, MemRounds(ttl, epoch, before), ticks[|ticks|-1]);
    }
  }

  /** Over the in-memory Store the leases of different electors are disjoint to the nanosecond, so one
      statement of the Backend contract (LeaseChain.HandoversWait) covers both implementations. */
  lemma MemAtMostOneLeader(ttl: map<string, nat>, epoch: int, ticks: seq<MemTick>, i: nat, j: nat)
    requires "" !in ttl
    requires var chain := MemRounds(ttl, epoch, ticks).chain;
      i < j < |chain| && chain[i].holder != chain[j].holder
    ensures var chain := MemRounds(ttl, epoch, ticks).chain; Expiry(chain[i]) <= chain[j].now
  {
    MemRoundsInv(ttl, epoch, ticks);
    HandoversWait(1, MemRounds(ttl, epoch, ticks).chain, i, j);
  }

  // ----- and it holds -----

  /** A whole Step over the in-memory Store, told from the lease alone. Where the lease is unheld or has
      expired, the elector takes it under the next version, whatever it believed; where it runs and is the
      elector's own under its token, it is renewed under the same token; otherwise the elector follows. */
  lemma MemStepIff(l: MemLease, seat: Seat, id: string, now: int, ttl: nat)
    requires id != ""
    ensures var (l', seat', r) := MemStep(l, seat, id, now, ttl);
      var lapsed := l.holder == "" || l.expiry <= now;
      var mine := seat.leader && l.holder == id && l.version == seat.token && now < l.expiry;
      && (r <==> lapsed || mine)
      && (lapsed ==> l' == MemLease(id, now + ttl, l.version + 1) && seat' == Seat(true, l.version + 1, now, now + ttl))
      && (mine ==> l' == MemLease(id, now + ttl, l.version) && seat' == Seat(true, seat.token, seat.acquiredAt, now + ttl))
      && (!lapsed && !mine ==> l' == l && seat' == seat.(leader := false))
  {
  }

  /** `leader` holds the running lease under its token, and no other elector believes it leads. */
  ghost predicate MemInOffice(f: MemFleet, leader: string) {
    && leader != "" && leader in f.seats && leader in f.clocks
    && f.lease.holder == leader && f.lease.version == f.seats[leader].token && f.lease.expiry == f.seats[leader].expiry
    && (forall id | id in f.seats :: f.seats[id].leader <==> id == leader)
  }

  /** The step comes before the leader's expiry, and no earlier than the leader's last one if it is its own. */
  predicate MemInTime(f: MemFleet, leader: string, t: MemTick) {
    leader in f.seats && leader in f.clocks && t.now < f.seats[leader].expiry && (t.id == leader ==> f.clocks[leader] <= t.now)
  }

  /** Every step after the first is in time. */
  predicate MemInTimeThroughout(ttl: map<string, nat>, epoch: int, leader: string, ticks: seq<MemTick>) {
    forall k | 1 <= k < |ticks| :: MemInTime(MemRounds(ttl, epoch, ticks[..k]), leader, ticks[k])
  }

  /** One term for each step of the leader, all under the same token. */
  function TermsOf(leader: string, ttl: nat, token: int, ticks: seq<MemTick>): seq<Term> {
    if ticks == [] then []
    else
      var t := ticks[|ticks|-1];
      TermsOf(leader, ttl, token, ticks[..|ticks|-1]) + if t.id == leader then [Term(leader, t.now, ttl, token)] else []
  }

  lemma MemTickKeepsOffice(ttl: map<string, nat>, f: MemFleet, leader: string, t: MemTick)
    requires leader in ttl && "" !in ttl && MemInOffice(f, leader) && MemInTime(f, leader, t)
    ensures var f' := MemFleetStep(ttl, f, t);
      && MemInOffice(f', leader) && f'.seats[leader].token == f.seats[leader].token
      && f'.seats[leader].expiry == (if t.id == leader then t.now + ttl[leader] else f.seats[leader].expiry)
      && f'.chain == f.chain + if t.id == leader then [Term(leader, t.now, ttl[leader], f.seats[leader].token)] else []
  {
    if t.id in f.seats && t.id in ttl {
      MemStepIff(f.lease, f.seats[t.id], t.id, t.now, ttl[t.id]);
    } else {
      assert f.chain + [] == f.chain;
    }
  }

  /** From the start, the first elector to step leads at every later step it makes in time, always under the
      same token and with a lease that runs from that step; and nobody else answers true meanwhile. */
  lemma {:induction false} MemFirstStaysLeader(ttl: map<string, nat>, epoch: int, ticks: seq<MemTick>)
    requires "" !in ttl && ticks != [] && ticks[0].id in ttl && epoch <= ticks[0].now
    requires MemInTimeThroughout(ttl, epoch, ticks[0].id, ticks)
    ensures var leader, f := ticks[0].id, MemRounds(ttl, epoch, ticks);
      && MemInOffice(f, leader) && f.seats[leader].token == 1
      && f.chain == TermsOf(leader, ttl[leader], 1, ticks)
      && f.chain != [] && f.seats[leader].expiry == Expiry(f.chain[|f.chain|-1])
  {
    var leader, n := ticks[0].id, |ticks| - 1;
    if n == 0 {
      assert ticks[..0] == [];
      MemStepIff(MemLease("", 0, 0), Seat(false, 0, 0, 0), leader, ticks[0].now, ttl[leader]);
    } else {
      var init := ticks[..n];
      assert forall k | 1 <= k < n :: init[..k] == ticks[..k];
      MemFirstStaysLeader(ttl, epoch, init);
      assert MemInTime(MemRounds(ttl, epoch, ticks[..n]), leader, ticks[n]);
      MemTickKeepsOffice(ttl, MemRounds(ttl, epoch, init), leader, ticks[n]);
    }
  }
}
