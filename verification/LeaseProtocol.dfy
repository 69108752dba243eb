/** Leader election over a shared compare-and-set store (core/lease/statestore.go driven by
    Elector.Step in core/lease/lease.go) as a system of small steps.

    Any number of electors share one state store. Each Get, Put and CreateIfAbsent is a step of its
    own, so steps of different electors interleave freely. A reply may be lost, and a write that was
    ever sent may be executed by the store at any later moment, more than once, with nobody told.
    An elector may restart under its own id at any moment; it then knows nothing, and its writes may still
    land. Clocks are not shared: an elector's own step times never go back, not over a restart either, and
    nothing else is assumed.

    Times are nanoseconds. The stored expiry is cut down to milliseconds, as UnixMilli does, while an
    elector's own expiry is not. */
module LeaseProtocol {
  import opened Options
  import opened StateLog
  import opened LeaseChain

  const MS: nat := 1_000_000

  function UnixMilli(t: int): int {
    t / MS
  }

  /** What is stored at the lease key; `Undecodable` is anything the JSON decoder rejects. */
  datatype Value = Record(holder: string, expiryMs: int) | Undecodable

  /** How a write is sent: a Put with that if_revision, or a CreateIfAbsent. */
  datatype Mode = Cas(ifRev: int) | Create

  datatype Write = Write(id: string, now: int, mode: Mode)

  /** Where an elector is inside its current Step. */
  datatype Phase =
    | Idle
    | Renewing(now: int)            // the renewal is sent, its reply is awaited
    | Reading(now: int)             // Acquire's Get is outstanding
    | Writing(now: int, w: Write)   // Acquire's write is sent, its reply is awaited

  datatype Elector = Elector(leader: bool, token: int, expiry: int, phase: Phase, clock: int)

  /** A Step that returned true at `now`, with the elector's own lease running to `expiry`. */
  datatype Answer = Answer(id: string, now: int, expiry: int)

  /** `createSupported` says whether the backend has CreateIfAbsent; without it Acquire falls back to
      an unconditional Put. The keys of `ttl` are the electors. */
  datatype Config = Config(key: string, ttl: map<string, nat>, createSupported: bool, epoch: int) {
    ghost predicate Valid() {
      "" !in ttl
    }
  }

  /** `history` (the committed lease writes) and `answers` only record what happened. */
  datatype State = State(
    kv: Kv<Value>,
    electors: map<string, Elector>,
    sent: set<Write>,
    history: seq<Term>,
    answers: set<Answer>)

  datatype Action =
    | Begin(id: string, now: int)
    | RenewReply(id: string, delivered: bool)
    | GetReply(id: string, delivered: bool)
    | WriteReply(id: string, delivered: bool)
    | Restart(id: string)
    | Land(w: Write)
    | OtherKey(cmd: Command<Value>)

  /** An elector that has just been made. */
  function NewElector(c: Config, clock: int): Elector {
    Elector(false, 0, c.epoch, Idle, clock)
  }

  function Init(c: Config): State {
    State(Empty(), map id | id in c.ttl :: NewElector(c, c.epoch), {}, [], {})
  }

  /** StateStore.Acquire's guard: may a candidate at `now` write over what it read? */
  predicate MayTakeOver(v: Value, candidate: string, now: int) {
    !(v.Record? && v.holder != "" && v.holder != candidate && UnixMilli(now) < v.expiryMs)
  }

  function TermOf(c: Config, w: Write, rev: int): Term
    requires w.id in c.ttl
  {
    Term(w.id, w.now, c.ttl[w.id], rev)
  }

  function RecordOf(t: Term): Value {
    Record(t.holder, UnixMilli(Expiry(t)))
  }

  /** What the store does with one write. */
  function Execute(kv: Kv<Value>, key: string, v: Value, mode: Mode): (Kv<Value>, Reply) {
    match mode
    case Cas(ifRev) => KvPut(kv, key, v, ifRev)
    case Create => KvCreate(kv, key, v)
  }

  function Deliver(c: Config, s: State, w: Write): (State, Reply)
    requires w.id in c.ttl
  {
    var (kv', reply) := Execute(s.kv, c.key, RecordOf(TermOf(c, w, 0)), w.mode);
    (s.(kv := kv',
        history := if reply.committed then s.history + [TermOf(c, w, reply.revision)] else s.history),
     reply)
  }

  function Send(s: State, id: string, e: Elector, w: Write): State {
    s.(electors := s.electors[id := e], sent := s.sent + {w})
  }

  function AnswerTrue(s: State, id: string, now: int, e: Elector): State {
    s.(electors := s.electors[id := e], answers := s.answers + {Answer(id, now, e.expiry)})
  }

  function Begun(s: State, id: string, e: Elector, now: int): State {
    if e.leader then
      Send(s, id, e.(phase := Renewing(now), clock := now), Write(id, now, Cas(e.token)))
    else
      s.(electors := s.electors[id := e.(phase := Reading(now), clock := now)])
  }

  /** The renewal's reply (None: lost) decides between renewed, held through, and stepping down
      into an Acquire within the same Step. */
  function Renewed(s: State, id: string, e: Elector, now: int, ttl: nat, reply: Option<Reply>): State {
    match reply
    case Some(r) =>
      if r.committed then
        AnswerTrue(s, id, now, e.(token := r.revision, expiry := now + ttl, phase := Idle))
      else
        s.(electors := s.electors[id := e.(leader := false, phase := Reading(now))])
    case None =>
      if now < e.expiry then
        AnswerTrue(s, id, now, e.(phase := Idle))
      else
        s.(electors := s.electors[id := e.(leader := false, phase := Reading(now))])
  }

  /** Acquire's read succeeded: refuse, or send the write that fits what was read. */
  function Observed(c: Config, s: State, id: string, e: Elector, now: int): State {
    if c.key in s.kv.data then
      var entry := s.kv.data[c.key];
      if MayTakeOver(entry.value, id, now) then
        var w := Write(id, now, Cas(entry.revision));
        Send(s, id, e.(phase := Writing(now, w)), w)
      else
        s.(electors := s.electors[id := e.(phase := Idle)])
    else
      var w := Write(id, now, if c.createSupported then Create else Cas(0));
      Send(s, id, e.(phase := Writing(now, w)), w)
  }

  function Acquired(s: State, id: string, e: Elector, now: int, ttl: nat, reply: Option<Reply>): State {
    if reply.Some? && reply.value.committed then
      AnswerTrue(s, id, now, Elector(true, reply.value.revision, now + ttl, Idle, e.clock))
    else
      s.(electors := s.electors[id := e.(phase := Idle)])
  }

  /** One step. An action that is not possible in `s` changes nothing. */
  function Next(c: Config, s: State, a: Action): State {
    match a
    case Begin(id, now) =>
      if id in s.electors && s.electors[id].phase.Idle? && s.electors[id].clock <= now then
        Begun(s, id, s.electors[id], now)
      else s
    case RenewReply(id, delivered) =>
      if id in s.electors && id in c.ttl && s.electors[id].phase.Renewing? then
        var e := s.electors[id];
        var now := e.phase.now;
        if delivered then
          var (s', reply) := Deliver(c, s, Write(id, now, Cas(e.token)));
          Renewed(s', id, e, now, c.ttl[id], Some(reply))
        else
          Renewed(s, id, e, now, c.ttl[id], None)
      else s
    case GetReply(id, delivered) =>
      if id in s.electors && s.electors[id].phase.Reading? then
        var e := s.electors[id];
        if delivered then Observed(c, s, id, e, e.phase.now)
        else s.(electors := s.electors[id := e.(phase := Idle)])
      else s
    case WriteReply(id, delivered) =>
      if id in s.electors && id in c.ttl && s.electors[id].phase.Writing? && s.electors[id].phase.w.id == id then
        var e := s.electors[id];
        if delivered then
          var (s', reply) := Deliver(c, s, e.phase.w);
          Acquired(s', id, e, e.phase.now, c.ttl[id], Some(reply))
        else
          Acquired(s, id, e, e.phase.now, c.ttl[id], None)
      else s
    case Restart(id) =>
      if id in s.electors then s.(electors := s.electors[id := NewElector(c, s.electors[id].clock)]) else s
    case Land(w) =>
      if w in s.sent && w.id in c.ttl then Deliver(c, s, w).0 else s
    case OtherKey(cmd) =>
      if cmd.key != c.key then s.(kv := Apply(s.kv, cmd).0) else s
  }

  function Exec(c: Config, s: State, acts: seq<Action>): State {
    if acts == [] then s else Next(c, Exec(c, s, acts[..|acts|-1]), acts[|acts|-1])
  }

  lemma ExecOne(c: Config, s: State, acts: seq<Action>, a: Action)
    ensures Exec(c, s, acts + [a]) == Next(c, Exec(c, s, acts), a)
  {
    assert (acts + [a])[..|acts|] == acts;
  }

  lemma {:induction false} ExecSplit(c: Config, s: State, xs: seq<Action>, ys: seq<Action>)
    ensures Exec(c, s, xs + ys) == Exec(c, Exec(c, s, xs), ys)
  {
    if ys == [] {
      assert xs + ys == xs;
    } else {
      var n := |ys| - 1;
      ExecSplit(c, s, xs, ys[..n]);
      assert (xs + ys)[..|xs + ys|-1] == xs + ys[..n];
    }
  }

  // ----- the invariant -----

  /** The store holds exactly the last term of the history, under its revision. */
  ghost predicate StoreMatches(c: Config, kv: Kv<Value>, history: seq<Term>) {
    && (c.key in kv.data <==> history != [])
    && (history != [] ==>
          var last := history[|history|-1];
          && kv.data[c.key].value == RecordOf(last)
          && kv.data[c.key].revision == last.rev <= kv.rev)
    && (forall i | 0 <= i < |history| :: history[i].rev >= 1)
    && (forall i, j | 0 <= i < j < |history| :: history[i].rev < history[j].rev)
  }

  /** The write rests on a term it may follow: it was conditioned on that term's revision. */
  ghost predicate Grounded(c: Config, history: seq<Term>, w: Write)
    requires w.id in c.ttl
  {
    w.mode.Cas? ==>
      exists i :: 0 <= i < |history| && history[i].rev == w.mode.ifRev && Follows(MS, history[i], TermOf(c, w, 0))
  }

  /** Some committed write of `id`, made no later than `now`, runs to `expiry`. */
  ghost predicate Backed(history: seq<Term>, id: string, now: int, expiry: int) {
    exists i :: 0 <= i < |history| && history[i].holder == id && history[i].now <= now && Expiry(history[i]) == expiry
  }

  ghost predicate LeaderBacked(history: seq<Term>, id: string, e: Elector) {
    e.leader ==>
      exists i :: 0 <= i < |history| && history[i].holder == id && history[i].rev == e.token
        && history[i].now <= e.clock && Expiry(history[i]) == e.expiry
  }

  ghost predicate PhaseOk(sent: set<Write>, id: string, e: Elector) {
    match e.phase
    case Idle => true
    case Renewing(now) => e.leader && now == e.clock && Write(id, now, Cas(e.token)) in sent
    case Reading(now) => now == e.clock
    case Writing(now, w) => now == e.clock && w.id == id && w.now == now && w in sent
  }

  ghost predicate HistoryOk(c: Config, history: seq<Term>) {
    && Linked(MS, history)
    && (forall i | 0 <= i < |history| ::
          && history[i].holder in c.ttl
          && history[i].ttl == c.ttl[history[i].holder])
  }

  ghost predicate SentOk(c: Config, s: State) {
    forall w | w in s.sent ::
      w.id in c.ttl && w.id in s.electors && w.now <= s.electors[w.id].clock && Grounded(c, s.history, w)
  }

  ghost predicate ElectorsOk(c: Config, s: State) {
    && s.electors.Keys == c.ttl.Keys
    && (forall id | id in s.electors ::
          LeaderBacked(s.history, id, s.electors[id]) && PhaseOk(s.sent, id, s.electors[id]))
    && (forall i | 0 <= i < |s.history| ::
          s.history[i].holder in s.electors && s.history[i].now <= s.electors[s.history[i].holder].clock)
  }

  ghost predicate AnswersOk(c: Config, s: State) {
    forall a | a in s.answers :: a.id in c.ttl && Backed(s.history, a.id, a.now, a.expiry)
  }

  ghost predicate Inv(c: Config, s: State) {
    && StoreMatches(c, s.kv, s.history)
    && HistoryOk(c, s.history)
    && ElectorsOk(c, s)
    && SentOk(c, s)
    && AnswersOk(c, s)
  }

  lemma DeliverMatches(c: Config, s: State, w: Write)
    requires w.id in c.ttl && StoreMatches(c, s.kv, s.history)
    ensures StoreMatches(c, Deliver(c, s, w).0.kv, Deliver(c, s, w).0.history)
  {
  }

  /** Executing a sent write, whenever that happens, adds at most one properly linked term. */
  lemma DeliverKeepsInv(c: Config, s: State, w: Write)
    requires c.Valid() && c.createSupported && Inv(c, s) && w in s.sent
    ensures var (s', reply) := Deliver(c, s, w);
      && Inv(c, s')
      && s'.electors == s.electors && s'.sent == s.sent && s'.answers == s.answers
      && s.history <= s'.history
      && (reply.committed ==>
            |s'.history| > 0 && s'.history[|s'.history|-1] == TermOf(c, w, reply.revision))
  {
    var (s', reply) := Deliver(c, s, w);
    DeliverMatches(c, s, w);
    if reply.committed {
      var h, h' := s.history, s'.history;
      assert h' == h + [TermOf(c, w, reply.revision)];
      LinkExtends(c, s, w, reply.revision);
      GrowthKeeps(c, s, s');
    }
  }

  /** What rests on terms of the history still does when it grows. */
  lemma GrowthKeeps(c: Config, s: State, s': State)
    requires Inv(c, s) && s.history <= s'.history
    requires s'.electors == s.electors && s'.sent == s.sent && s'.answers == s.answers
    ensures SentOk(c, s') && AnswersOk(c, s') && forall id | id in s.electors :: LeaderBacked(s'.history, id, s.electors[id])
  {
    var h, h' := s.history, s'.history;
    forall v | v in s.sent ensures Grounded(c, h', v) {
      assert Grounded(c, h, v);
      GroundedGrows(c, h, h', v);
    }
    forall id | id in s.electors ensures LeaderBacked(h', id, s.electors[id]) {
      LeaderBackedGrows(h, h', id, s.electors[id]);
    }
    forall a | a in s.answers ensures Backed(h', a.id, a.now, a.expiry) {
      BackedGrows(h, h', a.id, a.now, a.expiry);
    }
  }

  lemma LinkExtends(c: Config, s: State, w: Write, rev: nat)
    requires c.createSupported && Inv(c, s) && w in s.sent
    requires Execute(s.kv, c.key, RecordOf(TermOf(c, w, 0)), w.mode).1 == Reply(true, rev)
    ensures HistoryOk(c, s.history + [TermOf(c, w, rev)])
  {
    var h, n := s.history, |s.history|;
    if n > 0 {
      assert Grounded(c, h, w);
      var i :| 0 <= i < n && h[i].rev == w.mode.ifRev && Follows(MS, h[i], TermOf(c, w, 0));
      assert i == n - 1;
      assert Follows(MS, h[n-1], TermOf(c, w, rev));
    }
  }

  lemma GroundedGrows(c: Config, h: seq<Term>, h': seq<Term>, w: Write)
    requires w.id in c.ttl && h <= h' && Grounded(c, h, w)
    ensures Grounded(c, h', w)
  {
    if w.mode.Cas? {
      var i :| 0 <= i < |h| && h[i].rev == w.mode.ifRev && Follows(MS, h[i], TermOf(c, w, 0));
      assert h'[i] == h[i];
    }
  }

  lemma LeaderBackedGrows(h: seq<Term>, h': seq<Term>, id: string, e: Elector)
    requires h <= h' && LeaderBacked(h, id, e)
    ensures LeaderBacked(h', id, e)
  {
    if e.leader {
      var i :| 0 <= i < |h| && h[i].holder == id && h[i].rev == e.token
        && h[i].now <= e.clock && Expiry(h[i]) == e.expiry;
      assert h'[i] == h[i];
    }
  }

  lemma BackedGrows(h: seq<Term>, h': seq<Term>, id: string, now: int, expiry: int)
    requires h <= h' && Backed(h, id, now, expiry)
    ensures Backed(h', id, now, expiry)
  {
    var i :| 0 <= i < |h| && h[i].holder == id && h[i].now <= now && Expiry(h[i]) == expiry;
    assert h'[i] == h[i];
  }

  /** Sending a grounded write keeps the invariant; nothing has happened at the store yet. */
  lemma SendKeepsInv(c: Config, s: State, id: string, e: Elector, w: Write)
    requires Inv(c, s) && id in s.electors
    requires w.id == id && w.now == e.clock && s.electors[id].clock <= e.clock && Grounded(c, s.history, w)
    requires e.(phase := Idle, clock := 0) == s.electors[id].(phase := Idle, clock := 0)
    requires PhaseOk({w}, id, e)
    ensures Inv(c, Send(s, id, e, w))
  {
    assert LeaderBacked(s.history, id, s.electors[id]);
    if e.leader {
      var h := s.history;
      var i :| 0 <= i < |h| && h[i].holder == id && h[i].rev == e.token && h[i].now <= s.electors[id].clock && Expiry(h[i]) == e.expiry;
      assert LeaderBacked(h, id, e);
    }
  }

  lemma BeginKeepsInv(c: Config, s: State, id: string, now: int)
    requires c.Valid() && Inv(c, s)
    ensures Inv(c, Next(c, s, Begin(id, now)))
  {
    if id in s.electors && s.electors[id].phase.Idle? && s.electors[id].clock <= now {
      var e, h := s.electors[id], s.history;
      assert LeaderBacked(h, id, e);
      if e.leader {
        var w := Write(id, now, Cas(e.token));
        var i :| 0 <= i < |h| && h[i].holder == id && h[i].rev == e.token && h[i].now <= e.clock && Expiry(h[i]) == e.expiry;
        assert Follows(MS, h[i], TermOf(c, w, 0));
        SendKeepsInv(c, s, id, e.(phase := Renewing(now), clock := now), w);
      }
    }
  }

  /** An elector that holds a committed write running to its expiry may answer true. */
  lemma AnswerKeepsInv(c: Config, s: State, id: string, now: int, e: Elector)
    requires Inv(c, s) && id in s.electors
    requires e.leader && e.phase.Idle? && e.clock == now == s.electors[id].clock
    requires LeaderBacked(s.history, id, e)
    ensures Inv(c, AnswerTrue(s, id, now, e))
  {
    var s' := AnswerTrue(s, id, now, e);
    assert Backed(s.history, id, now, e.expiry);
    assert forall k | k in s.electors :: s'.electors[k].clock == s.electors[k].clock;
  }

  /** An elector may always go back to a phase that promises nothing, or drop leadership. */
  lemma RetreatKeepsInv(c: Config, s: State, id: string, e: Elector)
    requires Inv(c, s) && id in s.electors
    requires !e.leader || e.(phase := s.electors[id].phase) == s.electors[id]
    requires e.phase.Idle? || (e.phase == Reading(e.clock))
    requires e.clock == s.electors[id].clock
    ensures Inv(c, s.(electors := s.electors[id := e]))
  {
    assert LeaderBacked(s.history, id, s.electors[id]);
    assert LeaderBacked(s.history, id, e);
  }

  lemma CommitBacksLeader(c: Config, history: seq<Term>, id: string, e: Elector)
    requires id in c.ttl && |history| > 0
    requires history[|history|-1] == Term(id, e.clock, c.ttl[id], e.token)
    requires e.expiry == e.clock + c.ttl[id]
    ensures LeaderBacked(history, id, e)
  {
    var last := history[|history|-1];
    assert Expiry(last) == e.expiry;
  }

  /** An elector whose write was just committed may answer true. */
  lemma CommitAnswers(c: Config, s: State, id: string, e: Elector, now: int)
    requires Inv(c, s) && id in s.electors && id in c.ttl
    requires e.leader && e.phase.Idle? && e.clock == now == s.electors[id].clock && e.expiry == now + c.ttl[id]
    requires |s.history| > 0 && s.history[|s.history|-1] == Term(id, now, c.ttl[id], e.token)
    ensures Inv(c, AnswerTrue(s, id, now, e))
  {
    CommitBacksLeader(c, s.history, id, e);
    AnswerKeepsInv(c, s, id, now, e);
  }

  /** What becomes of an elector at a reply: it answers true or it retreats. */
  lemma RenewedIs(c: Config, s: State, id: string, e: Elector, now: int, reply: Option<Reply>) returns (e': Elector)
    requires id in c.ttl && e.leader && e.clock == now
    ensures var committed := reply.Some? && reply.value.committed;
      var held := reply.None? && now < e.expiry;
      && Renewed(s, id, e, now, c.ttl[id], reply) ==
           (if committed || held then AnswerTrue(s, id, now, e') else s.(electors := s.electors[id := e']))
      && (committed ==> e' == e.(token := reply.value.revision, expiry := now + c.ttl[id], phase := Idle))
      && (held ==> e' == e.(phase := Idle))
      && (!committed && !held ==> e' == e.(leader := false, phase := Reading(now)))
  {
    e' := if reply.Some? && reply.value.committed then e.(token := reply.value.revision, expiry := now + c.ttl[id], phase := Idle)
          else if reply.None? && now < e.expiry then e.(phase := Idle)
          else e.(leader := false, phase := Reading(now));
  }

  lemma RenewedKeepsInv(c: Config, s: State, id: string, e: Elector, now: int, reply: Option<Reply>)
    requires Inv(c, s) && id in s.electors && id in c.ttl && s.electors[id] == e && e.leader && e.clock == now
    requires reply.Some? && reply.value.committed ==>
      |s.history| > 0 && s.history[|s.history|-1] == Term(id, now, c.ttl[id], reply.value.revision)
    ensures Inv(c, Renewed(s, id, e, now, c.ttl[id], reply))
  {
    var e' := RenewedIs(c, s, id, e, now, reply);
    if reply.Some? && reply.value.committed {
      CommitAnswers(c, s, id, e', now);
    } else if reply.None? && now < e.expiry {
      assert LeaderBacked(s.history, id, e);
      AnswerKeepsInv(c, s, id, now, e');
    } else {
      RetreatKeepsInv(c, s, id, e');
    }
  }

  lemma AcquiredKeepsInv(c: Config, s: State, id: string, e: Elector, now: int, reply: Option<Reply>)
    requires Inv(c, s) && id in s.electors && id in c.ttl && s.electors[id] == e && e.clock == now
    requires reply.Some? && reply.value.committed ==>
      |s.history| > 0 && s.history[|s.history|-1] == Term(id, now, c.ttl[id], reply.value.revision)
    ensures Inv(c, Acquired(s, id, e, now, c.ttl[id], reply))
  {
    if reply.Some? && reply.value.committed {
      var e' := Elector(true, reply.value.revision, now + c.ttl[id], Idle, e.clock);
      assert Acquired(s, id, e, now, c.ttl[id], reply) == AnswerTrue(s, id, now, e');
      CommitAnswers(c, s, id, e', now);
    } else {
      assert Acquired(s, id, e, now, c.ttl[id], reply) == s.(electors := s.electors[id := e.(phase := Idle)]);
      IdleKeepsInv(c, s, id);
    }
  }

  lemma RenewReplyKeepsInv(c: Config, s: State, id: string, delivered: bool)
    requires c.Valid() && c.createSupported && Inv(c, s)
    ensures Inv(c, Next(c, s, RenewReply(id, delivered)))
  {
    if id in s.electors && s.electors[id].phase.Renewing? {
      var e := s.electors[id];
      var now := e.phase.now;
      assert PhaseOk(s.sent, id, e);
      if delivered {
        var w := Write(id, now, Cas(e.token));
        DeliverKeepsInv(c, s, w);
        var (s1, reply) := Deliver(c, s, w);
        RenewedKeepsInv(c, s1, id, e, now, Some(reply));
      } else {
        RenewedKeepsInv(c, s, id, e, now, None);
      }
    }
  }

  /** A takeover the guard permits is grounded in the term it read. */
  lemma TakeoverGrounded(c: Config, s: State, id: string, now: int)
    requires c.Valid() && Inv(c, s) && id in s.electors && s.electors[id].clock == now
    requires c.key in s.kv.data && MayTakeOver(s.kv.data[c.key].value, id, now)
    ensures Grounded(c, s.history, Write(id, now, Cas(s.kv.data[c.key].revision)))
  {
    var n, w := |s.history|, Write(id, now, Cas(s.kv.data[c.key].revision));
    assert s.history[n-1].holder in c.ttl;
    assert Follows(MS, s.history[n-1], TermOf(c, w, 0));
  }

  lemma GetReplyKeepsInv(c: Config, s: State, id: string, delivered: bool)
    requires c.Valid() && c.createSupported && Inv(c, s)
    ensures Inv(c, Next(c, s, GetReply(id, delivered)))
  {
    if id in s.electors && s.electors[id].phase.Reading? {
      var e := s.electors[id];
      var now := e.phase.now;
      assert PhaseOk(s.sent, id, e);
      if delivered && c.key in s.kv.data && MayTakeOver(s.kv.data[c.key].value, id, now) {
        var w := Write(id, now, Cas(s.kv.data[c.key].revision));
        TakeoverGrounded(c, s, id, now);
        SendKeepsInv(c, s, id, e.(phase := Writing(now, w)), w);
      } else if delivered && c.key !in s.kv.data {
        var w := Write(id, now, Create);
        SendKeepsInv(c, s, id, e.(phase := Writing(now, w)), w);
      } else {
        IdleKeepsInv(c, s, id);
      }
    }
  }

  lemma IdleKeepsInv(c: Config, s: State, id: string)
    requires Inv(c, s) && id in s.electors
    ensures Inv(c, s.(electors := s.electors[id := s.electors[id].(phase := Idle)]))
  {
    assert LeaderBacked(s.history, id, s.electors[id]);
    assert LeaderBacked(s.history, id, s.electors[id].(phase := Idle));
  }

  lemma WriteReplyKeepsInv(c: Config, s: State, id: string, delivered: bool)
    requires c.Valid() && c.createSupported && Inv(c, s)
    ensures Inv(c, Next(c, s, WriteReply(id, delivered)))
  {
    if id in s.electors && s.electors[id].phase.Writing? {
      var e := s.electors[id];
      assert PhaseOk(s.sent, id, e);
      if delivered {
        DeliverKeepsInv(c, s, e.phase.w);
        var (s1, reply) := Deliver(c, s, e.phase.w);
        AcquiredKeepsInv(c, s1, id, e, e.phase.now, Some(reply));
      } else {
        AcquiredKeepsInv(c, s, id, e, e.phase.now, None);
      }
    }
  }

  lemma NextKeepsInv(c: Config, s: State, a: Action)
    requires c.Valid() && c.createSupported && Inv(c, s)
    ensures Inv(c, Next(c, s, a))
  {
    match a
    case Begin(id, now) => BeginKeepsInv(c, s, id, now);
    case RenewReply(id, delivered) => RenewReplyKeepsInv(c, s, id, delivered);
    case GetReply(id, delivered) => GetReplyKeepsInv(c, s, id, delivered);
    case WriteReply(id, delivered) => WriteReplyKeepsInv(c, s, id, delivered);
    case Restart(id) => if id in s.electors { RetreatKeepsInv(c, s, id, NewElector(c, s.electors[id].clock)); }
    case Land(w) => if w in s.sent { DeliverKeepsInv(c, s, w); }
    case OtherKey(cmd) =>
  }

  lemma {:induction false} ExecKeepsInv(c: Config, acts: seq<Action>)
    requires c.Valid() && c.createSupported
    ensures Inv(c, Exec(c, Init(c), acts))
  {
    if acts != [] {
      ExecKeepsInv(c, acts[..|acts|-1]);
      NextKeepsInv(c, Exec(c, Init(c), acts[..|acts|-1]), acts[|acts|-1]);
    }
  }

  // ----- safety -----

  /** Half-open intervals [now, expiry) that do not meet, counted in whole `unit`s. */
  predicate Apart(unit: nat, a: Answer, b: Answer)
    requires unit > 0
  {
    a.expiry / unit <= b.now / unit || b.expiry / unit <= a.now / unit
  }

  /** Safety: whatever the interleaving, losses, restarts and late writes, two electors that ever answered
      true did so over leases that are disjoint in whole milliseconds. */
  lemma AtMostOneLeader(c: Config, acts: seq<Action>, a: Answer, b: Answer)
    requires c.Valid() && c.createSupported
    requires a in Exec(c, Init(c), acts).answers && b in Exec(c, Init(c), acts).answers
    requires a.id != b.id
    ensures Apart(MS, a, b)
  {
    ExecKeepsInv(c, acts);
    var h := Exec(c, Init(c), acts).history;
    assert Backed(h, a.id, a.now, a.expiry) && Backed(h, b.id, b.now, b.expiry);
    var i :| 0 <= i < |h| && h[i].holder == a.id && h[i].now <= a.now && Expiry(h[i]) == a.expiry;
    var j :| 0 <= j < |h| && h[j].holder == b.id && h[j].now <= b.now && Expiry(h[j]) == b.expiry;
    if i < j {
      HandoversWait(MS, h, i, j);
      DivMonotone(MS, h[j].now, b.now);
    } else {
      HandoversWait(MS, h, j, i);
      DivMonotone(MS, h[i].now, a.now);
    }
  }

  /** In full nanoseconds the leases overlap by less than a millisecond, and not at all when both
      electors' own expiries are whole milliseconds. */
  lemma OverlapUnderAMillisecond(c: Config, acts: seq<Action>, a: Answer, b: Answer)
    requires c.Valid() && c.createSupported
    requires a in Exec(c, Init(c), acts).answers && b in Exec(c, Init(c), acts).answers
    requires a.id != b.id
    ensures a.expiry - MS < b.now || b.expiry - MS < a.now
    ensures a.expiry % MS == 0 && b.expiry % MS == 0 ==> Apart(1, a, b)
  {
    AtMostOneLeader(c, acts, a, b);
  }

  /** Why the millisecond matters: every takeover the guard permits waits out the holder's own lease
      exactly when that lease ends on a whole millisecond. */
  lemma TakeoversWaitIffWholeMillisecond(holder: string, candidate: string, expiry: int)
    requires holder != "" && holder != candidate
    ensures (forall now: int | MayTakeOver(Record(holder, UnixMilli(expiry)), candidate, now) :: expiry <= now)
      <==> expiry % MS == 0
  {
    var v := Record(holder, UnixMilli(expiry));
    if expiry % MS == 0 {
      forall now: int | MayTakeOver(v, candidate, now) ensures expiry <= now {
        assert UnixMilli(now) >= UnixMilli(expiry);
      }
    } else {
      var early := UnixMilli(expiry) * MS;
      assert UnixMilli(early) == UnixMilli(expiry);
      assert MayTakeOver(v, candidate, early) && early < expiry;
    }
  }
}
