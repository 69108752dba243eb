/** Runs that show where the lease's safety ends: the fallback for backends without CreateIfAbsent,
    and the part of a millisecond that the stored expiry drops. */
module LeaseRuns {
  import opened Options
  import opened StateLog
  import opened LeaseChain
  import opened LeaseProtocol
  import Lease

  function ColdStart(x: string, y: string, now: int): seq<Action> {
    [Begin(x, now), Begin(y, now), GetReply(x, true), GetReply(y, true), WriteReply(x, true), WriteReply(y, true)]
  }

  /** Both read before either writes, so both are about to put unconditionally. */
  lemma {:induction false} BothSawNothing(c: Config, x: string, y: string)
    requires c.Valid() && !c.createSupported
    requires x in c.ttl && y in c.ttl && x != y
    ensures var t, s := c.epoch, Exec(c, Init(c), ColdStart(x, y, c.epoch)[..4]);
      && s.kv == Empty() && x in s.electors && y in s.electors
      && s.electors[x] == Elector(false, 0, t, Writing(t, Write(x, t, Cas(0))), t)
      && s.electors[y] == Elector(false, 0, t, Writing(t, Write(y, t, Cas(0))), t)
  {
    var t, acts := c.epoch, ColdStart(x, y, c.epoch);
    ExecOne(c, Init(c), [], acts[0]);
    assert [] + [acts[0]] == acts[..1];
    ExecOne(c, Init(c), acts[..1], acts[1]);
    assert acts[..1] + [acts[1]] == acts[..2];
    ExecOne(c, Init(c), acts[..2], acts[2]);
    assert acts[..2] + [acts[2]] == acts[..3];
    ExecOne(c, Init(c), acts[..3], acts[3]);
    assert acts[..3] + [acts[3]] == acts[..4];
  }

  /** Two electors that cold-start together over the unconditional fallback both become leader. */
  lemma {:induction false} FallbackElectsTwo(c: Config, x: string, y: string)
    requires c.Valid() && !c.createSupported
    requires x in c.ttl && y in c.ttl && x != y
    ensures var answers := Exec(c, Init(c), ColdStart(x, y, c.epoch)).answers;
      && Answer(x, c.epoch, c.epoch + c.ttl[x]) in answers
      && Answer(y, c.epoch, c.epoch + c.ttl[y]) in answers
  {
    var acts := ColdStart(x, y, c.epoch);
    BothSawNothing(c, x, y);
    ExecOne(c, Init(c), acts[..4], acts[4]);
    assert acts[..4] + [acts[4]] == acts[..5];
    ExecOne(c, Init(c), acts[..5], acts[5]);
    assert acts[..5] + [acts[5]] == acts;
  }

  ghost predicate NeverTwoLeaders(c: Config) {
    forall acts: seq<Action>, a: Answer, b: Answer |
      a in Exec(c, Init(c), acts).answers && b in Exec(c, Init(c), acts).answers && a.id != b.id ::
      Apart(MS, a, b)
  }

  /** With two or more electors whose leases last a millisecond or longer, the lease is safe in every
      run exactly when the backend has CreateIfAbsent. */
  lemma SafeIffCreateIfAbsent(c: Config, x: string, y: string)
    requires c.Valid()
    requires x in c.ttl && y in c.ttl && x != y && c.ttl[x] >= MS && c.ttl[y] >= MS
    ensures NeverTwoLeaders(c) <==> c.createSupported
  {
    if c.createSupported {
      forall acts: seq<Action>, a: Answer, b: Answer |
        a in Exec(c, Init(c), acts).answers && b in Exec(c, Init(c), acts).answers && a.id != b.id
        ensures Apart(MS, a, b)
      {
        AtMostOneLeader(c, acts, a, b);
      }
    } else {
      FallbackElectsTwo(c, x, y);
      var a, b := Answer(x, c.epoch, c.epoch + c.ttl[x]), Answer(y, c.epoch, c.epoch + c.ttl[y]);
      assert a in Exec(c, Init(c), ColdStart(x, y, c.epoch)).answers;
      assert !Apart(MS, a, b);
    }
  }

  /** With CreateIfAbsent and a lease of 1.5 ms: B takes over at 1.0 ms because the stored expiry says
      1 ms, and A, whose renewal at 1.2 ms went unanswered, still answers true until 1.5 ms. */
  lemma {:induction false} OverlapWithinAMillisecond() returns (c: Config, acts: seq<Action>, a: Answer, b: Answer)
    ensures c.Valid() && c.createSupported
    ensures a in Exec(c, Init(c), acts).answers && b in Exec(c, Init(c), acts).answers
    ensures a.id != b.id && b.now < a.now < a.expiry && a.now < b.expiry
  {
    c := Config("lease", map["A" := 1_500_000, "B" := 1_500_000], true, 0);
    assert "A" in c.ttl && "B" in c.ttl && "" !in c.ttl && "A" != "B";
    a, b := Answer("A", 1_200_000, 1_500_000), Answer("B", 1_000_000, 2_500_000);
    acts := [];
    acts := TakeLease(c, acts, "A", 0);
    var s3 := Exec(c, Init(c), acts);
    assert s3.electors["A"] == Elector(true, 1, 1_500_000, Idle, 0);
    acts := TakeLease(c, acts, "B", 1_000_000);
    assert b in Exec(c, Init(c), acts).answers;
    assert Exec(c, Init(c), acts).electors["A"] == s3.electors["A"];
    ExecOne(c, Init(c), acts, Begin("A", 1_200_000));
    ExecOne(c, Init(c), acts + [Begin("A", 1_200_000)], RenewReply("A", false));
    acts := acts + [Begin("A", 1_200_000)] + [RenewReply("A", false)];
  }

  /** An idle follower whose Acquire is permitted and undisturbed becomes leader. */
  lemma TakeLease(c: Config, acts: seq<Action>, id: string, now: int) returns (all: seq<Action>)
    requires c.createSupported && id in c.ttl
    requires var s := Exec(c, Init(c), acts);
      && id in s.electors && s.electors[id].phase.Idle? && !s.electors[id].leader && s.electors[id].clock <= now
      && (c.key in s.kv.data ==> s.kv.data[c.key].revision >= 1 && MayTakeOver(s.kv.data[c.key].value, id, now))
    ensures var s, s' := Exec(c, Init(c), acts), Exec(c, Init(c), all);
      var expiry := now + c.ttl[id];
      && s'.electors.Keys == s.electors.Keys
      && s'.electors[id] == Elector(true, s.kv.rev + 1, expiry, Idle, now)
      && (forall k | k in s.electors && k != id :: s'.electors[k] == s.electors[k])
      && Answer(id, now, expiry) in s'.answers && s.answers <= s'.answers
      && c.key in s'.kv.data && s'.kv.rev == s.kv.rev + 1
      && s'.kv.data[c.key] == Entry(Record(id, UnixMilli(expiry)), s.kv.rev + 1)
    ensures acts <= all
  {
    var s, begin, calm := Exec(c, Init(c), acts), Begin(id, now), Lease.Faults(Lease.Answered, true, Lease.Answered);
    var s1 := Next(c, s, begin);
    assert s1.electors == s.electors[id := s.electors[id].(phase := Reading(now), clock := now)];
    var more := Lease.AcquireActions(c, s1, id, now, calm);
    all := (acts + [begin]) + more;
    assert Exec(c, Init(c), all) == Exec(c, s1, more) by {
      ExecOne(c, Init(c), acts, begin);
      ExecSplit(c, Init(c), acts + [begin], more);
    }
    Lease.AcquireIsARun(c, s1, id, now, calm);
  }

  /** An elector that restarts while its own lease runs takes it again at once, under a new token: the guard lets
      a holder overwrite its own record. */
  lemma RestartRetakesOwnLease(c: Config, id: string, now: int) returns (before: seq<Action>, acts: seq<Action>)
    requires c.Valid() && c.createSupported && id in c.ttl && c.epoch <= now
    ensures before + [Restart(id)] <= acts
    ensures var s, s', s'' := Exec(c, Init(c), before), Exec(c, Init(c), before + [Restart(id)]), Exec(c, Init(c), acts);
      && id in s.electors && s.electors[id] == Elector(true, 1, c.epoch + c.ttl[id], Idle, c.epoch)
      && id in s'.electors && !s'.electors[id].leader && s'.kv == s.kv
      && id in s''.electors && s''.electors[id] == Elector(true, 2, now + c.ttl[id], Idle, now)
  {
    assert Exec(c, Init(c), []) == Init(c);
    before := TakeLease(c, [], id, c.epoch);
    ExecOne(c, Init(c), before, Restart(id));
    acts := TakeLease(c, before + [Restart(id)], id, now);
  }
}
