/** The argument every lease backend rests on: writes to the lease form a chain, and a change of
    holder in the chain waits for the previous holder's expiry. */
module LeaseChain {

  /** One committed write of the lease: who holds it, the step time it was made for, its lifetime,
      and the revision (or version) the backend gave it. Times are nanoseconds. */
  datatype Term = Term(holder: string, now: int, ttl: nat, rev: int)

  function Expiry(t: Term): int {
    t.now + t.ttl
  }

  /** `b` may be committed right after `a`. A holder only moves its own lease forward; another
      holder comes in at or after the expiry, both measured in whole `unit`s of time. */
  predicate Follows(unit: nat, a: Term, b: Term)
    requires unit > 0
  {
    if a.holder == b.holder then a.now <= b.now && a.ttl == b.ttl
    else Expiry(a) / unit <= b.now / unit
  }

  predicate Linked(unit: nat, chain: seq<Term>)
    requires unit > 0
  {
    forall i | 0 <= i < |chain| - 1 :: Follows(unit, chain[i], chain[i+1])
  }

  lemma DivMonotone(unit: nat, x: int, y: int)
    requires unit > 0 && x <= y
    ensures x / unit <= y / unit
  {
    var d := y / unit - x / unit;
    assert y - x == unit * d + (y % unit - x % unit);
    assert unit * (-1 - d) == -1 * unit - unit * d;
    assert d <= -1 ==> unit * (-1 - d) >= 0;
  }

  lemma {:induction false} StartsMoveForward(unit: nat, chain: seq<Term>, i: nat, j: nat)
    requires unit > 0 && Linked(unit, chain)
    requires i <= j < |chain|
    ensures chain[i].now / unit <= chain[j].now / unit
    decreases j - i
  {
    if i < j {
      var a, b := chain[i], chain[i+1];
      assert Follows(unit, a, b);
      DivMonotone(unit, a.now, Expiry(a));
      if a.holder == b.holder {
        DivMonotone(unit, a.now, b.now);
      }
      StartsMoveForward(unit, chain, i + 1, j);
    }
  }

  /** Any two terms of different holders, however far apart in the chain, are disjoint in time. */
  lemma {:induction false} HandoversWait(unit: nat, chain: seq<Term>, i: nat, j: nat)
    requires unit > 0 && Linked(unit, chain)
    requires i < j < |chain| && chain[i].holder != chain[j].holder
    ensures Expiry(chain[i]) / unit <= chain[j].now / unit
    decreases j - i
  {
    var a, b := chain[i], chain[i+1];
    assert Follows(unit, a, b);
    if a.holder == b.holder {
      HandoversWait(unit, chain, i + 1, j);
      DivMonotone(unit, Expiry(a), Expiry(b));
    } else {
      StartsMoveForward(unit, chain, i + 1, j);
    }
  }
}
