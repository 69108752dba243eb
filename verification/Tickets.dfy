/** Single-use stream tickets (core/arrowticket/arrowticket.go) over an in-memory set or over a shared
    state store (core/arrowticket/statecas/statecas.go). Times are nanoseconds; a ticket carries its expiry
    in milliseconds. */
module Tickets {
  import opened StateLog
  import Text

  datatype Claims = Claims(stream: string, caller: string, tenant: string, expiresMs: int, nonce: string)

  datatype Ticket = Garbage | Signed(claims: Claims, sig: string)

  datatype Verdict = Accepted | Malformed | Tampered | Expired | NotBound | Unconfirmed | Replay

  /** HMAC-SHA256 of a text under a key, and the text form of a signature. */
  datatype Crypto = Crypto(mac: (string, string) -> string, base64: string -> string)

  datatype Binding = Binding(stream: string, caller: string, tenant: string)

  function Millis(t: int): int {
    t / 1_000_000
  }

  function Joined(field: string, rest: string): string {
    field + ['\0'] + rest
  }

  function Tail(c: Claims): string {
    Joined(Text.Integer(c.expiresMs), c.nonce)
  }

  function SignedText(c: Claims): string {
    Joined(c.stream, Joined(c.caller, Joined(c.tenant, Tail(c))))
  }

  function Sign(k: Crypto, key: string, c: Claims): string {
    k.mac(key, SignedText(c))
  }

  function Mint(k: Crypto, key: string, b: Binding, now: int, ttl: int, nonce: string): Ticket {
    var c := Claims(b.stream, b.caller, b.tenant, Millis(now + ttl), nonce);
    Signed(c, Sign(k, key, c))
  }

  /** The checks made before the ticket is consumed, in the order they are made. */
  function Refusal(k: Crypto, key: string, t: Ticket, b: Binding, now: int): Verdict {
    if t.Garbage? then Malformed
    else if t.sig != Sign(k, key, t.claims) then Tampered
    else if Millis(now) > t.claims.expiresMs then Expired
    else if Binding(t.claims.stream, t.claims.caller, t.claims.tenant) != b then NotBound
    else Accepted
  }

  // ----- consuming -----

  datatype Consumed = FirstUse | AlreadyUsed | Unsure

  /** How one create call fares: answered; executed but the reply is lost or says "unknown"; not executed
      now, though it may land later; or refused by a backend that has no create. */
  datatype Delivery = Answered | ReplyLost | RequestLost | Unsupported

  function Created(kv: Kv<string>, key: string, d: Delivery): (Kv<string>, Consumed) {
    match d
    case Answered =>
      var (kv', reply) := KvCreate(kv, key, "1");
      (kv', if reply.committed then FirstUse else AlreadyUsed)
    case ReplyLost => (KvCreate(kv, key, "1").0, Unsure)
    case _ => (kv, Unsure)
  }

  /** The final verdict: an unconfirmed check refuses the ticket. */
  function VerdictOf(c: Consumed): Verdict {
    match c
    case FirstUse => Accepted
    case AlreadyUsed => Replay
    case Unsure => Unconfirmed
  }

  class MemStore {
    var used: set<string>

    constructor ()
      ensures used == {}
    {
      used := {};
    }

    method Consume(id: string) returns (c: Consumed)
      modifies this
      ensures c == if id in old(used) then AlreadyUsed else FirstUse
      ensures used == old(used) + {id}
    {
      if id in used {
        return AlreadyUsed;
      }
      used := used + {id};
      c := FirstUse;
    }
  }

  /** A replica's view of the shared store. */
  datatype CasStore = CasStore(state: Store<string>, prefix: string) {

    method Consume(id: string, d: Delivery) returns (c: Consumed)
      modifies state
      ensures (state.View(), c) == Created(old(state.View()), prefix + id, d)
    {
      match d {
        case Answered =>
          var reply := state.CreateIfAbsent(prefix + id, "1");
          c := if reply.committed then FirstUse else AlreadyUsed;
        case ReplyLost =>
          var _ := state.CreateIfAbsent(prefix + id, "1");
          c := Unsure;
        case _ =>
          c := Unsure;
      }
    }
  }

  datatype SingleUse = Mem(mem: MemStore) | Shared(cas: CasStore) {
    ghost function Objects(): set<object> {
      if Mem? then {mem} else {cas.state}
    }

    method Consume(id: string, d: Delivery) returns (c: Consumed)
      modifies Objects()
      ensures Mem? ==> c == (if id in old(mem.used) then AlreadyUsed else FirstUse) && mem.used == old(mem.used) + {id}
      ensures Shared? ==> (cas.state.View(), c) == Created(old(cas.state.View()), cas.prefix + id, d)
    {
      match this {
        case Mem(m) => c := m.Consume(id);
        case Shared(s) => c := s.Consume(id, d);
      }
    }
  }

  /** A validation against the shared store, as one step of the whole system. */
  function Validated(k: Crypto, key: string, prefix: string, kv: Kv<string>, t: Ticket, b: Binding, now: int, d: Delivery): (Kv<string>, Verdict) {
    var refusal := Refusal(k, key, t, b, now);
    if !refusal.Accepted? then (kv, refusal)
    else
      var (kv', c) := Created(kv, prefix + k.base64(t.sig), d);
      (kv', VerdictOf(c))
  }

  /** A validation against a replica's own set. */
  function MemValidated(k: Crypto, key: string, used: set<string>, t: Ticket, b: Binding, now: int): (set<string>, Verdict) {
    var refusal := Refusal(k, key, t, b, now);
    if !refusal.Accepted? then (used, refusal)
    else
      var id := k.base64(t.sig);
      (used + {id}, if id in used then Replay else Accepted)
  }

  class Minter {
    const crypto: Crypto
    const key: string
    const store: SingleUse

    constructor (crypto: Crypto, key: string, store: SingleUse)
      ensures this.crypto == crypto && this.key == key && this.store == store
    {
      this.crypto, this.key, this.store := crypto, key, store;
    }

    method Validate(t: Ticket, b: Binding, now: int, d: Delivery) returns (v: Verdict)
      modifies store.Objects()
      ensures store.Shared? ==>
        (store.cas.state.View(), v)
          == Validated(crypto, key, store.cas.prefix, old(store.cas.state.View()), t, b, now, d)
      ensures store.Mem? ==>
        (store.mem.used, v) == MemValidated(crypto, key, old(store.mem.used), t, b, now)
    {
      if t.Garbage? {
        return Malformed;
      }
      if t.sig != crypto.mac(key, SignedText(t.claims)) {
        return Tampered;
      }
      if Millis(now) > t.claims.expiresMs {
        return Expired;
      }
      if t.claims.stream != b.stream || t.claims.caller != b.caller || t.claims.tenant != b.tenant {
        return NotBound;
      }
      var c := store.Consume(crypto.base64(t.sig), d);
      match c {
        case Unsure => v := Unconfirmed;
        case AlreadyUsed => v := Replay;
        case FirstUse => v := Accepted;
      }
    }
  }

  // ----- the whole system -----

  /** Any replica, with any key and clock, validating any ticket; a create whose request was lost landing
      later, any number of times; and whatever else is done to the shared store. */
  datatype Step =
    | Present(key: string, prefix: string, ticket: Ticket, binding: Binding, now: int, delivery: Delivery)
    | Land(storeKey: string)
    | Other(cmd: Command<string>)

  function Stepped(k: Crypto, kv: Kv<string>, s: Step): Kv<string> {
    match s
    case Present(key, prefix, t, b, now, d) => Validated(k, key, prefix, kv, t, b, now, d).0
    case Land(storeKey) => KvCreate(kv, storeKey, "1").0
    case Other(cmd) => Apply(kv, cmd).0
  }

  function After(k: Crypto, steps: seq<Step>): Kv<string> {
    if steps == [] then Empty() else Stepped(k, After(k, steps[..|steps|-1]), steps[|steps|-1])
  }

  /** What the i-th step answered, when it presents a ticket. */
  function VerdictAt(k: Crypto, steps: seq<Step>, i: nat): Verdict
    requires i < |steps| && steps[i].Present?
  {
    var s := steps[i];
    Validated(k, s.key, s.prefix, After(k, steps[..i]), s.ticket, s.binding, s.now, s.delivery).1
  }

  lemma {:induction false} MarksStay(k: Crypto, steps: seq<Step>, i: nat, storeKey: string)
    requires i <= |steps| && storeKey in After(k, steps[..i]).data
    ensures storeKey in After(k, steps).data
    decreases |steps|
  {
    if i < |steps| {
      var init := steps[..|steps|-1];
      assert init[..i] == steps[..i];
      MarksStay(k, init, i, storeKey);
    } else {
      assert steps[..i] == steps;
    }
  }

  /** The create of the i-th step was executed, whatever the replica heard of it. */
  predicate Executed(s: Step) {
    s.Present? && (s.delivery.Answered? || s.delivery.ReplyLost?)
  }

  lemma ExecutedMarks(k: Crypto, steps: seq<Step>, i: nat)
    requires i < |steps| && Executed(steps[i])
    requires var s := steps[i]; Refusal(k, s.key, s.ticket, s.binding, s.now).Accepted?
    ensures steps[i].prefix + k.base64(steps[i].ticket.sig) in After(k, steps[..i+1]).data
  {
    assert steps[..i+1][..i] == steps[..i];
  }

  /** Once a create for a ticket was executed, even one whose outcome the replica never learned, every
      later presentation of that ticket is refused, at any replica. */
  lemma UsedIsRefused(k: Crypto, steps: seq<Step>, i: nat, j: nat)
    requires i < j < |steps| && Executed(steps[i]) && steps[j].Present?
    requires var s := steps[i]; Refusal(k, s.key, s.ticket, s.binding, s.now).Accepted?
    requires steps[j].prefix == steps[i].prefix && steps[j].ticket.Signed? && steps[j].ticket.sig == steps[i].ticket.sig
    ensures !VerdictAt(k, steps, j).Accepted?
  {
    ExecutedMarks(k, steps, i);
    assert steps[..j][..i+1] == steps[..i+1];
    MarksStay(k, steps[..j], i + 1, steps[i].prefix + k.base64(steps[i].ticket.sig));
  }

  /** A create that was given up on and lands late uses the ticket up just the same. */
  lemma LandedIsRefused(k: Crypto, steps: seq<Step>, i: nat, j: nat)
    requires i < j < |steps| && steps[i].Land? && steps[j].Present? && steps[j].ticket.Signed?
    requires steps[i].storeKey == steps[j].prefix + k.base64(steps[j].ticket.sig)
    ensures !VerdictAt(k, steps, j).Accepted?
  {
    assert steps[..i+1][..i] == steps[..i] && steps[..j][..i+1] == steps[..i+1];
    MarksStay(k, steps[..j], i + 1, steps[i].storeKey);
  }

  /** Single use across replicas and restarts: of all the presentations of one ticket, over one shared
      store and under one prefix, at most one is accepted. */
  lemma SingleUseHolds(k: Crypto, steps: seq<Step>, i: nat, j: nat)
    requires i < j < |steps| && steps[i].Present? && steps[j].Present?
    requires steps[i].prefix == steps[j].prefix && steps[i].ticket == steps[j].ticket
    ensures !(VerdictAt(k, steps, i).Accepted? && VerdictAt(k, steps, j).Accepted?)
  {
    if VerdictAt(k, steps, i).Accepted? {
      UsedIsRefused(k, steps, i, j);
    }
  }

  // ----- which tickets pass -----

  /** The signature is the MAC, under this key, of the five fields with a NUL between each two. */
  predicate Genuine(k: Crypto, key: string, c: Claims, sig: string) {
    sig == k.mac(key, c.stream + ['\0'] + c.caller + ['\0'] + c.tenant + ['\0'] + Text.Integer(c.expiresMs) + ['\0'] + c.nonce)
  }

  /** Minted for exactly this stream, caller and tenant. */
  predicate BoundTo(c: Claims, b: Binding) {
    c.stream == b.stream && c.caller == b.caller && c.tenant == b.tenant
  }

  lemma GenuineIsSigned(k: Crypto, key: string, c: Claims, sig: string)
    ensures Genuine(k, key, c, sig) <==> sig == Sign(k, key, c)
  {
    var nul := ['\0'];
    var e := Text.Integer(c.expiresMs);
    assert c.tenant + nul + (e + nul + c.nonce) == c.tenant + nul + e + nul + c.nonce;
    assert c.caller + nul + (c.tenant + nul + e + nul + c.nonce) == c.caller + nul + c.tenant + nul + e + nul + c.nonce;
    assert c.stream + nul + (c.caller + nul + c.tenant + nul + e + nul + c.nonce)
      == c.stream + nul + c.caller + nul + c.tenant + nul + e + nul + c.nonce;
  }

  /** What has to be right about a ticket before it is used up. */
  predicate Sound(k: Crypto, key: string, t: Ticket, b: Binding, now: int) {
    t.Signed? && Genuine(k, key, t.claims, t.sig) && now / 1_000_000 <= t.claims.expiresMs && BoundTo(t.claims, b)
  }

  /** A ticket is accepted exactly when it is genuine, its expiry millisecond is not past, it is presented by
      the caller it was minted for, its id is not in the store, and the store answers. */
  lemma AcceptedIff(k: Crypto, key: string, prefix: string, kv: Kv<string>, t: Ticket, b: Binding, now: int, d: Delivery)
    ensures Validated(k, key, prefix, kv, t, b, now, d).1.Accepted? <==>
      Sound(k, key, t, b, now) && prefix + k.base64(t.sig) !in kv.data && d.Answered?
  {
    if t.Signed? {
      GenuineIsSigned(k, key, t.claims, t.sig);
    }
  }

  /** Each refusal has its own reason, and the first that applies is given. */
  lemma RefusedIff(k: Crypto, key: string, prefix: string, kv: Kv<string>, t: Ticket, b: Binding, now: int, d: Delivery)
    ensures var v := Validated(k, key, prefix, kv, t, b, now, d).1;
      && (v.Malformed? <==> t.Garbage?)
      && (v.Tampered? <==> t.Signed? && !Genuine(k, key, t.claims, t.sig))
      && (v.Expired? <==> t.Signed? && Genuine(k, key, t.claims, t.sig) && now / 1_000_000 > t.claims.expiresMs)
      && (v.NotBound? <==>
            && t.Signed? && Genuine(k, key, t.claims, t.sig) && now / 1_000_000 <= t.claims.expiresMs
            && !BoundTo(t.claims, b))
      && (v.Unconfirmed? <==> Sound(k, key, t, b, now) && !d.Answered?)
      && (v.Replay? <==> Sound(k, key, t, b, now) && d.Answered? && prefix + k.base64(t.sig) in kv.data)
  {
    if t.Signed? {
      GenuineIsSigned(k, key, t.claims, t.sig);
    }
  }

  /** Only a sound ticket is used up: any other leaves the store as it was, so a wrong caller cannot burn it,
      and a sound one adds its own mark and nothing else, if its create is executed. */
  lemma UsedUpIff(k: Crypto, key: string, prefix: string, kv: Kv<string>, t: Ticket, b: Binding, now: int, d: Delivery)
    ensures var kv' := Validated(k, key, prefix, kv, t, b, now, d).0;
      && (kv' != kv <==>
            Sound(k, key, t, b, now) && prefix + k.base64(t.sig) !in kv.data && (d.Answered? || d.ReplyLost?))
      && (kv' != kv ==> kv'.data.Keys == kv.data.Keys + {prefix + k.base64(t.sig)})
      && (forall x | x in kv.data :: x in kv'.data && kv'.data[x] == kv.data[x])
  {
    if t.Signed? {
      GenuineIsSigned(k, key, t.claims, t.sig);
    }
  }

  /** The same over a replica's own set, which always answers. */
  lemma MemAcceptedIff(k: Crypto, key: string, used: set<string>, t: Ticket, b: Binding, now: int)
    ensures var (used', v) := MemValidated(k, key, used, t, b, now);
      && (v.Accepted? <==> Sound(k, key, t, b, now) && k.base64(t.sig) !in used)
      && (v.Replay? <==> Sound(k, key, t, b, now) && k.base64(t.sig) in used)
      && used' == if Sound(k, key, t, b, now) then used + {k.base64(t.sig)} else used
  {
    if t.Signed? {
      GenuineIsSigned(k, key, t.claims, t.sig);
    }
  }

  /** Presented by any caller, a minted ticket is accepted exactly when that caller is the one it was minted
      for, it has not expired, to the millisecond, it was not used, and the store answers. */
  lemma MintedAcceptedIff(k: Crypto, key: string, prefix: string, kv: Kv<string>, minted: Binding, at: int, ttl: int, nonce: string,
      b: Binding, now: int, d: Delivery)
    ensures var t := Mint(k, key, minted, at, ttl, nonce);
      Validated(k, key, prefix, kv, t, b, now, d).1.Accepted? <==>
        b == minted && now / 1_000_000 <= (at + ttl) / 1_000_000 && prefix + k.base64(t.sig) !in kv.data && d.Answered?
  {
  }

  /** Two replicas that each keep their own in-memory set both accept the same ticket. */
  method SeparateMemoriesReplay(crypto: Crypto, key: string, t: Ticket, b: Binding, now: int) returns (first: Verdict, second: Verdict)
    requires Refusal(crypto, key, t, b, now).Accepted?
    ensures first == second == Accepted
  {
    var left := new MemStore();
    var right := new MemStore();
    var one := new Minter(crypto, key, Mem(left));
    var two := new Minter(crypto, key, Mem(right));
    first := one.Validate(t, b, now, Answered);
    second := two.Validate(t, b, now, Answered);
  }

  // ----- distinct mints never share an id -----

  predicate NulFree(c: Claims) {
    '\0' !in c.stream && '\0' !in c.caller && '\0' !in c.tenant
  }

  lemma SignedTextInjective(c: Claims, d: Claims)
    requires NulFree(c) && NulFree(d) && SignedText(c) == SignedText(d)
    ensures c == d
  {
    var c2, d2 := Joined(c.tenant, Tail(c)), Joined(d.tenant, Tail(d));
    Text.FirstFieldUnique(c.stream, Joined(c.caller, c2), d.stream, Joined(d.caller, d2), '\0');
    Text.FirstFieldUnique(c.caller, c2, d.caller, d2, '\0');
    Text.FirstFieldUnique(c.tenant, Tail(c), d.tenant, Tail(d), '\0');
    Text.ReadsInteger(c.expiresMs);
    Text.ReadsInteger(d.expiresMs);
    Text.FirstFieldUnique(Text.Integer(c.expiresMs), c.nonce, Text.Integer(d.expiresMs), d.nonce, '\0');
  }

  function Nuls(s: string): nat {
    multiset(s)['\0']
  }

  lemma NulsOfJoined(a: string, rest: string)
    ensures Nuls(Joined(a, rest)) == Nuls(a) + 1 + Nuls(rest)
  {
  }

  lemma NulsOfText(c: Claims)
    ensures Nuls(SignedText(c)) == Nuls(c.stream) + Nuls(c.caller) + Nuls(c.tenant) + Nuls(c.nonce) + 4
  {
    Text.ReadsInteger(c.expiresMs);
    NulsOfJoined(Text.Integer(c.expiresMs), c.nonce);
    NulsOfJoined(c.tenant, Tail(c));
    NulsOfJoined(c.caller, Joined(c.tenant, Tail(c)));
    NulsOfJoined(c.stream, Joined(c.caller, Joined(c.tenant, Tail(c))));
  }

  /** Another set of claims, with a nonce free of NUL as every nonce is, signs the same text. */
  ghost predicate Ambiguous(c: Claims) {
    exists d: Claims :: d != c && '\0' !in d.nonce && SignedText(d) == SignedText(c)
  }

  lemma SplitAtNul(s: string) returns (a: string, b: string)
    requires '\0' in s
    ensures s == Joined(a, b)
  {
    var i :| 0 <= i < |s| && s[i] == '\0';
    a, b := s[..i], s[i+1..];
  }

  lemma JoinedAssociates(a: string, b: string, rest: string)
    ensures Joined(Joined(a, b), rest) == Joined(a, Joined(b, rest))
  {
    assert (a + ['\0'] + b) + ['\0'] + rest == a + ['\0'] + (b + ['\0'] + rest);
  }

  /** Where a NUL stands in a field, the field boundary can be moved to it without changing the text. */
  lemma NulMakesAmbiguous(c: Claims)
    requires !NulFree(c) && '\0' !in c.nonce
    ensures Ambiguous(c)
  {
    var c1, c2 := Joined(c.caller, Joined(c.tenant, Tail(c))), Joined(c.tenant, Tail(c));
    if '\0' in c.stream {
      var a, b := SplitAtNul(c.stream);
      JoinedAssociates(a, b, c1);
      JoinedAssociates(b, c.caller, c2);
      var d := c.(stream := a, caller := Joined(b, c.caller));
      assert |d.stream| < |c.stream| && SignedText(d) == SignedText(c);
    } else if '\0' in c.caller {
      var a, b := SplitAtNul(c.caller);
      JoinedAssociates(a, b, c2);
      JoinedAssociates(b, c.tenant, Tail(c));
      var d := c.(caller := a, tenant := Joined(b, c.tenant));
      assert |d.caller| < |c.caller| && SignedText(d) == SignedText(c);
    } else {
      var a, b := SplitAtNul(c.tenant);
      JoinedAssociates(a, b, Tail(c));
      JoinedAssociates(c.stream, c.caller, Joined(a, Joined(b, Tail(c))));
      var d := c.(stream := Joined(c.stream, c.caller), caller := a, tenant := b);
      assert |d.stream| > |c.stream| && SignedText(d) == SignedText(c);
    }
  }

  /** Texts with as many NULs have as many in their names. */
  lemma SameTextSameNuls(c: Claims, d: Claims)
    requires NulFree(c) && '\0' !in c.nonce && '\0' !in d.nonce && SignedText(c) == SignedText(d)
    ensures NulFree(d)
  {
    NulsOfText(c);
    NulsOfText(d);
    assert Nuls(d.stream) + Nuls(d.caller) + Nuls(d.tenant) == 0;
  }

  /** The signed text stands for one set of claims exactly when no name in them holds a NUL. */
  lemma AmbiguousIff(c: Claims)
    requires '\0' !in c.nonce
    ensures Ambiguous(c) <==> !NulFree(c)
  {
    if !NulFree(c) {
      NulMakesAmbiguous(c);
    } else {
      forall d: Claims | '\0' !in d.nonce && SignedText(d) == SignedText(c)
        ensures d == c
      {
        SameTextSameNuls(c, d);
        SignedTextInjective(c, d);
      }
    }
  }

  /** An ideal HMAC has no two texts with one signature, and base64 is a code. */
  ghost predicate Ideal(k: Crypto) {
    && (forall key, a, b :: !MacCollides(k, key, a, b))
    && (forall a, b :: !CodeCollides(k, a, b))
  }

  ghost predicate MacCollides(k: Crypto, key: string, a: string, b: string) {
    a != b && k.mac(key, a) == k.mac(key, b)
  }

  ghost predicate CodeCollides(k: Crypto, a: string, b: string) {
    a != b && k.base64(a) == k.base64(b)
  }

  /** Under an ideal HMAC an accepted signature is the MAC of claims made for exactly this binding: whatever
      NUL-free claims a holder of the key signed, if that signature is accepted then they name this
      stream, caller and tenant, and the ticket carries them unaltered. */
  lemma AcceptedWasSignedForBinding(k: Crypto, key: string, prefix: string, kv: Kv<string>, t: Ticket, b: Binding, now: int, d: Delivery, c: Claims)
    requires Ideal(k) && NulFree(c) && '\0' !in b.stream && '\0' !in b.caller && '\0' !in b.tenant
    requires Validated(k, key, prefix, kv, t, b, now, d).1.Accepted? && t.sig == Sign(k, key, c)
    ensures c == t.claims && BoundTo(c, b) && now / 1_000_000 <= c.expiresMs
  {
    AcceptedIff(k, key, prefix, kv, t, b, now, d);
    GenuineIsSigned(k, key, t.claims, t.sig);
    assert !MacCollides(k, key, SignedText(c), SignedText(t.claims));
    SignedTextInjective(c, t.claims);
  }

  /** Two mints under one key that differ in anything, if only the nonce, have different single-use ids,
      so using one ticket never burns another. */
  lemma DistinctMintsDistinctIds(k: Crypto, key: string, c: Claims, d: Claims)
    requires Ideal(k) && NulFree(c) && NulFree(d) && c != d
    ensures k.base64(Sign(k, key, c)) != k.base64(Sign(k, key, d))
  {
    if SignedText(c) == SignedText(d) {
      SignedTextInjective(c, d);
    }
    assert !MacCollides(k, key, SignedText(c), SignedText(d));
    assert !CodeCollides(k, Sign(k, key, c), Sign(k, key, d));
  }
}
