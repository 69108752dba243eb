/** How a plugin's connection is bound and dropped: the gateway's provider table
    (core/gateway/gateway.go) under the rewire hook that dials and closes (core/cmd/rat/rewire.go).

    Bind and Unbind each hold one lock for the provider table and, later, another for the hook's own
    table, and close the connection they displaced in between. `Wire` is a call past its first section,
    so calls that overlap can be told apart from calls that do not. */
module Routing {
  import opened Lists
  import opened Options

  /** A dialed connection: its number, the plugin it was dialed for, and where. */
  datatype Conn = Conn(id: nat, name: string, endpoint: string)

  /** `providers` is the gateway's table and `conns` the hook's. `closed` lists the Close calls in order,
      and `dialed[i]` is the connection with number i. */
  datatype Routes = Routes(providers: map<string, Conn>, conns: map<string, Conn>, closed: seq<nat>, dialed: seq<Conn>)

  function NoRoutes(): Routes {
    Routes(map[], map[], [], [])
  }

  function Lookup(table: map<string, Conn>, name: string): Option<Conn> {
    if name in table then Some(table[name]) else None
  }

  /** A Bind (`next` is its connection) or an Unbind past its first section. `prev` is the connection it
      took out of the provider table and has still to close. */
  datatype Wire = Wire(name: string, next: Option<Conn>, prev: Option<Conn>)

  // ----- the sections of a call -----

  function NewConn(r: Routes, name: string, endpoint: string): Conn {
    Conn(|r.dialed|, name, endpoint)
  }

  function BindOpened(r: Routes, name: string, endpoint: string): Routes {
    var conn := NewConn(r, name, endpoint);
    r.(providers := r.providers[name := conn], dialed := r.dialed + [conn])
  }

  function BindWire(r: Routes, name: string, endpoint: string): Wire {
    Wire(name, Some(NewConn(r, name, endpoint)), Lookup(r.providers, name))
  }

  function UnbindOpened(r: Routes, name: string): Routes {
    r.(providers := r.providers - {name})
  }

  function UnbindWire(r: Routes, name: string): Wire {
    Wire(name, None, Lookup(r.providers, name))
  }

  function PrevClosed(r: Routes, wire: Wire): Routes {
    if wire.prev.Some? then r.(closed := r.closed + [wire.prev.value.id]) else r
  }

  function Recorded(r: Routes, wire: Wire): Routes {
    r.(conns := if wire.next.Some? then r.conns[wire.name := wire.next.value] else r.conns - {wire.name})
  }

  // ----- whole calls -----

  /** Bind when the endpoint parses; a dial error leaves everything as it was. */
  function Bound(r: Routes, name: string, endpoint: string, dialable: bool): Routes {
    if !dialable then r
    else
      var wire := BindWire(r, name, endpoint);
      Recorded(PrevClosed(BindOpened(r, name, endpoint), wire), wire)
  }

  function Unbound(r: Routes, name: string): Routes {
    var wire := UnbindWire(r, name);
    Recorded(PrevClosed(UnbindOpened(r, name), wire), wire)
  }

  // ----- where every connection is -----

  /** Who runs a call: the reconcile pass, or one of the removals in flight. */
  datatype Owner = ByPass | ByRemoval(call: nat)

  predicate Live(r: Routes, c: Conn) {
    Lookup(r.providers, c.name) == Some(c)
  }

  predicate Held(wires: map<Owner, Wire>, o: Owner, c: Conn) {
    o in wires && wires[o].prev == Some(c)
  }

  ghost predicate HeldBySome(wires: map<Owner, Wire>, c: Conn) {
    exists o :: Held(wires, o, c)
  }

  /** The connection is live, or held by exactly one call in flight, or closed, and only one of these. */
  ghost predicate Placed(r: Routes, wires: map<Owner, Wire>, c: Conn) {
    && (c.id in r.closed || Live(r, c) || HeldBySome(wires, c))
    && (c.id in r.closed ==> !Live(r, c) && !HeldBySome(wires, c))
    && (Live(r, c) ==> !HeldBySome(wires, c))
    && (forall o, o' | Held(wires, o, c) && Held(wires, o', c) :: o == o')
  }

  /** The connection was dialed for that name. */
  predicate DialedFor(r: Routes, name: string, c: Conn) {
    c.name == name && c.id < |r.dialed| && r.dialed[c.id] == c
  }

  predicate WireOk(r: Routes, wire: Wire) {
    && (wire.next.Some? ==> DialedFor(r, wire.name, wire.next.value))
    && (wire.prev.Some? ==> DialedFor(r, wire.name, wire.prev.value))
  }

  /** Both tables and the calls in flight name only dialed connections, each under its own name. */
  ghost predicate TablesOk(r: Routes, wires: map<Owner, Wire>) {
    && (forall n | n in r.providers :: DialedFor(r, n, r.providers[n]))
    && (forall n | n in r.conns :: DialedFor(r, n, r.conns[n]))
    && (forall o | o in wires :: WireOk(r, wires[o]))
    && (forall i | 0 <= i < |r.dialed| :: r.dialed[i].id == i)
  }

  ghost predicate ClosedOnce(r: Routes) {
    NoRepeats(r.closed) && forall i | 0 <= i < |r.closed| :: r.closed[i] < |r.dialed|
  }

  /** Every connection ever dialed is live, held by one call in flight, or was closed exactly once. The
      hook's own table has no say in it. */
  ghost predicate RoutesOk(r: Routes, wires: map<Owner, Wire>) {
    && TablesOk(r, wires) && ClosedOnce(r)
    && forall i | 0 <= i < |r.dialed| :: Placed(r, wires, r.dialed[i])
  }

  lemma BindOpenKeepsRoutes(r: Routes, wires: map<Owner, Wire>, o: Owner, name: string, endpoint: string)
    requires RoutesOk(r, wires) && o !in wires
    ensures RoutesOk(BindOpened(r, name, endpoint), wires[o := BindWire(r, name, endpoint)])
  {
    var r', wires' := BindOpened(r, name, endpoint), wires[o := BindWire(r, name, endpoint)];
    forall i | 0 <= i < |r'.dialed|
      ensures Placed(r', wires', r'.dialed[i])
    {
      var c := r'.dialed[i];
      if i < |r.dialed| {
        assert Placed(r, wires, c);
        OpenPlaces(r, wires, o, name, wires'[o].next, r', c);
      } else {
        assert forall p | p in wires :: !Held(wires, p, c);
        assert !Held(wires', o, c);
      }
    }
  }

  lemma UnbindOpenKeepsRoutes(r: Routes, wires: map<Owner, Wire>, o: Owner, name: string)
    requires RoutesOk(r, wires) && o !in wires
    ensures RoutesOk(UnbindOpened(r, name), wires[o := UnbindWire(r, name)])
  {
    var r', wires' := UnbindOpened(r, name), wires[o := UnbindWire(r, name)];
    forall i | 0 <= i < |r'.dialed|
      ensures Placed(r', wires', r'.dialed[i])
    {
      assert Placed(r, wires, r.dialed[i]);
      OpenPlaces(r, wires, o, name, None, r', r.dialed[i]);
    }
  }

  /** A first section moves the displaced connection from the table to the call, and no other. */
  lemma OpenPlaces(r: Routes, wires: map<Owner, Wire>, o: Owner, name: string, next: Option<Conn>, r': Routes, c: Conn)
    requires RoutesOk(r, wires) && o !in wires && Placed(r, wires, c) && c.id < |r.dialed| && r.dialed[c.id] == c
    requires r'.closed == r.closed && (next.Some? ==> next.value != c)
    requires r'.providers == if next.Some? then r.providers[name := next.value] else r.providers - {name}
    ensures Placed(r', wires[o := Wire(name, next, Lookup(r.providers, name))], c)
  {
    var wires' := wires[o := Wire(name, next, Lookup(r.providers, name))];
    assert forall p | p != o :: Held(wires', p, c) <==> Held(wires, p, c);
    if Held(wires', o, c) {
      assert c.name == name && Live(r, c) by {
        assert DialedFor(r, name, r.providers[name]);
      }
    } else if HeldBySome(wires, c) {
      var p :| Held(wires, p, c);
      assert Held(wires', p, c);
    }
  }

  lemma CloseKeepsRoutes(r: Routes, wires: map<Owner, Wire>, o: Owner)
    requires RoutesOk(r, wires) && o in wires
    ensures RoutesOk(PrevClosed(r, wires[o]), wires[o := wires[o].(prev := None)])
  {
    var r', wires' := PrevClosed(r, wires[o]), wires[o := wires[o].(prev := None)];
    assert WireOk(r, wires[o]);
    forall i | 0 <= i < |r'.dialed|
      ensures Placed(r', wires', r'.dialed[i])
    {
      assert Placed(r, wires, r.dialed[i]);
      ClosePlaces(r, wires, o, r.dialed[i]);
    }
    if wires[o].prev.Some? {
      var c := wires[o].prev.value;
      assert Placed(r, wires, r.dialed[c.id]) && Held(wires, o, c);
    }
  }

  lemma ClosePlaces(r: Routes, wires: map<Owner, Wire>, o: Owner, c: Conn)
    requires RoutesOk(r, wires) && o in wires && Placed(r, wires, c) && c.id < |r.dialed| && r.dialed[c.id] == c
    ensures Placed(PrevClosed(r, wires[o]), wires[o := wires[o].(prev := None)], c)
  {
    var r', wires' := PrevClosed(r, wires[o]), wires[o := wires[o].(prev := None)];
    assert forall p | p != o :: Held(wires', p, c) <==> Held(wires, p, c);
    assert !Held(wires', o, c);
    if Held(wires, o, c) {
      assert r'.closed[|r.closed|] == c.id;
    } else {
      assert WireOk(r, wires[o]);
      assert c.id in r'.closed <==> c.id in r.closed;
      if HeldBySome(wires, c) {
        var p :| Held(wires, p, c);
        assert Held(wires', p, c);
      }
    }
  }

  lemma RecordKeepsRoutes(r: Routes, wires: map<Owner, Wire>, o: Owner)
    requires RoutesOk(r, wires) && o in wires && wires[o].prev.None?
    ensures RoutesOk(Recorded(r, wires[o]), wires - {o})
  {
    var r', wires' := Recorded(r, wires[o]), wires - {o};
    assert WireOk(r, wires[o]);
    forall i | 0 <= i < |r'.dialed|
      ensures Placed(r', wires', r'.dialed[i])
    {
      var c := r.dialed[i];
      assert Placed(r, wires, c);
      assert forall p :: Held(wires', p, c) <==> Held(wires, p, c);
      if HeldBySome(wires, c) {
        var p :| Held(wires, p, c);
        assert Held(wires', p, c);
      }
    }
  }

  /** A whole call, by itself, keeps both this and the agreement of the two tables. */
  lemma UnbindKeepsRoutes(r: Routes, name: string)
    requires RoutesOk(r, map[])
    ensures RoutesOk(Unbound(r, name), map[])
    ensures r.conns == r.providers ==> Unbound(r, name).conns == Unbound(r, name).providers
  {
    UnbindOpenKeepsRoutes(r, map[], ByPass, name);
    WholeKeepsRoutes(UnbindOpened(r, name), UnbindWire(r, name));
  }

  lemma BindKeepsRoutes(r: Routes, name: string, endpoint: string, dialable: bool)
    requires RoutesOk(r, map[])
    ensures RoutesOk(Bound(r, name, endpoint, dialable), map[])
    ensures r.conns == r.providers ==>
      Bound(r, name, endpoint, dialable).conns == Bound(r, name, endpoint, dialable).providers
  {
    if dialable {
      BindOpenKeepsRoutes(r, map[], ByPass, name, endpoint);
      WholeKeepsRoutes(BindOpened(r, name, endpoint), BindWire(r, name, endpoint));
    }
  }

  lemma WholeKeepsRoutes(r: Routes, wire: Wire)
    requires RoutesOk(r, map[ByPass := wire])
    ensures RoutesOk(Recorded(PrevClosed(r, wire), wire), map[])
  {
    var wires: map<Owner, Wire> := map[ByPass := wire];
    var closed := wires[ByPass := wire.(prev := None)];
    CloseKeepsRoutes(r, wires, ByPass);
    RecordKeepsRoutes(PrevClosed(r, wire), closed, ByPass);
    assert closed - {ByPass} == map[];
  }

  // ----- closing everything -----

  function IdsAlong(conns: map<string, Conn>, order: seq<string>): seq<nat> {
    if order == [] then []
    else
      var n := order[|order|-1];
      IdsAlong(conns, order[..|order|-1]) + (if n in conns then [conns[n].id] else [])
  }

  lemma {:induction false} IdsAlongIs(conns: map<string, Conn>, order: seq<string>, id: nat)
    ensures id in IdsAlong(conns, order) <==> exists n :: n in order && n in conns && conns[n].id == id
  {
    if order != [] {
      var n, rest := order[|order|-1], order[..|order|-1];
      assert order == rest + [n];
      IdsAlongIs(conns, rest, id);
    }
  }

  /** What daemon shutdown owes: with the calls in flight still to close what they hold, every connection
      ever dialed is closed exactly once. */
  ghost predicate AllClosedOnce(closed: seq<nat>, r: Routes, wires: map<Owner, Wire>) {
    NoRepeats(closed) && forall i | 0 <= i < |r.dialed| :: i in closed <==> !HeldBySome(wires, r.dialed[i])
  }

  lemma {:induction false} IdsAlongDistinct(r: Routes, wires: map<Owner, Wire>, order: seq<string>)
    requires TablesOk(r, wires) && NoRepeats(order)
    ensures NoRepeats(IdsAlong(r.conns, order))
  {
    if order != [] {
      var n, rest := order[|order|-1], order[..|order|-1];
      IdsAlongDistinct(r, wires, rest);
      if n in r.conns {
        IdsAlongIs(r.conns, rest, r.conns[n].id);
        forall m | m in rest && m in r.conns ensures r.conns[m].id != r.conns[n].id {
          assert DialedFor(r, m, r.conns[m]) && DialedFor(r, n, r.conns[n]);
        }
      }
    }
  }

  /** When the hook's table is the gateway's, closing the hook's connections closes the live ones. */
  lemma AgreeingCloses(r: Routes, wires: map<Owner, Wire>, order: seq<string>)
    requires RoutesOk(r, wires) && Visits(order, r.conns.Keys) && r.conns == r.providers
    ensures AllClosedOnce(r.closed + IdsAlong(r.conns, order), r, wires)
  {
    var ids := IdsAlong(r.conns, order);
    IdsAlongDistinct(r, wires, order);
    forall i | 0 <= i < |r.dialed|
      ensures i in ids <==> Live(r, r.dialed[i])
    {
      IdsAlongIs(r.conns, order, i);
      if Live(r, r.dialed[i]) {
        assert r.dialed[i].name in order;
      }
    }
    forall i | 0 <= i < |r.dialed|
      ensures i in r.closed + ids <==> !HeldBySome(wires, r.dialed[i])
      ensures i in ids ==> i !in r.closed
    {
      assert Placed(r, wires, r.dialed[i]);
    }
    forall k | 0 <= k < |ids| ensures ids[k] !in r.closed {
      IdsAlongIs(r.conns, order, ids[k]);
    }
  }

  /** Where the tables differ under a name, a connection is closed twice or never. */
  lemma DifferingMisses(r: Routes, wires: map<Owner, Wire>, order: seq<string>, n: string)
    requires RoutesOk(r, wires) && Visits(order, r.conns.Keys) && Lookup(r.conns, n) != Lookup(r.providers, n)
    ensures !AllClosedOnce(r.closed + IdsAlong(r.conns, order), r, wires)
  {
    var ids := IdsAlong(r.conns, order);
    if n in r.conns {
      var c := r.conns[n];
      assert DialedFor(r, n, c) && Placed(r, wires, r.dialed[c.id]) && !Live(r, c);
      IdsAlongIs(r.conns, order, c.id);
      assert n in order;
      assert c.id in ids;
      if c.id in r.closed {
        RepeatAcross(r.closed, ids, c.id);
      } else {
        assert c.id in r.closed + ids && HeldBySome(wires, c);
      }
    } else {
      var c := r.providers[n];
      assert DialedFor(r, n, c) && Placed(r, wires, r.dialed[c.id]) && Live(r, c);
      IdsAlongIs(r.conns, order, c.id);
      forall m | m in r.conns ensures r.conns[m].id != c.id {
        assert DialedFor(r, m, r.conns[m]);
      }
      assert c.id !in r.closed + ids;
    }
  }

  lemma RepeatAcross(a: seq<nat>, b: seq<nat>, id: nat)
    requires id in a && id in b
    ensures !NoRepeats(a + b)
  {
    var i :| 0 <= i < |a| && a[i] == id;
    var j :| 0 <= j < |b| && b[j] == id;
    assert (a + b)[i] == (a + b)[|a| + j];
  }

  /** Closing the hook's connections closes each live one exactly once, and nothing else, exactly when the
      hook's table agrees with the gateway's. */
  lemma CloseIsRightIff(r: Routes, wires: map<Owner, Wire>, order: seq<string>)
    requires RoutesOk(r, wires) && Visits(order, r.conns.Keys)
    ensures AllClosedOnce(r.closed + IdsAlong(r.conns, order), r, wires) <==> r.conns == r.providers
  {
    if r.conns == r.providers {
      AgreeingCloses(r, wires, order);
    } else {
      if n :| Lookup(r.conns, n) != Lookup(r.providers, n) {
        DifferingMisses(r, wires, order, n);
      } else {
        SameLookups(r.conns, r.providers);
      }
    }
  }

  lemma SameLookups(a: map<string, Conn>, b: map<string, Conn>)
    requires forall n :: Lookup(a, n) == Lookup(b, n)
    ensures a == b
  {
    forall n ensures n in a <==> n in b {
      assert Lookup(a, n) == Lookup(b, n);
    }
    forall n | n in a ensures a[n] == b[n] {
      assert Lookup(a, n) == Lookup(b, n);
    }
  }

  // ----- the objects -----

  class Gateway {
    var providers: map<string, Conn>

    constructor ()
      ensures providers == map[]
    {
      providers := map[];
    }

    method SetProvider(name: string, conn: Conn) returns (prev: Option<Conn>)
      modifies this
      ensures providers == old(providers)[name := conn]
      ensures prev == Lookup(old(providers), name)
    {
      prev := if name in providers then Some(providers[name]) else None;
      providers := providers[name := conn];
    }

    method RemoveProvider(name: string) returns (prev: Option<Conn>)
      modifies this
      ensures providers == old(providers) - {name}
      ensures prev == Lookup(old(providers), name)
    {
      prev := if name in providers then Some(providers[name]) else None;
      providers := providers - {name};
    }
  }

  class GatewayRewire {
    const gw: Gateway
    var conns: map<string, Conn>
    var closed: seq<nat>
    var dialed: seq<Conn>

    ghost function View(): Routes
      reads this, gw
    {
      Routes(gw.providers, conns, closed, dialed)
    }

    constructor (gw: Gateway)
      requires gw.providers == map[]
      ensures this.gw == gw && View() == NoRoutes()
    {
      this.gw := gw;
      conns, closed, dialed := map[], [], [];
    }

    method CloseConn(conn: Option<Conn>)
      modifies this`closed
      ensures closed == if conn.Some? then old(closed) + [conn.value.id] else old(closed)
    {
      if conn.Some? {
        closed := closed + [conn.value.id];
      }
    }

    /** `dialable` is whether the client library accepts the endpoint. */
    method Bind(name: string, endpoint: string, dialable: bool)
      modifies this, gw
      ensures View() == Bound(old(View()), name, endpoint, dialable)
    {
      if !dialable {
        return;
      }
      var conn := Conn(|dialed|, name, endpoint);
      dialed := dialed + [conn];
      var prev := gw.SetProvider(name, conn);
      CloseConn(prev);
      conns := conns[name := conn];
    }

    method Unbind(name: string)
      modifies this, gw
      ensures View() == Unbound(old(View()), name)
    {
      var prev := gw.RemoveProvider(name);
      CloseConn(prev);
      conns := conns - {name};
    }

    /** Daemon shutdown: close every connection the hook knows, in no particular `order`. This closes each
        live connection exactly once exactly when the hook's table agrees with the gateway's. */
    method Close() returns (ghost order: seq<string>)
      modifies this`conns, this`closed
      ensures conns == map[]
      ensures Visits(order, old(conns).Keys) && closed == old(closed) + IdsAlong(old(conns), order)
      ensures forall wires | RoutesOk(old(View()), wires) ::
        AllClosedOnce(closed, old(View()), wires) <==> old(conns) == gw.providers
    {
      order := [];
      var left := conns.Keys;
      while left != {}
        invariant left <= conns.Keys && conns == old(conns)
        invariant Visits(order, conns.Keys - left) && closed == old(closed) + IdsAlong(conns, order)
        decreases left
      {
        var n :| n in left;
        assert (order + [n])[..|order|] == order;
        left, order := left - {n}, order + [n];
        closed := closed + [conns[n].id];
      }
      forall wires | RoutesOk(old(View()), wires)
        ensures AllClosedOnce(closed, old(View()), wires) <==> old(conns) == gw.providers
      {
        CloseIsRightIff(old(View()), wires, order);
      }
      conns := map[];
    }
  }
}
