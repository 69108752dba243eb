/** The plugin registry (core/registry/registry.go): manifests by name, the capability index, and the
    authorization and label selection made on every call. */
module Registry {
  import opened Lists

  datatype Manifest = Manifest(name: string, labels: map<string, string>, offers: seq<string>, needs: seq<string>)

  datatype Reg = Reg(byName: map<string, Manifest>, providerOf: map<string, seq<string>>)

  datatype Op = RegisterOp(m: Manifest) | DeregisterOp(name: string)

  datatype Reason = UnknownCaller | NotRequired | NoProvider | Selected | NoMatch | Ambiguous

  datatype Decision = Decision(allowed: bool, authorized: bool, provider: string, reason: Reason)

  function NoPlugins(): Reg {
    Reg(map[], map[])
  }

  /** The plugins indexed under a capability, in the order they were added. */
  function Bucket(index: map<string, seq<string>>, capUri: string): seq<string> {
    if capUri in index then index[capUri] else []
  }

  function Count(xs: seq<string>, x: string): nat {
    multiset(xs)[x]
  }

  // ----- adding and removing -----

  function AddTo(index: map<string, seq<string>>, caps: seq<string>, name: string): map<string, seq<string>> {
    if caps == [] then index
    else
      var before, c := AddTo(index, caps[..|caps|-1], name), caps[|caps|-1];
      before[c := Bucket(before, c) + [name]]
  }

  function Store(index: map<string, seq<string>>, capUri: string, names: seq<string>): map<string, seq<string>> {
    if names == [] then index - {capUri} else index[capUri := names]
  }

  function DropFrom(index: map<string, seq<string>>, caps: seq<string>, name: string): map<string, seq<string>> {
    if caps == [] then index
    else
      var before, c := DropFrom(index, caps[..|caps|-1], name), caps[|caps|-1];
      Store(before, c, Without(Bucket(before, c), name))
  }

  /** A duplicate name is refused and changes nothing. */
  function Registered(r: Reg, m: Manifest): Reg {
    if m.name in r.byName then r
    else Reg(r.byName[m.name := m], AddTo(r.providerOf, m.offers, m.name))
  }

  function Deregistered(r: Reg, name: string): Reg {
    if name !in r.byName then r
    else Reg(r.byName - {name}, DropFrom(r.providerOf, r.byName[name].offers, name))
  }

  function Apply(r: Reg, op: Op): Reg {
    match op
    case RegisterOp(m) => Registered(r, m)
    case DeregisterOp(name) => Deregistered(r, name)
  }

  function After(ops: seq<Op>): Reg {
    if ops == [] then NoPlugins() else Apply(After(ops[..|ops|-1]), ops[|ops|-1])
  }

  // ----- selection -----

  /** A label that is absent reads as "". */
  function Label(labels: map<string, string>, k: string): string {
    if k in labels then labels[k] else ""
  }

  predicate Matches(labels: map<string, string>, selector: map<string, string>) {
    forall k | k in selector :: Label(labels, k) == selector[k]
  }

  predicate NameMatches(r: Reg, name: string, selector: map<string, string>) {
    name in r.byName && Matches(r.byName[name].labels, selector)
  }

  function Matched(r: Reg, names: seq<string>, selector: map<string, string>): seq<string> {
    if names == [] then []
    else
      var last := names[|names|-1];
      if NameMatches(r, last, selector) then Matched(r, names[..|names|-1], selector) + [last]
      else Matched(r, names[..|names|-1], selector)
  }

  function Choose(matched: seq<string>): Decision {
    if |matched| == 1 then Decision(true, true, matched[0], Selected)
    else if |matched| == 0 then Decision(false, true, "", NoMatch)
    else Decision(false, true, "", Ambiguous)
  }

  function Decide(r: Reg, caller: string, capUri: string, selector: map<string, string>): Decision {
    if caller !in r.byName then Decision(false, false, "", UnknownCaller)
    else if capUri !in r.byName[caller].needs then Decision(false, false, "", NotRequired)
    else if Bucket(r.providerOf, capUri) == [] then Decision(false, false, "", NoProvider)
    else Choose(Matched(r, Bucket(r.providerOf, capUri), selector))
  }

  // ----- the index is the scan of the manifests -----

  /** How often a scan of the registered manifests meets `name` as a provider of the capability. */
  function Scanned(r: Reg, capUri: string, name: string): nat {
    if name in r.byName then Count(r.byName[name].offers, capUri) else 0
  }

  ghost predicate BucketOk(r: Reg, capUri: string) {
    && (capUri in r.providerOf ==> r.providerOf[capUri] != [])
    && forall n :: Count(Bucket(r.providerOf, capUri), n) == Scanned(r, capUri, n)
  }

  /** The index holds, for every capability, exactly what a scan of the manifests finds, and no bucket
      is empty. A manifest is filed under its own name. */
  ghost predicate Indexed(r: Reg) {
    && (forall n | n in r.byName :: r.byName[n].name == n)
    && forall c :: BucketOk(r, c)
  }

  lemma CountSnoc(xs: seq<string>, x: string)
    requires xs != []
    ensures Count(xs, x) == Count(xs[..|xs|-1], x) + if xs[|xs|-1] == x then 1 else 0
  {
    assert xs == xs[..|xs|-1] + [xs[|xs|-1]];
  }

  lemma {:induction false} AddToCounts(index: map<string, seq<string>>, caps: seq<string>, name: string, c: string, n: string)
    ensures Count(Bucket(AddTo(index, caps, name), c), n) ==
      Count(Bucket(index, c), n) + if n == name then Count(caps, c) else 0
    ensures c in AddTo(index, caps, name) ==> c in index || AddTo(index, caps, name)[c] != []
    ensures c in index && index[c] != [] ==> c in AddTo(index, caps, name) && AddTo(index, caps, name)[c] != []
    ensures c !in caps ==> Bucket(AddTo(index, caps, name), c) == Bucket(index, c) && (c in AddTo(index, caps, name) <==> c in index)
  {
    if caps != [] {
      AddToCounts(index, caps[..|caps|-1], name, c, n);
      CountSnoc(caps, c);
      assert c !in caps ==> c !in caps[..|caps|-1];
    }
  }

  lemma {:induction false} WithoutCounts(xs: seq<string>, x: string, n: string)
    ensures Count(Without(xs, x), n) == if n == x then 0 else Count(xs, n)
  {
    if xs != [] {
      WithoutCounts(xs[..|xs|-1], x, n);
      CountSnoc(xs, n);
    }
  }

  lemma DropStep(index: map<string, seq<string>>, last: string, name: string, c: string, n: string)
    ensures var after := Store(index, last, Without(Bucket(index, last), name));
      && Count(Bucket(after, c), n) == (if n == name && c == last then 0 else Count(Bucket(index, c), n))
      && ((c in index ==> index[c] != []) ==> (c in after ==> after[c] != []))
  {
    WithoutCounts(Bucket(index, last), name, n);
  }

  lemma {:induction false} DropFromCounts(index: map<string, seq<string>>, caps: seq<string>, name: string, c: string, n: string)
    ensures Count(Bucket(DropFrom(index, caps, name), c), n) == if n == name && c in caps then 0 else Count(Bucket(index, c), n)
    ensures (c in index ==> index[c] != []) ==> (c in DropFrom(index, caps, name) ==> DropFrom(index, caps, name)[c] != [])
  {
    if caps != [] {
      var init, last := caps[..|caps|-1], caps[|caps|-1];
      DropFromCounts(index, init, name, c, n);
      DropStep(DropFrom(index, init, name), last, name, c, n);
      assert caps == init + [last];
    }
  }

  lemma NoPluginsIndexed()
    ensures Indexed(NoPlugins())
  {
  }

  lemma RegisteredKeepsIndex(r: Reg, m: Manifest)
    requires Indexed(r)
    ensures Indexed(Registered(r, m))
  {
    var r' := Registered(r, m);
    if m.name !in r.byName {
      forall c ensures BucketOk(r', c) {
        assert BucketOk(r, c);
        AddToCounts(r.providerOf, m.offers, m.name, c, m.name);
        forall n ensures Count(Bucket(r'.providerOf, c), n) == Scanned(r', c, n) {
          AddToCounts(r.providerOf, m.offers, m.name, c, n);
        }
      }
    }
  }

  lemma DeregisteredKeepsIndex(r: Reg, name: string)
    requires Indexed(r)
    ensures Indexed(Deregistered(r, name))
  {
    var r' := Deregistered(r, name);
    if name in r.byName {
      var caps := r.byName[name].offers;
      forall c ensures BucketOk(r', c) {
        assert BucketOk(r, c);
        DropFromCounts(r.providerOf, caps, name, c, name);
        forall n ensures Count(Bucket(r'.providerOf, c), n) == Scanned(r', c, n) {
          DropFromCounts(r.providerOf, caps, name, c, n);
        }
      }
    }
  }

  /** After every run of registrations and deregistrations the index is the scan. */
  lemma {:induction false} IndexIsScan(ops: seq<Op>)
    ensures Indexed(After(ops))
  {
    if ops != [] {
      IndexIsScan(ops[..|ops|-1]);
      match ops[|ops|-1]
      case RegisterOp(m) => RegisteredKeepsIndex(After(ops[..|ops|-1]), m);
      case DeregisterOp(name) => DeregisteredKeepsIndex(After(ops[..|ops|-1]), name);
    }
  }

  lemma IndexedNameKnown(r: Reg, capUri: string, i: nat)
    requires Indexed(r) && i < |Bucket(r.providerOf, capUri)|
    ensures Bucket(r.providerOf, capUri)[i] in r.byName
  {
    assert BucketOk(r, capUri);
    assert Count(Bucket(r.providerOf, capUri), Bucket(r.providerOf, capUri)[i]) > 0;
  }

  // ----- the object -----

  method RemoveString(ss: seq<string>, s: string) returns (out: seq<string>)
    ensures out == Without(ss, s)
  {
    out := [];
    for i := 0 to |ss|
      invariant out == Without(ss[..i], s)
    {
      assert ss[..i+1][..i] == ss[..i];
      if ss[i] != s {
        out := out + [ss[i]];
      }
    }
    assert ss[..|ss|] == ss;
  }

  method LabelsMatch(labels: map<string, string>, selector: map<string, string>) returns (ok: bool)
    ensures ok <==> Matches(labels, selector)
  {
    var rest := selector.Keys;
    while rest != {}
      invariant rest <= selector.Keys
      invariant forall k | k in selector && k !in rest :: Label(labels, k) == selector[k]
      decreases rest
    {
      var k :| k in rest;
      if Label(labels, k) != selector[k] {
        return false;
      }
      rest := rest - {k};
    }
    ok := true;
  }

  class Registry {
    var byName: map<string, Manifest>
    var providerOf: map<string, seq<string>>

    ghost function View(): Reg
      reads this
    {
      Reg(byName, providerOf)
    }

    /** Every indexed name is registered, so a lookup made through the index finds a manifest. */
    ghost predicate Valid()
      reads this
    {
      Indexed(View())
    }

    constructor ()
      ensures Valid() && View() == NoPlugins()
    {
      byName, providerOf := map[], map[];
      new;
      NoPluginsIndexed();
    }

    method Register(m: Manifest) returns (ok: bool)
      requires Valid()
      modifies this
      ensures Valid() && View() == Registered(old(View()), m)
      ensures byName == if m.name in old(byName) then old(byName) else old(byName)[m.name := m]
      ensures ok <==> m.name !in old(byName)
    {
      RegisteredKeepsIndex(View(), m);
      if m.name in byName {
        return false;
      }
      byName := byName[m.name := m];
      for i := 0 to |m.offers|
        invariant byName == old(byName)[m.name := m]
        invariant providerOf == AddTo(old(providerOf), m.offers[..i], m.name)
      {
        assert m.offers[..i+1][..i] == m.offers[..i];
        var c := m.offers[i];
        providerOf := providerOf[c := Bucket(providerOf, c) + [m.name]];
      }
      assert m.offers[..|m.offers|] == m.offers;
      ok := true;
    }

    method Deregister(name: string)
      requires Valid()
      modifies this
      ensures Valid() && View() == Deregistered(old(View()), name) && byName == old(byName) - {name}
    {
      DeregisteredKeepsIndex(View(), name);
      if name !in byName {
        return;
      }
      var caps := byName[name].offers;
      for i := 0 to |caps|
        invariant byName == old(byName)
        invariant providerOf == DropFrom(old(providerOf), caps[..i], name)
      {
        assert caps[..i+1][..i] == caps[..i];
        var names := RemoveString(Bucket(providerOf, caps[i]), name);
        providerOf := providerOf[caps[i] := names];
        if |names| == 0 {
          providerOf := providerOf - {caps[i]};
        }
      }
      assert caps[..|caps|] == caps;
      byName := byName - {name};
    }

    method Select(caller: string, capUri: string, selector: map<string, string>) returns (d: Decision)
      requires Valid()
      ensures d == Decide(View(), caller, capUri, selector)
    {
      if caller !in byName {
        return Decision(false, false, "", UnknownCaller);
      }
      if capUri !in byName[caller].needs {
        return Decision(false, false, "", NotRequired);
      }
      var providers := Bucket(providerOf, capUri);
      if |providers| == 0 {
        return Decision(false, false, "", NoProvider);
      }
      var matched: seq<string> := [];
      for i := 0 to |providers|
        invariant matched == Matched(View(), providers[..i], selector)
      {
        assert providers[..i+1][..i] == providers[..i];
        IndexedNameKnown(View(), capUri, i);
        var ok := LabelsMatch(byName[providers[i]].labels, selector);
        if ok {
          matched := matched + [providers[i]];
        }
      }
      assert providers[..|providers|] == providers;
      d := Choose(matched);
    }
  }

  // ----- selection is the unique label match -----

  /** The registered plugins that provide the capability and carry the labels: no index, no order. */
  function Eligible(r: Reg, capUri: string, selector: map<string, string>): set<string> {
    set n | n in r.byName && capUri in r.byName[n].offers && Matches(r.byName[n].labels, selector)
  }

  /** The caller declares the capability and somebody provides it. */
  ghost predicate Authorized(r: Reg, caller: string, capUri: string) {
    && caller in r.byName && capUri in r.byName[caller].needs
    && exists n :: n in r.byName && capUri in r.byName[n].offers
  }

  lemma {:induction false} MatchedCounts(r: Reg, names: seq<string>, selector: map<string, string>, n: string)
    ensures Count(Matched(r, names, selector), n) == if NameMatches(r, n, selector) then Count(names, n) else 0
  {
    if names != [] {
      MatchedCounts(r, names[..|names|-1], selector, n);
      CountSnoc(names, n);
    }
  }

  lemma SingletonSeq(xs: seq<string>, p: string)
    ensures xs == [p] <==> forall n :: Count(xs, n) == if n == p then 1 else 0
  {
    if forall n :: Count(xs, n) == if n == p then 1 else 0 {
      forall n ensures multiset(xs)[n] == multiset{p}[n] {
        assert Count(xs, n) == if n == p then 1 else 0;
      }
      assert multiset(xs) == multiset{p};
      assert |xs| == |multiset(xs)| == 1;
      assert Count(xs, xs[0]) > 0;
    }
  }

  lemma MatchedIsEligible(r: Reg, capUri: string, selector: map<string, string>, n: string)
    requires Indexed(r)
    ensures Count(Matched(r, Bucket(r.providerOf, capUri), selector), n) ==
      if n in Eligible(r, capUri, selector) then Count(r.byName[n].offers, capUri) else 0
    ensures n in Eligible(r, capUri, selector) ==> Count(r.byName[n].offers, capUri) > 0
  {
    assert BucketOk(r, capUri);
    MatchedCounts(r, Bucket(r.providerOf, capUri), selector, n);
  }

  lemma AuthorizedIff(r: Reg, caller: string, capUri: string, selector: map<string, string>)
    requires Indexed(r)
    ensures Decide(r, caller, capUri, selector).authorized <==> Authorized(r, caller, capUri)
  {
    assert BucketOk(r, capUri);
    var bucket := Bucket(r.providerOf, capUri);
    forall n | n in r.byName && capUri in r.byName[n].offers
      ensures bucket != []
    {
      assert Count(bucket, n) == Scanned(r, capUri, n) > 0;
    }
    if bucket != [] {
      IndexedNameKnown(r, capUri, 0);
      assert Count(bucket, bucket[0]) > 0;
      assert capUri in r.byName[bucket[0]].offers;
    }
  }

  /** A call is allowed, and goes to p, exactly when the caller is authorized, p is the only registered
      plugin that provides the capability and carries the labels, and p lists the capability once. The
      right-hand side never mentions the index, so registration order cannot matter. */
  lemma SelectsTheUniqueMatch(r: Reg, caller: string, capUri: string, selector: map<string, string>, p: string)
    requires Indexed(r)
    ensures var d := Decide(r, caller, capUri, selector);
      d.allowed && d.provider == p <==>
      && Authorized(r, caller, capUri)
      && Eligible(r, capUri, selector) == {p} && Count(r.byName[p].offers, capUri) == 1
  {
    AuthorizedIff(r, caller, capUri, selector);
    var matched := Matched(r, Bucket(r.providerOf, capUri), selector);
    SingletonSeq(matched, p);
    forall n
      ensures Count(matched, n) == if n in Eligible(r, capUri, selector) then Count(r.byName[n].offers, capUri) else 0
      ensures n in Eligible(r, capUri, selector) ==> Count(r.byName[n].offers, capUri) > 0
    {
      MatchedIsEligible(r, capUri, selector, n);
    }
    if matched == [p] {
      assert forall n :: n in Eligible(r, capUri, selector) <==> n == p;
    }
  }

  /** Why a call is refused: each reason in terms of the manifests alone, and nobody is named unless chosen. */
  lemma ReasonIff(r: Reg, caller: string, capUri: string, selector: map<string, string>)
    requires Indexed(r)
    ensures var d := Decide(r, caller, capUri, selector);
      var offered := exists n :: n in r.byName && capUri in r.byName[n].offers;
      && (d.reason.UnknownCaller? <==> caller !in r.byName)
      && (d.reason.NotRequired? <==> caller in r.byName && capUri !in r.byName[caller].needs)
      && (d.reason.NoProvider? <==> caller in r.byName && capUri in r.byName[caller].needs && !offered)
      && (d.reason.NoMatch? <==> Authorized(r, caller, capUri) && Eligible(r, capUri, selector) == {})
      && (d.reason.Ambiguous? <==> Authorized(r, caller, capUri) && Eligible(r, capUri, selector) != {} && !d.allowed)
      && (d.reason.Selected? <==> d.allowed)
      && (d.authorized <==> Authorized(r, caller, capUri)) && (!d.allowed ==> d.provider == "")
  {
    AuthorizedIff(r, caller, capUri, selector);
    var matched := Matched(r, Bucket(r.providerOf, capUri), selector);
    forall n
      ensures n in Eligible(r, capUri, selector) <==> Count(matched, n) > 0
    {
      MatchedIsEligible(r, capUri, selector, n);
    }
    if matched != [] {
      assert Count(matched, matched[0]) > 0;
    }
    if Eligible(r, capUri, selector) != {} {
      var n :| n in Eligible(r, capUri, selector);
      assert Count(matched, n) > 0;
    }
  }

  /** The same registered manifests give the same decision, however they came to be registered. */
  lemma OrderDoesNotMatter(ops: seq<Op>, ops': seq<Op>, caller: string, capUri: string, selector: map<string, string>)
    requires After(ops).byName == After(ops').byName
    ensures Decide(After(ops), caller, capUri, selector) == Decide(After(ops'), caller, capUri, selector)
  {
    var r, r' := After(ops), After(ops');
    IndexIsScan(ops);
    IndexIsScan(ops');
    AuthorizedIff(r, caller, capUri, selector);
    AuthorizedIff(r', caller, capUri, selector);
    assert Authorized(r, caller, capUri) <==> Authorized(r', caller, capUri);
    var m, m' := Matched(r, Bucket(r.providerOf, capUri), selector), Matched(r', Bucket(r'.providerOf, capUri), selector);
    forall n ensures Count(m, n) == Count(m', n) {
      MatchedIsEligible(r, capUri, selector, n);
      MatchedIsEligible(r', capUri, selector, n);
    }
    SameChoice(m, m');
  }

  /** The choice depends on which names matched and how often, not on their order. */
  lemma SameChoice(m: seq<string>, m': seq<string>)
    requires forall n :: Count(m, n) == Count(m', n)
    ensures Choose(m) == Choose(m')
  {
    forall n ensures multiset(m)[n] == multiset(m')[n] {
      assert Count(m, n) == Count(m', n);
    }
    assert multiset(m) == multiset(m');
    assert |m| == |multiset(m)| == |m'|;
    if |m| == 1 {
      assert m[0] in multiset(m');
    }
  }

  /** `finer` asks for everything `coarser` asks for. */
  predicate Refines(finer: map<string, string>, coarser: map<string, string>) {
    forall k | k in coarser :: k in finer && finer[k] == coarser[k]
  }

  /** Refining a selector that picked a plugin picks the same plugin or none, never another. */
  lemma RefiningNeverReroutes(r: Reg, caller: string, capUri: string, coarser: map<string, string>, finer: map<string, string>)
    requires Indexed(r) && Refines(finer, coarser) && Decide(r, caller, capUri, coarser).allowed
    ensures var p, d := Decide(r, caller, capUri, coarser).provider, Decide(r, caller, capUri, finer);
      d.authorized && if d.allowed then d.provider == p else Eligible(r, capUri, finer) == {}
  {
    var p, d := Decide(r, caller, capUri, coarser).provider, Decide(r, caller, capUri, finer);
    AuthorizedIff(r, caller, capUri, coarser);
    AuthorizedIff(r, caller, capUri, finer);
    SelectsTheUniqueMatch(r, caller, capUri, coarser, p);
    SelectsTheUniqueMatch(r, caller, capUri, finer, p);
    assert Eligible(r, capUri, finer) <= Eligible(r, capUri, coarser);
    if p in Eligible(r, capUri, finer) {
      assert Eligible(r, capUri, finer) == {p};
    }
    if d.allowed {
      SelectsTheUniqueMatch(r, caller, capUri, finer, d.provider);
      assert d.provider in Eligible(r, capUri, finer);
    }
  }

  /** A plugin that lists a capability twice is never selected for it, even as its only provider. */
  lemma ListedTwiceIsNeverSelected(r: Reg, caller: string, capUri: string, selector: map<string, string>)
    requires Indexed(r)
    requires forall n | n in Eligible(r, capUri, selector) :: Count(r.byName[n].offers, capUri) >= 2
    ensures !Decide(r, caller, capUri, selector).allowed
  {
    SelectsTheUniqueMatch(r, caller, capUri, selector, Decide(r, caller, capUri, selector).provider);
  }

  /** The labels match when each pair asked for is present and equal, or asks for the empty value of a
      label the plugin does not carry. */
  lemma MatchesIff(labels: map<string, string>, selector: map<string, string>)
    ensures Matches(labels, selector) <==>
      forall k | k in selector :: (k in labels && labels[k] == selector[k]) || (k !in labels && selector[k] == "")
  {
    if Matches(labels, selector) {
      forall k | k in selector
        ensures (k in labels && labels[k] == selector[k]) || (k !in labels && selector[k] == "")
      {
        assert Label(labels, k) == selector[k];
      }
    }
  }
}
