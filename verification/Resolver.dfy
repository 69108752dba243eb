/** Dependency closure of a project (core/cmd/rat/project.go, resolver.go, marketplace.go): add the first
    marketplace provider of every unsatisfied requirement, round after round, until a round adds nothing. */
module Resolver {
  import opened Options

  datatype Plugin = Plugin(name: string, offers: seq<string>, needs: seq<string>)

  /** A marketplace entry and whether its source's signature was verified. */
  datatype Entry = Entry(plugin: Plugin, verified: bool)

  datatype Dep = Dep(plugin: string, capability: string)

  // ----- what is missing -----

  predicate Offered(project: seq<Plugin>, capability: string) {
    exists i | 0 <= i < |project| :: capability in project[i].offers
  }

  function MissingOf(project: seq<Plugin>, name: string, needs: seq<string>): seq<Dep> {
    if needs == [] then []
    else
      var rest, c := MissingOf(project, name, needs[..|needs|-1]), needs[|needs|-1];
      if Offered(project, c) then rest else rest + [Dep(name, c)]
  }

  function MissingIn(project: seq<Plugin>, of: seq<Plugin>): seq<Dep> {
    if of == [] then []
    else
      var last := of[|of|-1];
      MissingIn(project, of[..|of|-1]) + MissingOf(project, last.name, last.needs)
  }

  /** Every requirement in the project that nothing in the project offers, in order. */
  function Unsatisfied(project: seq<Plugin>): seq<Dep> {
    MissingIn(project, project)
  }

  method UnsatisfiedRequires(project: seq<Plugin>) returns (miss: seq<Dep>)
    ensures miss == Unsatisfied(project)
  {
    var provided: set<string> := {};
    for i := 0 to |project|
      invariant forall c :: c in provided <==> exists j | 0 <= j < i :: c in project[j].offers
    {
      for k := 0 to |project[i].offers|
        invariant forall c :: c in provided <==>
          (exists j | 0 <= j < i :: c in project[j].offers) || c in project[i].offers[..k]
      {
        provided := provided + {project[i].offers[k]};
      }
      assert project[i].offers[..|project[i].offers|] == project[i].offers;
    }
    miss := [];
    for i := 0 to |project|
      invariant miss == MissingIn(project, project[..i])
    {
      var m := project[i];
      for k := 0 to |m.needs|
        invariant miss == MissingIn(project, project[..i]) + MissingOf(project, m.name, m.needs[..k])
      {
        assert m.needs[..k+1][..k] == m.needs[..k];
        assert m.needs[k] in provided <==> Offered(project, m.needs[k]);
        if m.needs[k] !in provided {
          miss := miss + [Dep(m.name, m.needs[k])];
        }
      }
      assert m.needs[..|m.needs|] == m.needs;
      assert project[..i+1][..i] == project[..i];
    }
    assert project[..|project|] == project;
  }

  // ----- one round -----

  /** The first entry that offers the capability. */
  function ProviderFor(entries: seq<Entry>, capability: string): (e: Option<Entry>)
    ensures e.Some? ==> e.value in entries && capability in e.value.plugin.offers
    ensures e.None? <==> forall i | 0 <= i < |entries| :: capability !in entries[i].plugin.offers
  {
    if entries == [] then None
    else if capability in entries[0].plugin.offers then Some(entries[0])
    else ProviderFor(entries[1..], capability)
  }

  /** The entry found is the first that offers the capability: some position holds it and no earlier entry
      offers it. */
  lemma {:induction false} ProviderIsFirst(entries: seq<Entry>, capability: string) returns (i: nat)
    ensures ProviderFor(entries, capability).None? ==> i == |entries|
    ensures ProviderFor(entries, capability).Some? ==> i < |entries| && entries[i] == ProviderFor(entries, capability).value
    ensures forall j | 0 <= j < i :: capability !in entries[j].plugin.offers
    ensures i < |entries| ==> capability in entries[i].plugin.offers
  {
    i := 0;
    if entries != [] && capability !in entries[0].plugin.offers {
      i := ProviderIsFirst(entries[1..], capability);
      i := i + 1;
    }
  }

  method FindProvider(entries: seq<Entry>, capability: string) returns (e: Option<Entry>)
    ensures e == ProviderFor(entries, capability)
  {
    for i := 0 to |entries|
      invariant ProviderFor(entries, capability) == ProviderFor(entries[i..], capability)
    {
      var offers := entries[i].plugin.offers;
      for k := 0 to |offers|
        invariant capability !in offers[..k]
        invariant ProviderFor(entries, capability) == ProviderFor(entries[i..], capability)
      {
        if offers[k] == capability {
          return Some(entries[i]);
        }
      }
      assert offers[..|offers|] == offers;
      assert entries[i..][1..] == entries[i+1..];
    }
    e := None;
  }

  function Names(project: seq<Plugin>): set<string> {
    set i | 0 <= i < |project| :: project[i].name
  }

  /** The entry may be pulled: signed, or signatures are not demanded. */
  predicate Acceptable(requireSigned: bool, e: Option<Entry>) {
    e.Some? && (requireSigned ==> e.value.verified)
  }

  function Added(project: seq<Plugin>, e: Entry): seq<Plugin> {
    if e.plugin.name in Names(project) then project else project + [e.plugin]
  }

  function Round(entries: seq<Entry>, requireSigned: bool, project: seq<Plugin>, miss: seq<Dep>): seq<Plugin> {
    if miss == [] then project
    else
      var before := Round(entries, requireSigned, project, miss[..|miss|-1]);
      var e := ProviderFor(entries, miss[|miss|-1].capability);
      if Acceptable(requireSigned, e) then Added(before, e.value) else before
  }

  /** Market names not yet in the project: what a round that adds anything uses up. */
  function Open(entries: seq<Entry>, project: seq<Plugin>): set<string> {
    (set i | 0 <= i < |entries| :: entries[i].plugin.name) - Names(project)
  }

  lemma AddedShrinks(entries: seq<Entry>, project: seq<Plugin>, e: Entry)
    requires e in entries && e.plugin.name !in Names(project)
    ensures Open(entries, Added(project, e)) < Open(entries, project)
  {
    var project' := Added(project, e);
    assert forall i | 0 <= i < |project| :: project'[i] == project[i];
    assert project'[|project|] == e.plugin;
    assert Names(project') == Names(project) + {e.plugin.name};
    assert e.plugin.name in Open(entries, project);
  }

  lemma {:induction false} RoundAdds(entries: seq<Entry>, requireSigned: bool, project: seq<Plugin>, miss: seq<Dep>)
    ensures var after := Round(entries, requireSigned, project, miss);
      && project <= after
      && (after != project ==> Open(entries, after) < Open(entries, project))
  {
    if miss != [] {
      RoundAdds(entries, requireSigned, project, miss[..|miss|-1]);
      var before := Round(entries, requireSigned, project, miss[..|miss|-1]);
      var e := ProviderFor(entries, miss[|miss|-1].capability);
      if Acceptable(requireSigned, e) && e.value.plugin.name !in Names(before) {
        AddedShrinks(entries, before, e.value);
      }
    }
  }

  // ----- the closure -----

  /** Rounds until one adds nothing. The measure is the set of market names not yet in the project, so it
      ends for every finite market, whatever cycles its requirements form. */
  function Closure(entries: seq<Entry>, requireSigned: bool, project: seq<Plugin>): seq<Plugin>
    decreases Open(entries, project)
  {
    RoundAdds(entries, requireSigned, project, Unsatisfied(project));
    var after := Round(entries, requireSigned, project, Unsatisfied(project));
    if after == project then project else Closure(entries, requireSigned, after)
  }

  // ----- where it stops -----

  /** The requirement cannot be met: no entry offers it, its first provider may not be pulled, or that
      provider's name is taken. */
  predicate Stuck(entries: seq<Entry>, requireSigned: bool, project: seq<Plugin>, capability: string) {
    var e := ProviderFor(entries, capability);
    || e.None?
    || (requireSigned && !e.value.verified)
    || e.value.plugin.name in Names(project)
  }

  lemma {:induction false} IdleRoundIffStuck(entries: seq<Entry>, requireSigned: bool, project: seq<Plugin>, miss: seq<Dep>)
    ensures Round(entries, requireSigned, project, miss) == project <==>
      forall i | 0 <= i < |miss| :: Stuck(entries, requireSigned, project, miss[i].capability)
  {
    if miss != [] {
      var init := miss[..|miss|-1];
      IdleRoundIffStuck(entries, requireSigned, project, init);
      RoundAdds(entries, requireSigned, project, init);
      assert forall i | 0 <= i < |init| :: init[i] == miss[i];
    }
  }

  lemma {:induction false} ClosureIsIdle(entries: seq<Entry>, requireSigned: bool, project: seq<Plugin>)
    ensures var end := Closure(entries, requireSigned, project);
      Round(entries, requireSigned, end, Unsatisfied(end)) == end
    decreases Open(entries, project)
  {
    var after := Round(entries, requireSigned, project, Unsatisfied(project));
    RoundAdds(entries, requireSigned, project, Unsatisfied(project));
    if after != project {
      ClosureIsIdle(entries, requireSigned, after);
    }
  }

  /** It stops with every requirement met or stuck, and running it again adds nothing. */
  lemma StopsMetOrStuck(entries: seq<Entry>, requireSigned: bool, project: seq<Plugin>)
    ensures var end := Closure(entries, requireSigned, project);
      && (forall i | 0 <= i < |Unsatisfied(end)| :: Stuck(entries, requireSigned, end, Unsatisfied(end)[i].capability))
      && Closure(entries, requireSigned, end) == end
  {
    var end := Closure(entries, requireSigned, project);
    ClosureIsIdle(entries, requireSigned, project);
    IdleRoundIffStuck(entries, requireSigned, end, Unsatisfied(end));
  }

  // ----- what it adds -----

  predicate Needed(project: seq<Plugin>, capability: string) {
    exists i | 0 <= i < |project| :: capability in project[i].needs
  }

  ghost predicate Reason(entries: seq<Entry>, requireSigned: bool, before: seq<Plugin>, p: Plugin, capability: string) {
    var e := ProviderFor(entries, capability);
    Needed(before, capability) && Acceptable(requireSigned, e) && e.value.plugin == p
  }

  /** The i-th plugin is an acceptable entry, the first provider of something needed by a plugin before
      it, under a name not taken before it. */
  ghost predicate Justified(entries: seq<Entry>, requireSigned: bool, project: seq<Plugin>, i: nat)
    requires i < |project|
  {
    && project[i].name !in Names(project[..i])
    && exists c :: Reason(entries, requireSigned, project[..i], project[i], c)
  }

  /** The project grew from `start` by justified additions only. */
  ghost predicate Grew(entries: seq<Entry>, requireSigned: bool, start: seq<Plugin>, project: seq<Plugin>) {
    start <= project && forall i | |start| <= i < |project| :: Justified(entries, requireSigned, project, i)
  }

  lemma GrewByOne(entries: seq<Entry>, requireSigned: bool, start: seq<Plugin>, project: seq<Plugin>, e: Entry, capability: string)
    requires Grew(entries, requireSigned, start, project) && Needed(project, capability)
    requires ProviderFor(entries, capability) == Some(e) && Acceptable(requireSigned, Some(e))
    ensures Grew(entries, requireSigned, start, Added(project, e))
  {
    var project' := Added(project, e);
    forall i | |start| <= i < |project'|
      ensures Justified(entries, requireSigned, project', i)
    {
      if i < |project| {
        assert Justified(entries, requireSigned, project, i);
        assert project'[..i] == project[..i];
      } else {
        assert project'[..i] == project;
        assert Reason(entries, requireSigned, project'[..i], project'[i], capability);
      }
    }
  }

  lemma NeededLater(project: seq<Plugin>, later: seq<Plugin>, capability: string)
    requires project <= later && Needed(project, capability)
    ensures Needed(later, capability)
  {
    var i :| 0 <= i < |project| && capability in project[i].needs;
    assert later[i] == project[i];
  }

  lemma {:induction false} RoundGrows(entries: seq<Entry>, requireSigned: bool, start: seq<Plugin>, project: seq<Plugin>, miss: seq<Dep>)
    requires Grew(entries, requireSigned, start, project)
    requires forall i | 0 <= i < |miss| :: Needed(project, miss[i].capability)
    ensures Grew(entries, requireSigned, start, Round(entries, requireSigned, project, miss))
  {
    if miss != [] {
      var init, c := miss[..|miss|-1], miss[|miss|-1].capability;
      assert forall i | 0 <= i < |init| :: init[i] == miss[i];
      RoundGrows(entries, requireSigned, start, project, init);
      RoundAdds(entries, requireSigned, project, init);
      NeededLater(project, Round(entries, requireSigned, project, init), c);
      var e := ProviderFor(entries, c);
      if Acceptable(requireSigned, e) {
        GrewByOne(entries, requireSigned, start, Round(entries, requireSigned, project, init), e.value, c);
      }
    }
  }

  lemma {:induction false} MissingOfIff(project: seq<Plugin>, name: string, needs: seq<string>, d: Dep)
    ensures d in MissingOf(project, name, needs) <==>
      d.plugin == name && d.capability in needs && !Offered(project, d.capability)
  {
    if needs != [] {
      MissingOfIff(project, name, needs[..|needs|-1], d);
      assert needs == needs[..|needs|-1] + [needs[|needs|-1]];
    }
  }

  predicate NeedsIt(project: seq<Plugin>, d: Dep) {
    exists i | 0 <= i < |project| :: project[i].name == d.plugin && d.capability in project[i].needs
  }

  lemma {:induction false} MissingInIff(project: seq<Plugin>, of: seq<Plugin>, d: Dep)
    ensures d in MissingIn(project, of) <==> NeedsIt(of, d) && !Offered(project, d.capability)
  {
    if of != [] {
      var init, last := of[..|of|-1], of[|of|-1];
      MissingInIff(project, init, d);
      MissingOfIff(project, last.name, last.needs, d);
      assert forall i | 0 <= i < |init| :: init[i] == of[i];
    }
  }

  /** The report lists exactly the requirements nothing offers, each with the plugin that has it; it is
      empty exactly when every requirement is met. */
  lemma UnsatisfiedIff(project: seq<Plugin>, d: Dep)
    ensures d in Unsatisfied(project) <==> NeedsIt(project, d) && !Offered(project, d.capability)
  {
    MissingInIff(project, project, d);
  }

  /** Every requirement of every plugin, in order. */
  function Requirements(project: seq<Plugin>): seq<Dep> {
    if project == [] then []
    else
      var last := project[|project|-1];
      Requirements(project[..|project|-1]) + DepsOf(last.name, last.needs)
  }

  function DepsOf(name: string, needs: seq<string>): seq<Dep> {
    seq(|needs|, i requires 0 <= i < |needs| => Dep(name, needs[i]))
  }

  /** Of a list of requirements, those that nothing in the project offers. */
  function Unmet(project: seq<Plugin>, deps: seq<Dep>): seq<Dep> {
    if deps == [] then []
    else
      var rest, d := Unmet(project, deps[..|deps|-1]), deps[|deps|-1];
      if exists i | 0 <= i < |project| :: d.capability in project[i].offers then rest else rest + [d]
  }

  lemma {:induction false} UnmetConcat(project: seq<Plugin>, a: seq<Dep>, b: seq<Dep>)
    ensures Unmet(project, a + b) == Unmet(project, a) + Unmet(project, b)
  {
    if b == [] {
      assert a + b == a;
    } else {
      UnmetConcat(project, a, b[..|b|-1]);
      assert (a + b)[..|a + b|-1] == a + b[..|b|-1];
    }
  }

  lemma {:induction false} MissingOfIsUnmet(project: seq<Plugin>, name: string, needs: seq<string>)
    ensures MissingOf(project, name, needs)
      == Unmet(project, DepsOf(name, needs))
  {
    if needs != [] {
      var n := |needs| - 1;
      MissingOfIsUnmet(project, name, needs[..n]);
      assert DepsOf(name, needs)[..n] == DepsOf(name, needs[..n]);
    }
  }

  lemma {:induction false} MissingInIsUnmet(project: seq<Plugin>, of: seq<Plugin>)
    ensures MissingIn(project, of) == Unmet(project, Requirements(of))
  {
    if of != [] {
      var last := of[|of|-1];
      MissingInIsUnmet(project, of[..|of|-1]);
      MissingOfIsUnmet(project, last.name, last.needs);
      UnmetConcat(project, Requirements(of[..|of|-1]), DepsOf(last.name, last.needs));
    }
  }

  /** And in the order of the plugins, each plugin's in its own order, repeats included. */
  lemma UnsatisfiedInOrder(project: seq<Plugin>)
    ensures Unsatisfied(project) == Unmet(project, Requirements(project))
  {
    MissingInIsUnmet(project, project);
  }

  lemma UnsatisfiedNeeded(project: seq<Plugin>, i: nat)
    requires i < |Unsatisfied(project)|
    ensures Needed(project, Unsatisfied(project)[i].capability)
  {
    var d := Unsatisfied(project)[i];
    assert d in Unsatisfied(project);
    UnsatisfiedIff(project, d);
    var j :| 0 <= j < |project| && project[j].name == d.plugin && d.capability in project[j].needs;
  }

  lemma {:induction false} ClosureGrows(entries: seq<Entry>, requireSigned: bool, start: seq<Plugin>, project: seq<Plugin>)
    requires Grew(entries, requireSigned, start, project)
    ensures Grew(entries, requireSigned, start, Closure(entries, requireSigned, project))
    decreases Open(entries, project)
  {
    var miss := Unsatisfied(project);
    var after := Round(entries, requireSigned, project, miss);
    forall i | 0 <= i < |miss| ensures Needed(project, miss[i].capability) {
      UnsatisfiedNeeded(project, i);
    }
    RoundGrows(entries, requireSigned, start, project, miss);
    RoundAdds(entries, requireSigned, project, miss);
    if after != project {
      ClosureGrows(entries, requireSigned, start, after);
    }
  }

  /** A round, or the part of one before an error, over what the project misses. */
  lemma PartOfRound(entries: seq<Entry>, requireSigned: bool, start: seq<Plugin>, project: seq<Plugin>, i: nat)
    requires Grew(entries, requireSigned, start, project) && i <= |Unsatisfied(project)|
    ensures Grew(entries, requireSigned, start, Round(entries, requireSigned, project, Unsatisfied(project)[..i]))
  {
    var miss := Unsatisfied(project);
    forall k | 0 <= k < i ensures Needed(project, miss[..i][k].capability) {
      UnsatisfiedNeeded(project, k);
    }
    RoundGrows(entries, requireSigned, start, project, miss[..i]);
  }

  lemma RoundOfMissing(entries: seq<Entry>, requireSigned: bool, start: seq<Plugin>, project: seq<Plugin>)
    requires Grew(entries, requireSigned, start, project)
    ensures var after := Round(entries, requireSigned, project, Unsatisfied(project));
      && Grew(entries, requireSigned, start, after) && project <= after
      && (after != project ==> Open(entries, after) < Open(entries, project))
      && Closure(entries, requireSigned, after) == Closure(entries, requireSigned, project)
  {
    var miss := Unsatisfied(project);
    assert miss[..|miss|] == miss;
    PartOfRound(entries, requireSigned, start, project, |miss|);
    RoundAdds(entries, requireSigned, project, miss);
  }

  /** It only adds: the project is kept as a prefix, and every plugin after it is an acceptable entry
      under a fresh name, the first provider of something an earlier plugin needs. */
  lemma OnlyAddsWhatIsNeeded(entries: seq<Entry>, requireSigned: bool, project: seq<Plugin>)
    ensures Grew(entries, requireSigned, project, Closure(entries, requireSigned, project))
  {
    ClosureGrows(entries, requireSigned, project, project);
  }

  // ----- the object -----

  /** What came of adding an entry. */
  datatype Adding = Done(added: bool) | LoadFailed | WriteFailed

  /** What came of resolving: all requirements met, some unmet, or an error in reading the project or in
      adding that entry to it. */
  datatype Outcome = Satisfied | Unmet | ReadFailed | AddFailed(e: Entry)

  ghost predicate Worked(disk: nat -> bool, from: nat, to: nat) {
    forall k: nat | from <= k < to :: disk(k)
  }

  /** The operations from `from` up to `to` worked, or, where `failed`, all but the last, which did not. */
  ghost predicate Went(disk: nat -> bool, from: nat, to: nat, failed: bool) {
    if failed then from < to && Worked(disk, from, to - 1) && !disk(to - 1)
    else from <= to && Worked(disk, from, to)
  }

  lemma WentOn(disk: nat -> bool, from: nat, mid: nat, to: nat, failed: bool)
    requires Went(disk, from, mid, false) && Went(disk, mid, to, failed)
    ensures Went(disk, from, to, failed)
  {
  }

  /** The project file: the plugin blocks it lists. `disk` says of each operation on the file system, counted
      by `ops`, whether it works: a load of the project, or the writing of an entry's manifest and block. */
  class Project {
    const disk: nat -> bool
    var ops: nat
    var plugins: seq<Plugin>

    constructor (disk: nat -> bool, plugins: seq<Plugin>)
      ensures this.disk == disk && this.plugins == plugins && ops == 0
    {
      this.disk, this.plugins, this.ops := disk, plugins, 0;
    }

    method Touch() returns (ok: bool)
      modifies this`ops
      ensures ops == old(ops) + 1 && ok == disk(old(ops))
    {
      ok := disk(ops);
      ops := ops + 1;
    }

    /** An error leaves the project as it was. */
    method AddMarketEntry(e: Entry) returns (r: Adding)
      modifies this
      ensures Went(disk, old(ops), ops, !r.Done?) && old(ops) < ops
      ensures r.LoadFailed? <==> !disk(old(ops))
      ensures r.WriteFailed? <==> disk(old(ops)) && e.plugin.name !in Names(old(plugins)) && !disk(old(ops) + 1)
      ensures !r.Done? ==> plugins == old(plugins)
      ensures r.Done? ==> plugins == Added(old(plugins), e) && (r.added <==> plugins != old(plugins))
    {
      var loaded := Touch();
      if !loaded {
        return LoadFailed;
      }
      for i := 0 to |plugins|
        invariant plugins == old(plugins) && ops == old(ops) + 1
        invariant forall j | 0 <= j < i :: plugins[j].name != e.plugin.name
      {
        if plugins[i].name == e.plugin.name {
          return Done(false);
        }
      }
      var written := Touch();
      if !written {
        return WriteFailed;
      }
      plugins := plugins + [e.plugin];
      r := Done(true);
    }

    /** The inner loop: one round over what was missing at its start. On an error it stops where it is, at
        the entry it was adding. */
    method AddProviders(entries: seq<Entry>, requireSigned: bool, miss: seq<Dep>) returns (progress: bool, failed: Option<Entry>)
      modifies this
      ensures Went(disk, old(ops), ops, failed.Some?)
      ensures failed.None? ==> plugins == Round(entries, requireSigned, old(plugins), miss) && (progress <==> plugins != old(plugins))
      ensures failed.Some? ==> StopsShort(entries, requireSigned, old(plugins), miss, plugins, failed)
    {
      progress, failed := false, None;
      for i := 0 to |miss|
        invariant failed.None? && Went(disk, old(ops), ops, false)
        invariant plugins == Round(entries, requireSigned, old(plugins), miss[..i])
        invariant old(plugins) <= plugins
        invariant progress <==> plugins != old(plugins)
      {
        assert miss[..i+1][..i] == miss[..i];
        var e := FindProvider(entries, miss[i].capability);
        if e.None? {
          continue;
        }
        if requireSigned && !e.value.verified {
          continue;
        }
        ghost var mark := ops;
        var r := AddMarketEntry(e.value);
        WentOn(disk, old(ops), mark, ops, !r.Done?);
        if !r.Done? {
          failed := e;
          assert StopsIn(entries, requireSigned, old(plugins), miss, i, plugins, failed);
          return;
        }
        progress := progress || r.added;
      }
      assert miss[..|miss|] == miss;
    }

    method ResolveWithDeps(entries: seq<Entry>, requireSigned: bool) returns (r: Outcome)
      modifies this
      ensures Went(disk, old(ops), ops, r.ReadFailed? || r.AddFailed?)
      ensures r.Satisfied? || r.Unmet? ==>
        && plugins == Closure(entries, requireSigned, old(plugins))
        && (r.Satisfied? <==> Unsatisfied(plugins) == [])
      ensures r.AddFailed? ==> r.e in entries && exists c :: Reason(entries, requireSigned, plugins, r.e.plugin, c)
      ensures Grew(entries, requireSigned, old(plugins), plugins)
    {
      while true
        invariant Went(disk, old(ops), ops, false)
        invariant Closure(entries, requireSigned, plugins) == Closure(entries, requireSigned, old(plugins))
        invariant Grew(entries, requireSigned, old(plugins), plugins)
        decreases Open(entries, plugins)
      {
        ghost var start, mark := plugins, ops;
        var loaded := Touch();
        WentOn(disk, old(ops), mark, ops, !loaded);
        if !loaded {
          return ReadFailed;
        }
        var miss := UnsatisfiedRequires(plugins);
        if |miss| == 0 {
          return Satisfied;
        }
        mark := ops;
        var progress, failed := AddProviders(entries, requireSigned, miss);
        WentOn(disk, old(ops), mark, ops, failed.Some?);
        if failed.Some? {
          ShortRound(entries, requireSigned, old(plugins), start, plugins, failed);
          return AddFailed(failed.value);
        }
        RoundOfMissing(entries, requireSigned, old(plugins), start);
        if !progress {
          return Unmet;
        }
      }
    }
  }

  /** The part of a round before the i-th requirement, whose provider was being added. */
  ghost predicate StopsIn(entries: seq<Entry>, requireSigned: bool, before: seq<Plugin>, miss: seq<Dep>, i: nat, after: seq<Plugin>,
      e: Option<Entry>)
    requires i < |miss|
  {
    && after == Round(entries, requireSigned, before, miss[..i])
    && e == ProviderFor(entries, miss[i].capability) && Acceptable(requireSigned, e)
  }

  ghost predicate StopsShort(entries: seq<Entry>, requireSigned: bool, before: seq<Plugin>, miss: seq<Dep>, after: seq<Plugin>,
      e: Option<Entry>)
  {
    exists i :: 0 <= i < |miss| && StopsIn(entries, requireSigned, before, miss, i, after, e)
  }

  /** A round that stops short has made justified additions, and was at another one. */
  lemma ShortRound(entries: seq<Entry>, requireSigned: bool, start: seq<Plugin>, before: seq<Plugin>, after: seq<Plugin>, e: Option<Entry>)
    requires Grew(entries, requireSigned, start, before)
    requires StopsShort(entries, requireSigned, before, Unsatisfied(before), after, e)
    ensures Grew(entries, requireSigned, start, after)
    ensures e.Some? && e.value in entries && exists c :: Reason(entries, requireSigned, after, e.value.plugin, c)
  {
    var miss := Unsatisfied(before);
    var i :| 0 <= i < |miss| && StopsIn(entries, requireSigned, before, miss, i, after, e);
    PartOfRound(entries, requireSigned, start, before, i);
    UnsatisfiedNeeded(before, i);
    RoundAdds(entries, requireSigned, before, miss[..i]);
    NeededLater(before, after, miss[i].capability);
    assert Reason(entries, requireSigned, after, e.value.plugin, miss[i].capability);
  }
}
