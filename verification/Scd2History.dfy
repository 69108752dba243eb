/** What the SCD2 history promises: after any number of loads, every past load is still readable. */
module Scd2History {
  import opened Options
  import opened FormatStore
  import opened Scd2

  function Start(r: Row): int {
    if At(r, FROM).Num? then At(r, FROM).n else 0
  }

  /** effective_from <= t < effective_to, or still open. */
  predicate ValidAt(r: Row, t: int) {
    Start(r) <= t && (At(r, TO) == OPEN || (At(r, TO).Num? && t < At(r, TO).n))
  }

  /** The table as it was at time t, on key and tracked columns. */
  ghost function AsOf(spec: Spec, rows: seq<Row>, t: int): set<Row> {
    set r | r in rows && ValidAt(r, t) :: Pick(r, spec.Columns())
  }

  /** What a source says, on key and tracked columns. */
  ghost function Snapshot(spec: Spec, source: seq<Row>): set<Row> {
    set sr | sr in source :: Pick(sr, spec.Columns())
  }

  /** Every source row has the key and tracked columns, and no two share a natural key. */
  ghost predicate SourceOk(spec: Spec, source: seq<Row>) {
    (forall sr | sr in source :: Has(sr, spec.Columns())) && Distinct(source, spec.nk)
  }

  predicate RowOk(spec: Spec, r: Row) {
    && Has(r, spec.Columns()) && Has(r, META)
    && r[FROM].Num? && (r[TO] == OPEN || r[TO].Num?)
    && r[CURRENT] == Flag(r[TO] == OPEN)
  }

  predicate EndsBefore(r: Row, s: Row) {
    At(r, TO).Num? && At(r, TO).n <= Start(s)
  }

  /** A history whose stamps reach up to `latest`: versions are identified by (natural key,
      effective_from), and each key's validity intervals are non-empty and disjoint. */
  ghost predicate History(spec: Spec, rows: seq<Row>, latest: int) {
    && (forall r: Row | r in rows ::
          && RowOk(spec, r) && Start(r) <= latest
          && (r[TO] != OPEN ==> Start(r) < r[TO].n <= latest))
    && Distinct(rows, spec.VersionKey())
    && (forall r, s | r in rows && s in rows && r != s && KeyOf(r, spec.nk) == KeyOf(s, spec.nk) ::
          EndsBefore(r, s) || EndsBefore(s, r))
  }

  // ----- keys of the rows a load writes -----

  lemma VersionKeyOf(spec: Spec, r: Row)
    ensures KeyOf(r, spec.VersionKey()) == KeyOf(r, spec.nk) + [At(r, FROM)]
  {
  }

  lemma StampedKeeps(spec: Spec, r: Row, from: Cell, to: Cell, current: bool)
    requires spec.Valid() && Has(r, spec.Columns())
    ensures var s := Stamped(Pick(r, spec.Columns()), from, to, current);
      && Pick(s, spec.Columns()) == Pick(r, spec.Columns())
      && KeyOf(s, spec.nk) == KeyOf(r, spec.nk)
      && At(s, FROM) == from && At(s, TO) == to && Has(s, spec.Columns()) && Has(s, META)
  {
    var s := Stamped(Pick(r, spec.Columns()), from, to, current);
    assert FROM in META && TO in META && CURRENT in META;
    forall i | 0 <= i < |spec.nk| ensures At(s, spec.nk[i]) == At(r, spec.nk[i]) {
      assert spec.nk[i] in spec.Columns();
    }
  }

  lemma VersionFacts(spec: Spec, sr: Row, ts: int)
    requires spec.Valid() && Has(sr, spec.Columns())
    ensures var v := Version(spec, sr, ts);
      && RowOk(spec, v) && v[TO] == OPEN && Start(v) == ts
      && KeyOf(v, spec.nk) == KeyOf(sr, spec.nk)
      && Pick(v, spec.Columns()) == Pick(sr, spec.Columns())
      && KeyOf(v, spec.VersionKey()) == KeyOf(sr, spec.nk) + [Num(ts)]
  {
    StampedKeeps(spec, sr, Num(ts), OPEN, true);
    VersionKeyOf(spec, Version(spec, sr, ts));
  }

  lemma CloseFacts(spec: Spec, cur: Row, ts: int)
    requires spec.Valid() && RowOk(spec, cur)
    ensures var c := Close(spec, cur, ts);
      && RowOk(spec, c) && c[TO] == Num(ts) && Start(c) == Start(cur)
      && KeyOf(c, spec.nk) == KeyOf(cur, spec.nk)
      && Pick(c, spec.Columns()) == Pick(cur, spec.Columns())
      && KeyOf(c, spec.VersionKey()) == KeyOf(cur, spec.nk) + [Num(Start(cur))]
  {
    StampedKeeps(spec, cur, At(cur, FROM), Num(ts), false);
    VersionKeyOf(spec, Close(spec, cur, ts));
  }

  // ----- the current index -----

  /** The index maps each natural key to a current row of that key, and lists exactly those keys. */
  ghost predicate Indexes(spec: Spec, target: seq<Row>, index: Index) {
    && (forall k | k in index.rows ::
          && index.rows[k] in target && KeyOf(index.rows[k], spec.nk) == k
          && Truthy(Get(index.rows[k], CURRENT)))
    && (forall r | r in target && Truthy(Get(r, CURRENT)) :: KeyOf(r, spec.nk) in index.rows)
    && (forall k :: k in index.order <==> k in index.rows)
  }

  lemma {:induction false} IndexIndexes(spec: Spec, target: seq<Row>)
    ensures Indexes(spec, target, IndexOf(spec, target))
  {
    if target != [] {
      var rest, r := target[..|target|-1], target[|target|-1];
      IndexIndexes(spec, rest);
      var before, after := IndexOf(spec, rest), IndexOf(spec, target);
      assert target == rest + [r];
    }
  }

  lemma CurrentIffOpen(spec: Spec, r: Row)
    requires RowOk(spec, r)
    ensures Truthy(Get(r, CURRENT)) <==> r[TO] == OPEN
    ensures At(r, TO) == r[TO] && At(r, FROM) == r[FROM] == Num(Start(r))
  {
    assert FROM in META && TO in META && CURRENT in META;
  }

  /** In a history each key has at most one current row, so the index holds all of them. */
  lemma CurrentRow(spec: Spec, rows: seq<Row>, latest: int, r: Row)
    requires History(spec, rows, latest) && r in rows && r[TO] == OPEN
    ensures var current := IndexOf(spec, rows).rows;
      KeyOf(r, spec.nk) in current && current[KeyOf(r, spec.nk)] == r
  {
    IndexIndexes(spec, rows);
    CurrentIffOpen(spec, r);
    var c := IndexOf(spec, rows).rows[KeyOf(r, spec.nk)];
    CurrentIffOpen(spec, c);
    assert c == r || EndsBefore(c, r) || EndsBefore(r, c);
  }

  ghost predicate CurrentOk(spec: Spec, current: map<seq<Cell>, Row>) {
    forall k | k in current :: RowOk(spec, current[k]) && KeyOf(current[k], spec.nk) == k
  }

  lemma CurrentIsOk(spec: Spec, rows: seq<Row>, latest: int)
    requires History(spec, rows, latest)
    ensures var current := IndexOf(spec, rows).rows;
      CurrentOk(spec, current) && forall k | k in current :: current[k] in rows && current[k][TO] == OPEN
  {
    IndexIndexes(spec, rows);
  }

  // ----- what the delta says about one version -----

  /** The delta's last word on the version (k, f), read off the source row of k and the current row of k. */
  function Verdict(spec: Spec, current: map<seq<Cell>, Row>, sourceRow: Option<Row>, ts: int, k: seq<Cell>, f: int): Option<Row> {
    if sourceRow.Some? && k !in current then
      if f == ts then Some(Version(spec, sourceRow.value, ts)) else None
    else if sourceRow.Some? then
      if !Differs(current[k], sourceRow.value, spec.tracked) then None
      else if f == ts then Some(Version(spec, sourceRow.value, ts))
      else if f == Start(current[k]) then Some(Close(spec, current[k], ts))
      else None
    else if k in current && f == Start(current[k]) then Some(Close(spec, current[k], ts))
    else None
  }

  lemma {:induction false} LastOfConcat(a: seq<Row>, b: seq<Row>, keys: seq<string>, key: seq<Cell>)
    ensures LastOf(a + b, keys, key) == if LastOf(b, keys, key).Some? then LastOf(b, keys, key) else LastOf(a, keys, key)
  {
    if b == [] {
      assert a + b == a;
    } else {
      LastOfConcat(a, b[..|b|-1], keys, key);
      assert (a + b)[..|a + b|-1] == a + b[..|b|-1];
    }
  }

  lemma LastOfOne(r: Row, keys: seq<string>, key: seq<Cell>)
    ensures LastOf([r], keys, key) == if KeyOf(r, keys) == key then Some(r) else None
  {
    assert [r][..0] == [];
  }

  lemma LastOfTwo(q: Row, r: Row, keys: seq<string>, key: seq<Cell>)
    ensures LastOf([q, r], keys, key)
      == if KeyOf(r, keys) == key then Some(r) else if KeyOf(q, keys) == key then Some(q) else None
  {
    LastOfOne(q, keys, key);
    assert [q, r][..1] == [q];
  }

  lemma SnocInjective(a: seq<Cell>, x: Cell, b: seq<Cell>, y: Cell)
    requires |a| == |b|
    ensures a + [x] == b + [y] <==> a == b && x == y
  {
    assert (a + [x])[..|a|] == a && (b + [y])[..|b|] == b;
    assert (a + [x])[|a|] == x && (b + [y])[|b|] == y;
  }

  /** A source row's changes bear only on its own key. */
  lemma ChangesLast(spec: Spec, current: map<seq<Cell>, Row>, sr: Row, ts: int, k: seq<Cell>, f: int)
    requires spec.Valid() && CurrentOk(spec, current) && Has(sr, spec.Columns())
    requires |k| == |spec.nk|
    ensures LastOf(Changes(spec, current, sr, ts), spec.VersionKey(), k + [Num(f)])
      == if KeyOf(sr, spec.nk) == k then Verdict(spec, current, Some(sr), ts, k, f) else None
  {
    var sk, vk, key := KeyOf(sr, spec.nk), spec.VersionKey(), k + [Num(f)];
    var v := Version(spec, sr, ts);
    VersionFacts(spec, sr, ts);
    SnocInjective(sk, Num(ts), k, Num(f));
    if sk !in current {
      LastOfOne(v, vk, key);
    } else if Differs(current[sk], sr, spec.tracked) {
      var c := Close(spec, current[sk], ts);
      CloseFacts(spec, current[sk], ts);
      SnocInjective(sk, Num(Start(current[sk])), k, Num(f));
      LastOfTwo(c, v, vk, key);
    }
  }

  lemma LookupSnoc(rest: seq<Row>, sr: Row, keys: seq<string>, key: seq<Cell>)
    requires Distinct(rest + [sr], keys)
    ensures Distinct(rest, keys)
    ensures Lookup(rest + [sr], keys, key) == if KeyOf(sr, keys) == key then Some(sr) else Lookup(rest, keys, key)
    ensures KeyOf(sr, keys) == key ==> Lookup(rest, keys, key) == None
  {
    var all, i := rest + [sr], FirstMatch(rest, keys, key);
    assert all[|rest|] == sr;
    forall a, b | 0 <= a < b < |rest| ensures KeyOf(rest[a], keys) != KeyOf(rest[b], keys) {
      assert all[a] == rest[a] && all[b] == rest[b];
    }
    if i < |rest| {
      assert all[i] == rest[i];
      FirstMatchIs(all, keys, key, i);
    } else if KeyOf(sr, keys) == key {
      FirstMatchIs(all, keys, key, |rest|);
    }
  }

  lemma {:induction false} UpsertsLast(spec: Spec, current: map<seq<Cell>, Row>, source: seq<Row>, ts: int, k: seq<Cell>, f: int)
    requires spec.Valid() && CurrentOk(spec, current) && SourceOk(spec, source) && |k| == |spec.nk|
    ensures LastOf(Upserts(spec, current, source, ts), spec.VersionKey(), k + [Num(f)])
      == if Lookup(source, spec.nk, k).Some? then Verdict(spec, current, Lookup(source, spec.nk, k), ts, k, f) else None
  {
    if source != [] {
      var rest, sr := source[..|source|-1], source[|source|-1];
      assert source == rest + [sr];
      LookupSnoc(rest, sr, spec.nk, k);
      UpsertsLast(spec, current, rest, ts, k, f);
      ChangesLast(spec, current, sr, ts, k, f);
      LastOfConcat(Upserts(spec, current, rest, ts), Changes(spec, current, sr, ts), spec.VersionKey(), k + [Num(f)]);
    }
  }

  lemma {:induction false} DeletionsLast(spec: Spec, current: map<seq<Cell>, Row>, order: seq<seq<Cell>>, srcKeys: set<seq<Cell>>,
                                         ts: int, k: seq<Cell>, f: int)
    requires spec.Valid() && CurrentOk(spec, current) && |k| == |spec.nk|
    ensures LastOf(Deletions(spec, current, order, srcKeys, ts), spec.VersionKey(), k + [Num(f)])
      == if k in order && k in current && k !in srcKeys && f == Start(current[k]) then Some(Close(spec, current[k], ts)) else None
  {
    if order != [] {
      var rest, d := order[..|order|-1], order[|order|-1];
      DeletionsLast(spec, current, rest, srcKeys, ts, k, f);
      assert order == rest + [d];
      if d in current && d !in srcKeys {
        var c, key := Close(spec, current[d], ts), k + [Num(f)];
        CloseFacts(spec, current[d], ts);
        LastOfConcat(Deletions(spec, current, rest, srcKeys, ts), [c], spec.VersionKey(), key);
        LastOfOne(c, spec.VersionKey(), key);
        SnocInjective(d, Num(Start(current[d])), k, Num(f));
      }
    }
  }

  lemma DeltaLast(spec: Spec, source: seq<Row>, rows: seq<Row>, latest: int, ts: int, k: seq<Cell>, f: int)
    requires spec.Valid() && History(spec, rows, latest) && SourceOk(spec, source) && |k| == |spec.nk|
    ensures LastOf(Delta(spec, source, rows, ts), spec.VersionKey(), k + [Num(f)])
      == Verdict(spec, IndexOf(spec, rows).rows, Lookup(source, spec.nk, k), ts, k, f)
  {
    var index, srcKeys := IndexOf(spec, rows), KeysOf(spec, source);
    CurrentIsOk(spec, rows, latest);
    IndexIndexes(spec, rows);
    UpsertsLast(spec, index.rows, source, ts, k, f);
    DeletionsLast(spec, index.rows, index.order, srcKeys, ts, k, f);
    LastOfConcat(Upserts(spec, index.rows, source, ts), Deletions(spec, index.rows, index.order, srcKeys, ts),
                 spec.VersionKey(), k + [Num(f)]);
    var i := FirstMatch(source, spec.nk, k);
    if i < |source| {
      assert source[i] in source && KeyOf(source[i], spec.nk) == k;
      assert k in srcKeys;
    }
  }

  // ----- the rows of the table after a load -----

  lemma {:induction false} MergeMember(rows: seq<Row>, keys: seq<string>, src: seq<Row>, r: Row)
    requires r in Merge(rows, keys, src)
    ensures r in rows || r in src
  {
    if src != [] {
      var m := Merge(rows, keys, src[..|src|-1]);
      if r in m {
        MergeMember(rows, keys, src[..|src|-1], r);
      }
    }
  }

  lemma {:induction false} UpsertsMember(spec: Spec, current: map<seq<Cell>, Row>, source: seq<Row>, ts: int, r: Row)
    requires r in Upserts(spec, current, source, ts)
    ensures (exists sr | sr in source :: r == Version(spec, sr, ts)) || (exists k | k in current :: r == Close(spec, current[k], ts))
  {
    var rest, sr := source[..|source|-1], source[|source|-1];
    if r in Changes(spec, current, sr, ts) {
      assert sr in source;
    } else {
      UpsertsMember(spec, current, rest, ts, r);
    }
  }

  lemma {:induction false} DeletionsMember(spec: Spec, current: map<seq<Cell>, Row>, order: seq<seq<Cell>>, srcKeys: set<seq<Cell>>, ts: int, r: Row)
    requires r in Deletions(spec, current, order, srcKeys, ts)
    ensures exists k | k in current :: r == Close(spec, current[k], ts)
  {
    var rest, k := order[..|order|-1], order[|order|-1];
    if r in Deletions(spec, current, rest, srcKeys, ts) {
      DeletionsMember(spec, current, rest, srcKeys, ts, r);
    }
  }

  lemma LoadedRowOk(spec: Spec, source: seq<Row>, rows: seq<Row>, latest: int, ts: int, r: Row)
    requires spec.Valid() && History(spec, rows, latest) && SourceOk(spec, source)
    requires r in Loaded(spec, source, rows, ts)
    ensures RowOk(spec, r)
  {
    MergeMember(rows, spec.VersionKey(), Delta(spec, source, rows, ts), r);
    if r !in rows {
      var index := IndexOf(spec, rows);
      CurrentIsOk(spec, rows, latest);
      if r in Upserts(spec, index.rows, source, ts) {
        UpsertsMember(spec, index.rows, source, ts, r);
      } else {
        DeletionsMember(spec, index.rows, index.order, KeysOf(spec, source), ts, r);
      }
      if sr :| sr in source && r == Version(spec, sr, ts) {
        VersionFacts(spec, sr, ts);
      } else {
        var k :| k in index.rows && r == Close(spec, index.rows[k], ts);
        CloseFacts(spec, index.rows[k], ts);
      }
    }
  }

  /** The verdict on the version a row would be. */
  ghost function VerdictOn(spec: Spec, source: seq<Row>, rows: seq<Row>, ts: int, r: Row): Option<Row> {
    var k := KeyOf(r, spec.nk);
    Verdict(spec, IndexOf(spec, rows).rows, Lookup(source, spec.nk, k), ts, k, Start(r))
  }

  /** Membership after a load, version by version: the verdict if there is one, else the old row. */
  lemma LoadedMember(spec: Spec, source: seq<Row>, rows: seq<Row>, latest: int, ts: int, r: Row)
    requires spec.Valid() && History(spec, rows, latest) && SourceOk(spec, source) && RowOk(spec, r)
    ensures r in Loaded(spec, source, rows, ts) <==>
      (var v := VerdictOn(spec, source, rows, ts, r); if v.Some? then v.value == r else r in rows)
  {
    var vk, delta := spec.VersionKey(), Delta(spec, source, rows, ts);
    var k := KeyOf(r, spec.nk);
    VersionKeyOf(spec, r);
    MergeKeepsPlaces(rows, vk, delta);
    DistinctMember(Loaded(spec, source, rows, ts), vk, r);
    DistinctMember(rows, vk, r);
    MergeLookup(rows, vk, delta, KeyOf(r, vk));
    DeltaLast(spec, source, rows, latest, ts, k, Start(r));
  }

  lemma SourceLookup(spec: Spec, source: seq<Row>, sr: Row)
    requires SourceOk(spec, source) && sr in source
    ensures Lookup(source, spec.nk, KeyOf(sr, spec.nk)) == Some(sr)
  {
    DistinctMember(source, spec.nk, sr);
  }

  /** Not differing on the tracked columns, under equal keys, is having the same picture. */
  lemma SamePicture(spec: Spec, cur: Row, sr: Row)
    requires Has(cur, spec.Columns()) && Has(sr, spec.Columns())
    requires KeyOf(cur, spec.nk) == KeyOf(sr, spec.nk)
    ensures Pick(cur, spec.Columns()) == Pick(sr, spec.Columns()) <==> !Differs(cur, sr, spec.tracked)
  {
    var p, q := Pick(cur, spec.Columns()), Pick(sr, spec.Columns());
    forall i | 0 <= i < |spec.nk| ensures cur[spec.nk[i]] == sr[spec.nk[i]] {
      assert spec.nk[i] in spec.Columns();
      assert KeyOf(cur, spec.nk)[i] == KeyOf(sr, spec.nk)[i];
    }
    if !Differs(cur, sr, spec.tracked) {
      forall c | c in spec.Columns() ensures cur[c] == sr[c] {
        if c in spec.tracked { assert Get(cur, c) == Get(sr, c); }
      }
      assert p == q;
    } else {
      var c :| c in spec.tracked && Get(cur, c) != Get(sr, c);
      assert c in spec.Columns() && c in p && c in q && p[c] != q[c];
    }
  }

  // ----- one load -----

  ghost predicate Loads(spec: Spec, source: seq<Row>, rows: seq<Row>, latest: int) {
    spec.Valid() && History(spec, rows, latest) && SourceOk(spec, source)
  }

  /** Every verdict is a version of the source row or a closure of the current row of that key. */
  lemma VerdictCases(spec: Spec, source: seq<Row>, rows: seq<Row>, latest: int, ts: int, k: seq<Cell>, f: int) returns (sr: Row, cur: Row)
    requires Loads(spec, source, rows, latest)
    requires Verdict(spec, IndexOf(spec, rows).rows, Lookup(source, spec.nk, k), ts, k, f).Some?
    ensures var v := Verdict(spec, IndexOf(spec, rows).rows, Lookup(source, spec.nk, k), ts, k, f).value;
      || (sr in source && KeyOf(sr, spec.nk) == k && f == ts && v == Version(spec, sr, ts))
      || (cur in rows && RowOk(spec, cur) && cur[TO] == OPEN && KeyOf(cur, spec.nk) == k && f == Start(cur) && v == Close(spec, cur, ts))
  {
    CurrentIsOk(spec, rows, latest);
    var i := FirstMatch(source, spec.nk, k);
    sr := if i < |source| then source[i] else map[];
    cur := if k in IndexOf(spec, rows).rows then IndexOf(spec, rows).rows[k] else map[];
  }

  /** Views before a strictly later load are untouched: a closed row still answers for its past. */
  lemma PastIsKept(spec: Spec, source: seq<Row>, rows: seq<Row>, latest: int, ts: int, t: int)
    requires Loads(spec, source, rows, latest) && latest < ts && t < ts
    ensures AsOf(spec, Loaded(spec, source, rows, ts), t) == AsOf(spec, rows, t)
  {
    var rows', cols := Loaded(spec, source, rows, ts), spec.Columns();
    forall r | r in rows' && ValidAt(r, t) ensures Pick(r, cols) in AsOf(spec, rows, t) {
      LoadedRowOk(spec, source, rows, latest, ts, r);
      LoadedMember(spec, source, rows, latest, ts, r);
      if VerdictOn(spec, source, rows, ts, r).Some? {
        var sr, cur := VerdictCases(spec, source, rows, latest, ts, KeyOf(r, spec.nk), Start(r));
        CloseFacts(spec, cur, ts);
        CurrentIffOpen(spec, cur);
        assert ValidAt(cur, t);
      }
    }
    forall r | r in rows && ValidAt(r, t) ensures Pick(r, cols) in AsOf(spec, rows', t) {
      LoadedMember(spec, source, rows, latest, ts, r);
      if VerdictOn(spec, source, rows, ts, r).Some? {
        var sr, cur := VerdictCases(spec, source, rows, latest, ts, KeyOf(r, spec.nk), Start(r));
        SameVersion(spec, rows, latest, r, cur);
        CloseFacts(spec, cur, ts);
        CurrentIffOpen(spec, Close(spec, cur, ts));
        LoadedMember(spec, source, rows, latest, ts, Close(spec, cur, ts));
        assert ValidAt(Close(spec, cur, ts), t);
      }
    }
  }

  lemma SameVersion(spec: Spec, rows: seq<Row>, latest: int, r: Row, s: Row)
    requires History(spec, rows, latest) && r in rows && s in rows
    requires KeyOf(r, spec.nk) == KeyOf(s, spec.nk) && Start(r) == Start(s)
    ensures r == s
  {
    CurrentIffOpen(spec, r);
    CurrentIffOpen(spec, s);
    VersionKeyOf(spec, r);
    VersionKeyOf(spec, s);
    DistinctMember(rows, spec.VersionKey(), r);
    DistinctMember(rows, spec.VersionKey(), s);
  }

  /** From the later of the load and everything before it, the table shows exactly the source. */
  lemma PresentIsSource(spec: Spec, source: seq<Row>, rows: seq<Row>, latest: int, ts: int, t: int)
    requires Loads(spec, source, rows, latest) && latest <= t && ts <= t
    ensures AsOf(spec, Loaded(spec, source, rows, ts), t) == Snapshot(spec, source)
  {
    var rows', cols, current := Loaded(spec, source, rows, ts), spec.Columns(), IndexOf(spec, rows).rows;
    forall r | r in rows' && ValidAt(r, t) ensures Pick(r, cols) in Snapshot(spec, source) {
      VisibleIsSource(spec, source, rows, latest, ts, t, r);
    }
    forall sr | sr in source ensures Pick(sr, cols) in AsOf(spec, rows', t) {
      SourceIsVisible(spec, source, rows, latest, ts, t, sr);
    }
  }

  lemma VisibleIsSource(spec: Spec, source: seq<Row>, rows: seq<Row>, latest: int, ts: int, t: int, r: Row)
    requires Loads(spec, source, rows, latest) && latest <= t && ts <= t
    requires r in Loaded(spec, source, rows, ts) && ValidAt(r, t)
    ensures Pick(r, spec.Columns()) in Snapshot(spec, source)
  {
    var k := KeyOf(r, spec.nk);
    LoadedRowOk(spec, source, rows, latest, ts, r);
    LoadedMember(spec, source, rows, latest, ts, r);
    CurrentIffOpen(spec, r);
    if VerdictOn(spec, source, rows, ts, r).Some? {
      var sr, cur := VerdictCases(spec, source, rows, latest, ts, k, Start(r));
      if r[TO] == OPEN {
        if cur in rows && RowOk(spec, cur) { CloseFacts(spec, cur, ts); }
        VersionFacts(spec, sr, ts);
      } else {
        if sr in source { VersionFacts(spec, sr, ts); }
        CloseFacts(spec, cur, ts);
      }
    } else {
      CurrentRow(spec, rows, latest, r);
      var i := FirstMatch(source, spec.nk, k);
      assert i < |source|;
      SamePicture(spec, r, source[i]);
      assert source[i] in source;
    }
  }

  lemma SourceIsVisible(spec: Spec, source: seq<Row>, rows: seq<Row>, latest: int, ts: int, t: int, sr: Row)
    requires Loads(spec, source, rows, latest) && latest <= t && ts <= t && sr in source
    ensures Pick(sr, spec.Columns()) in AsOf(spec, Loaded(spec, source, rows, ts), t)
  {
    var rows', k, current := Loaded(spec, source, rows, ts), KeyOf(sr, spec.nk), IndexOf(spec, rows).rows;
    SourceLookup(spec, source, sr);
    CurrentIsOk(spec, rows, latest);
    var shown := Version(spec, sr, ts);
    if k in current && !Differs(current[k], sr, spec.tracked) {
      shown := current[k];
      SamePicture(spec, shown, sr);
    } else {
      VersionFacts(spec, sr, ts);
    }
    LoadedMember(spec, source, rows, latest, ts, shown);
    CurrentIffOpen(spec, shown);
    assert shown in rows' && ValidAt(shown, t);
  }

  /** A strictly later load keeps the table a history. */
  lemma HistoryIsKept(spec: Spec, source: seq<Row>, rows: seq<Row>, latest: int, ts: int)
    requires Loads(spec, source, rows, latest) && latest < ts
    ensures History(spec, Loaded(spec, source, rows, ts), ts)
  {
    var rows' := Loaded(spec, source, rows, ts);
    MergeKeepsPlaces(rows, spec.VersionKey(), Delta(spec, source, rows, ts));
    forall r: Row | r in rows' ensures RowOk(spec, r) && Start(r) <= ts && (r[TO] != OPEN ==> Start(r) < r[TO].n <= ts) {
      var _ := RowOrigin(spec, source, rows, latest, ts, r);
    }
    forall r, s | r in rows' && s in rows' && r != s && KeyOf(r, spec.nk) == KeyOf(s, spec.nk)
      ensures EndsBefore(r, s) || EndsBefore(s, r)
    {
      VersionsApart(spec, source, rows, latest, ts, r, s);
    }
  }

  /** A row after a load is a new version, or stands for an old row: that row itself, or its closure. */
  lemma RowOrigin(spec: Spec, source: seq<Row>, rows: seq<Row>, latest: int, ts: int, r: Row) returns (was: Option<Row>)
    requires Loads(spec, source, rows, latest) && latest < ts && r in Loaded(spec, source, rows, ts)
    ensures RowOk(spec, r) && Start(r) <= ts && (r[TO] != OPEN ==> Start(r) < r[TO].n <= ts)
    ensures was.None? ==>
      && Start(r) == ts && r[TO] == OPEN
      && Lookup(source, spec.nk, KeyOf(r, spec.nk)).Some?
      && VerdictOn(spec, source, rows, ts, r) == Some(r)
    ensures was.Some? ==>
      var o := was.value;
      && o in rows && KeyOf(o, spec.nk) == KeyOf(r, spec.nk) && Start(o) == Start(r) <= latest
      && ((r == o && VerdictOn(spec, source, rows, ts, r) == None) || (o[TO] == OPEN && At(r, TO) == Num(ts)))
  {
    LoadedRowOk(spec, source, rows, latest, ts, r);
    LoadedMember(spec, source, rows, latest, ts, r);
    CurrentIffOpen(spec, r);
    was := Some(r);
    if VerdictOn(spec, source, rows, ts, r).Some? {
      var sr, cur := VerdictCases(spec, source, rows, latest, ts, KeyOf(r, spec.nk), Start(r));
      if cur in rows && RowOk(spec, cur) && r == Close(spec, cur, ts) {
        CloseFacts(spec, cur, ts);
        was := Some(cur);
      } else {
        VersionFacts(spec, sr, ts);
        SourceLookup(spec, source, sr);
        was := None;
      }
    }
  }

  lemma LoadedVersionsDiffer(spec: Spec, source: seq<Row>, rows: seq<Row>, latest: int, ts: int, r: Row, s: Row)
    requires Loads(spec, source, rows, latest)
    requires r in Loaded(spec, source, rows, ts) && s in Loaded(spec, source, rows, ts)
    requires r != s && KeyOf(r, spec.nk) == KeyOf(s, spec.nk)
    ensures Start(r) != Start(s)
  {
    LoadedRowOk(spec, source, rows, latest, ts, r);
    LoadedRowOk(spec, source, rows, latest, ts, s);
    CurrentIffOpen(spec, r);
    CurrentIffOpen(spec, s);
    VersionKeyOf(spec, r);
    VersionKeyOf(spec, s);
    MergeKeepsPlaces(rows, spec.VersionKey(), Delta(spec, source, rows, ts));
    DistinctMember(Loaded(spec, source, rows, ts), spec.VersionKey(), r);
    DistinctMember(Loaded(spec, source, rows, ts), spec.VersionKey(), s);
  }

  /** Rows that stand for different old rows of a key are as far apart as those were. */
  lemma OldRowsApart(spec: Spec, rows: seq<Row>, latest: int, ts: int, r: Row, s: Row, o: Row, p: Row)
    requires History(spec, rows, latest) && latest < ts
    requires o in rows && p in rows && o != p && KeyOf(o, spec.nk) == KeyOf(p, spec.nk)
    requires Start(r) == Start(o) && Start(s) == Start(p)
    requires r == o || (o[TO] == OPEN && At(r, TO) == Num(ts))
    requires s == p || (p[TO] == OPEN && At(s, TO) == Num(ts))
    ensures EndsBefore(r, s) || EndsBefore(s, r)
  {
    CurrentIffOpen(spec, o);
    CurrentIffOpen(spec, p);
    assert EndsBefore(o, p) || EndsBefore(p, o);
  }

  lemma VersionsApart(spec: Spec, source: seq<Row>, rows: seq<Row>, latest: int, ts: int, r: Row, s: Row)
    requires Loads(spec, source, rows, latest) && latest < ts
    requires r in Loaded(spec, source, rows, ts) && s in Loaded(spec, source, rows, ts)
    requires r != s && KeyOf(r, spec.nk) == KeyOf(s, spec.nk)
    ensures EndsBefore(r, s) || EndsBefore(s, r)
  {
    var o := RowOrigin(spec, source, rows, latest, ts, r);
    var p := RowOrigin(spec, source, rows, latest, ts, s);
    LoadedVersionsDiffer(spec, source, rows, latest, ts, r, s);
    if o.Some? && p.Some? {
      OldRowsApart(spec, rows, latest, ts, r, s, o.value, p.value);
    } else if o.None? && p.Some? {
      OldEndsByLoad(spec, source, rows, latest, ts, r, s, p.value);
    } else if o.Some? {
      OldEndsByLoad(spec, source, rows, latest, ts, s, r, o.value);
    }
  }

  /** A key that gets a new version has no open row left beside it. */
  lemma OldEndsByLoad(spec: Spec, source: seq<Row>, rows: seq<Row>, latest: int, ts: int, v: Row, s: Row, o: Row)
    requires Loads(spec, source, rows, latest) && latest < ts
    requires KeyOf(v, spec.nk) == KeyOf(s, spec.nk) == KeyOf(o, spec.nk)
    requires Start(v) == ts && VerdictOn(spec, source, rows, ts, v) == Some(v)
    requires Lookup(source, spec.nk, KeyOf(v, spec.nk)).Some?
    requires o in rows && Start(o) == Start(s) <= latest
    requires (s == o && VerdictOn(spec, source, rows, ts, s) == None) || (o[TO] == OPEN && At(s, TO) == Num(ts))
    ensures EndsBefore(s, v)
  {
    CurrentIffOpen(spec, o);
    if s == o && o[TO] == OPEN {
      CurrentRow(spec, rows, latest, o);
    }
  }

  // ----- any sequence of loads -----

  datatype Load = Load(ts: int, source: seq<Row>)

  /** The history table after the loads, starting from an empty one. */
  function Table(spec: Spec, loads: seq<Load>): seq<Row> {
    if loads == [] then []
    else
      var last := loads[|loads|-1];
      Loaded(spec, last.source, Table(spec, loads[..|loads|-1]), last.ts)
  }

  ghost predicate LoadsOk(spec: Spec, loads: seq<Load>) {
    && spec.Valid()
    && (forall i | 0 <= i < |loads| :: SourceOk(spec, loads[i].source))
    && (forall i, j | 0 <= i < j < |loads| :: loads[i].ts < loads[j].ts)
  }

  /** What the last load of a sequence finds: a history of strictly earlier stamps. */
  lemma {:induction false} BeforeLast(spec: Spec, loads: seq<Load>) returns (latest: int)
    requires LoadsOk(spec, loads) && loads != []
    ensures var n := |loads| - 1;
      && LoadsOk(spec, loads[..n])
      && Loads(spec, loads[n].source, Table(spec, loads[..n]), latest)
      && latest < loads[n].ts
    decreases |loads|, 0
  {
    var n := |loads| - 1;
    if n == 0 {
      latest := loads[n].ts - 1;
      assert Table(spec, loads[..n]) == [];
    } else {
      latest := loads[n-1].ts;
      TableIsHistory(spec, loads[..n]);
    }
  }

  /** After any loads with strictly increasing timestamps: version intervals of a key are disjoint, so
      at most one row per key is current. */
  lemma {:induction false} TableIsHistory(spec: Spec, loads: seq<Load>)
    requires LoadsOk(spec, loads) && loads != []
    ensures History(spec, Table(spec, loads), loads[|loads|-1].ts)
    decreases |loads|, 1
  {
    var latest := BeforeLast(spec, loads);
    var n := |loads| - 1;
    HistoryIsKept(spec, loads[n].source, Table(spec, loads[..n]), latest, loads[n].ts);
  }

  /** Time travel: at every t from the i-th load up to the next one, the table after ALL the loads
      shows exactly what the i-th source said. */
  lemma {:induction false} TimeTravel(spec: Spec, loads: seq<Load>, i: nat, t: int)
    requires LoadsOk(spec, loads) && i < |loads|
    requires loads[i].ts <= t && (i + 1 < |loads| ==> t < loads[i+1].ts)
    ensures AsOf(spec, Table(spec, loads), t) == Snapshot(spec, loads[i].source)
  {
    var latest := BeforeLast(spec, loads);
    var n := |loads| - 1;
    var before, last := loads[..n], loads[n];
    if i == n {
      PresentIsSource(spec, last.source, Table(spec, before), latest, last.ts, t);
    } else {
      assert t < last.ts;
      TimeTravel(spec, before, i, t);
      PastIsKept(spec, last.source, Table(spec, before), latest, last.ts, t);
    }
  }

  /** Before the first load there is nothing to see. */
  lemma {:induction false} NothingBeforeFirstLoad(spec: Spec, loads: seq<Load>, t: int)
    requires LoadsOk(spec, loads) && (loads != [] ==> t < loads[0].ts)
    ensures AsOf(spec, Table(spec, loads), t) == {}
  {
    if loads != [] {
      var latest := BeforeLast(spec, loads);
      var n := |loads| - 1;
      NothingBeforeFirstLoad(spec, loads[..n], t);
      PastIsKept(spec, loads[n].source, Table(spec, loads[..n]), latest, loads[n].ts, t);
    }
  }

  /** Why timestamps must grow: a load keeps the newest view readable exactly when it is stamped
      strictly later than everything before it, or has nothing to change. */
  lemma NewestViewKeptIff(spec: Spec, source: seq<Row>, rows: seq<Row>, latest: int, ts: int)
    requires Loads(spec, source, rows, latest)
    ensures AsOf(spec, Loaded(spec, source, rows, ts), latest) == AsOf(spec, rows, latest)
      <==> latest < ts || Snapshot(spec, source) == AsOf(spec, rows, latest)
  {
    if latest < ts {
      PastIsKept(spec, source, rows, latest, ts, latest);
    } else {
      PresentIsSource(spec, source, rows, latest, ts, latest);
    }
  }

  // ----- idempotence -----

  /** If the table currently shows exactly the source, the delta is empty at any timestamp. */
  lemma NothingToDo(spec: Spec, source: seq<Row>, rows: seq<Row>, latest: int, ts: int)
    requires Loads(spec, source, rows, latest)
    requires AsOf(spec, rows, latest) == Snapshot(spec, source)
    ensures Delta(spec, source, rows, ts) == []
  {
    var index, cols := IndexOf(spec, rows), spec.Columns();
    forall sr | sr in source ensures Changes(spec, index.rows, sr, ts) == [] {
      assert Pick(sr, cols) in AsOf(spec, rows, latest);
      var r :| r in rows && ValidAt(r, latest) && Pick(r, cols) == Pick(sr, cols);
      CurrentIffOpen(spec, r);
      PickKey(spec, r, sr);
      CurrentRow(spec, rows, latest, r);
      SamePicture(spec, r, sr);
    }
    NoUpserts(spec, index.rows, source, ts);
    CurrentIsOk(spec, rows, latest);
    forall k | k in index.rows ensures k in KeysOf(spec, source) {
      var cur := index.rows[k];
      CurrentIffOpen(spec, cur);
      assert ValidAt(cur, latest);
      assert Pick(cur, cols) in Snapshot(spec, source);
      var sr :| sr in source && Pick(sr, cols) == Pick(cur, cols);
      PickKey(spec, cur, sr);
    }
    NoDeletions(spec, index.rows, index.order, KeysOf(spec, source), ts);
  }

  lemma PickKey(spec: Spec, r: Row, s: Row)
    requires Has(r, spec.Columns()) && Has(s, spec.Columns())
    requires Pick(r, spec.Columns()) == Pick(s, spec.Columns())
    ensures KeyOf(r, spec.nk) == KeyOf(s, spec.nk)
  {
    var p, q := Pick(r, spec.Columns()), Pick(s, spec.Columns());
    forall i | 0 <= i < |spec.nk| ensures At(r, spec.nk[i]) == At(s, spec.nk[i]) {
      assert spec.nk[i] in spec.Columns();
      assert p[spec.nk[i]] == q[spec.nk[i]];
    }
  }

  lemma {:induction false} NoUpserts(spec: Spec, current: map<seq<Cell>, Row>, source: seq<Row>, ts: int)
    requires forall sr | sr in source :: Changes(spec, current, sr, ts) == []
    ensures Upserts(spec, current, source, ts) == []
  {
    if source != [] {
      NoUpserts(spec, current, source[..|source|-1], ts);
      assert source[|source|-1] in source;
    }
  }

  lemma {:induction false} NoDeletions(spec: Spec, current: map<seq<Cell>, Row>, order: seq<seq<Cell>>, srcKeys: set<seq<Cell>>, ts: int)
    requires forall k | k in current :: k in srcKeys
    ensures Deletions(spec, current, order, srcKeys, ts) == []
  {
    if order != [] {
      NoDeletions(spec, current, order[..|order|-1], srcKeys, ts);
    }
  }

  /** Re-applying the last source, at any timestamp, finds nothing to do and leaves the table as it
      is: a crash after the merge and a retry have one effect on the data. */
  lemma RetryIsNoOp(spec: Spec, loads: seq<Load>, ts: int)
    requires LoadsOk(spec, loads) && loads != []
    ensures var rows, source := Table(spec, loads), loads[|loads|-1].source;
      && Delta(spec, source, rows, ts) == []
      && Loaded(spec, source, rows, ts) == rows
  {
    var last := loads[|loads|-1];
    TableIsHistory(spec, loads);
    TimeTravel(spec, loads, |loads| - 1, last.ts);
    NothingToDo(spec, last.source, Table(spec, loads), last.ts, ts);
  }

  /** Under the loads' conditions no load raises KeyError. */
  lemma NeverRaises(spec: Spec, source: seq<Row>, rows: seq<Row>, latest: int)
    requires Loads(spec, source, rows, latest)
    ensures !Raises(spec, source, rows)
  {
    var index := IndexOf(spec, rows);
    CurrentIsOk(spec, rows, latest);
    assert FROM in META;
    forall c | c in spec.nk || c in spec.tracked ensures c in spec.Columns() {}
  }
}
