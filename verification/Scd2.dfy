/** The SCD2 strategy (plugins/strategy/scd2-py/store.py): a load compares the incoming source with
    the current rows of the history table, and merges closures and new versions into it on
    (natural key, effective_from). The headline is time travel: every past load stays readable. */
module Scd2 {
  import opened Options
  import opened FormatStore

  const FROM := "effective_from"
  const TO := "effective_to"
  const CURRENT := "is_current"
  const META := [FROM, TO, CURRENT]
  const OPEN := Text("")

  /** The strategy's options: key columns and tracked columns. */
  datatype Spec = Spec(nk: seq<string>, tracked: seq<string>) {
    function Columns(): seq<string> { nk + tracked }

    function VersionKey(): seq<string> { nk + [FROM] }

    /** The user's columns are not the strategy's own metadata columns. */
    predicate Valid() {
      forall c | c in META :: c !in nk && c !in tracked
    }
  }

  /** Python's `r.get(c)`. */
  function Get(r: Row, c: string): Cell {
    if c in r then r[c] else Null
  }

  predicate Truthy(v: Cell) {
    match v
    case Null => false
    case Text(s) => s != ""
    case Num(n) => n != 0
    case Flag(b) => b
  }

  predicate Has(r: Row, columns: seq<string>) {
    forall c | c in columns :: c in r
  }

  /** `{c: r[c] for c in columns}`. */
  function Pick(r: Row, columns: seq<string>): Row {
    map c | c in columns && c in r :: r[c]
  }

  function Stamped(r: Row, from: Cell, to: Cell, current: bool): Row {
    r[FROM := from][TO := to][CURRENT := Flag(current)]
  }

  function Version(spec: Spec, sr: Row, ts: int): Row {
    Stamped(Pick(sr, spec.Columns()), Num(ts), OPEN, true)
  }

  function Close(spec: Spec, cur: Row, ts: int): Row {
    Stamped(Pick(cur, spec.Columns()), At(cur, FROM), Num(ts), false)
  }

  predicate Differs(cur: Row, sr: Row, tracked: seq<string>) {
    exists c | c in tracked :: Get(cur, c) != Get(sr, c)
  }

  /** The `current` dictionary: keys in order of first insertion, each with its last row. */
  datatype Index = Index(order: seq<seq<Cell>>, rows: map<seq<Cell>, Row>)

  function IndexOf(spec: Spec, target: seq<Row>): Index {
    if target == [] then Index([], map[])
    else
      var before, r := IndexOf(spec, target[..|target|-1]), target[|target|-1];
      if Truthy(Get(r, CURRENT)) then
        var k := KeyOf(r, spec.nk);
        Index(if k in before.rows then before.order else before.order + [k], before.rows[k := r])
      else before
  }

  /** What one source row adds to the delta. */
  function Changes(spec: Spec, current: map<seq<Cell>, Row>, sr: Row, ts: int): seq<Row> {
    var k := KeyOf(sr, spec.nk);
    if k !in current then [Version(spec, sr, ts)]
    else if Differs(current[k], sr, spec.tracked) then [Close(spec, current[k], ts), Version(spec, sr, ts)]
    else []
  }

  function Upserts(spec: Spec, current: map<seq<Cell>, Row>, source: seq<Row>, ts: int): seq<Row> {
    if source == [] then []
    else Upserts(spec, current, source[..|source|-1], ts) + Changes(spec, current, source[|source|-1], ts)
  }

  /** Closures for the current keys the source no longer has. */
  function Deletions(spec: Spec, current: map<seq<Cell>, Row>, order: seq<seq<Cell>>, srcKeys: set<seq<Cell>>, ts: int): seq<Row> {
    if order == [] then []
    else
      var rest, k := Deletions(spec, current, order[..|order|-1], srcKeys, ts), order[|order|-1];
      if k in current && k !in srcKeys then rest + [Close(spec, current[k], ts)] else rest
  }

  function KeysOf(spec: Spec, source: seq<Row>): set<seq<Cell>> {
    set sr | sr in source :: KeyOf(sr, spec.nk)
  }

  function Delta(spec: Spec, source: seq<Row>, target: seq<Row>, ts: int): seq<Row> {
    var index := IndexOf(spec, target);
    Upserts(spec, index.rows, source, ts)
      + Deletions(spec, index.rows, index.order, KeysOf(spec, source), ts)
  }

  /** The table after a load that raised no KeyError. An empty delta writes nothing. */
  function Loaded(spec: Spec, source: seq<Row>, target: seq<Row>, ts: int): seq<Row> {
    Merge(target, spec.VersionKey(), Delta(spec, source, target, ts))
  }

  /** The loads in which a needed column is missing and Python raises KeyError: a key column of a
      current row or of a source row; a copied column of a source row that is new or changed; a
      copied column of a current row that is closed. */
  ghost predicate Raises(spec: Spec, source: seq<Row>, target: seq<Row>) {
    var index := IndexOf(spec, target);
    || (exists r | r in target :: Truthy(Get(r, CURRENT)) && !Has(r, spec.nk))
    || (exists sr | sr in source :: !SourceRowOk(spec, index.rows, sr))
    || (exists k | k in index.order :: k in index.rows && k !in KeysOf(spec, source) && !ClosesCleanly(spec, index.rows[k]))
  }

  predicate ClosesCleanly(spec: Spec, cur: Row) {
    Has(cur, spec.Columns()) && FROM in cur
  }

  predicate SourceRowOk(spec: Spec, current: map<seq<Cell>, Row>, sr: Row) {
    && Has(sr, spec.nk)
    && var k := KeyOf(sr, spec.nk);
       if k !in current then Has(sr, spec.tracked)
       else if Differs(current[k], sr, spec.tracked) then Has(sr, spec.tracked) && ClosesCleanly(spec, current[k])
       else true
  }

  // ----- apply, as it loops -----

  method BuildIndex(spec: Spec, target: seq<Row>) returns (index: Option<Index>)
    ensures index.None? <==> exists r | r in target :: Truthy(Get(r, CURRENT)) && !Has(r, spec.nk)
    ensures index.Some? ==> index.value == IndexOf(spec, target)
  {
    var order: seq<seq<Cell>>, rows: map<seq<Cell>, Row> := [], map[];
    for i := 0 to |target|
      invariant Index(order, rows) == IndexOf(spec, target[..i])
      invariant forall j | 0 <= j < i :: Truthy(Get(target[j], CURRENT)) ==> Has(target[j], spec.nk)
    {
      var r := target[i];
      assert target[..i+1][..i] == target[..i];
      if Truthy(Get(r, CURRENT)) {
        if !Has(r, spec.nk) {
          return None;
        }
        var k := KeyOf(r, spec.nk);
        order := if k in rows then order else order + [k];
        rows := rows[k := r];
      }
    }
    assert target[..|target|] == target;
    return Some(Index(order, rows));
  }

  lemma CompareNext(spec: Spec, current: map<seq<Cell>, Row>, source: seq<Row>, i: nat, ts: int)
    requires i < |source|
    ensures Upserts(spec, current, source[..i+1], ts) == Upserts(spec, current, source[..i], ts) + Changes(spec, current, source[i], ts)
    ensures KeysOf(spec, source[..i+1]) == KeysOf(spec, source[..i]) + {KeyOf(source[i], spec.nk)}
  {
    assert source[..i+1] == source[..i] + [source[i]];
  }

  /** The loop over the source: new and changed keys. */
  method CompareSource(spec: Spec, current: map<seq<Cell>, Row>, source: seq<Row>, ts: int)
    returns (out: Option<seq<Row>>, srcKeys: set<seq<Cell>>)
    ensures out.None? <==> exists sr | sr in source :: !SourceRowOk(spec, current, sr)
    ensures out.Some? ==> out.value == Upserts(spec, current, source, ts) && srcKeys == KeysOf(spec, source)
  {
    var delta: seq<Row> := [];
    srcKeys := {};
    for i := 0 to |source|
      invariant delta == Upserts(spec, current, source[..i], ts)
      invariant srcKeys == KeysOf(spec, source[..i])
      invariant forall r | r in source[..i] :: SourceRowOk(spec, current, r)
    {
      var sr := source[i];
      ghost var before := delta;
      assert source[..i+1] == source[..i] + [sr];
      if !SourceRowOk(spec, current, sr) {
        return None, srcKeys;
      }
      var k := KeyOf(sr, spec.nk);
      srcKeys := srcKeys + {k};
      if k !in current {
        delta := delta + [Version(spec, sr, ts)];
      } else if Differs(current[k], sr, spec.tracked) {
        delta := delta + [Close(spec, current[k], ts), Version(spec, sr, ts)];
      }
      assert delta == before + Changes(spec, current, sr, ts);
      CompareNext(spec, current, source, i, ts);
    }
    assert source[..|source|] == source;
    return Some(delta), srcKeys;
  }

  /** The loop over the current keys: deleted keys. */
  method CloseDeleted(spec: Spec, index: Index, srcKeys: set<seq<Cell>>, ts: int) returns (out: Option<seq<Row>>)
    ensures out.None? <==>
      exists k | k in index.order :: k in index.rows && k !in srcKeys && !ClosesCleanly(spec, index.rows[k])
    ensures out.Some? ==> out.value == Deletions(spec, index.rows, index.order, srcKeys, ts)
  {
    var closed: seq<Row> := [];
    for i := 0 to |index.order|
      invariant closed == Deletions(spec, index.rows, index.order[..i], srcKeys, ts)
      invariant forall j | 0 <= j < i :: var k := index.order[j];
        k in index.rows && k !in srcKeys ==> ClosesCleanly(spec, index.rows[k])
    {
      var k := index.order[i];
      assert index.order[..i+1][..i] == index.order[..i];
      if k in index.rows && k !in srcKeys {
        if !ClosesCleanly(spec, index.rows[k]) {
          return None;
        }
        closed := closed + [Close(spec, index.rows[k], ts)];
      }
    }
    assert index.order[..|index.order|] == index.order;
    return Some(closed);
  }

  /** The read side of `apply`: the delta to merge, or None for a KeyError. */
  method ComputeDelta(spec: Spec, source: seq<Row>, target: seq<Row>, ts: int) returns (delta: Option<seq<Row>>)
    ensures delta.None? <==> Raises(spec, source, target)
    ensures delta.Some? ==> delta.value == Delta(spec, source, target, ts)
  {
    var index := BuildIndex(spec, target);
    if index.None? {
      return None;
    }
    var upserts, srcKeys := CompareSource(spec, index.value.rows, source, ts);
    if upserts.None? {
      return None;
    }
    var closed := CloseDeleted(spec, index.value, srcKeys, ts);
    if closed.None? {
      return None;
    }
    return Some(upserts.value + closed.value);
  }

  // ----- what the comparison looks at -----

  /** The row's is_current reads as true in Python. */
  predicate IsCurrent(r: Row) {
    CURRENT in r && r[CURRENT] !in {Null, Text(""), Num(0), Flag(false)}
  }

  /** The i-th row is the last current one with that natural key. */
  predicate LastCurrent(spec: Spec, target: seq<Row>, k: seq<Cell>, i: nat)
    requires i < |target|
  {
    && IsCurrent(target[i]) && KeyOf(target[i], spec.nk) == k
    && forall j | i < j < |target| :: !(IsCurrent(target[j]) && KeyOf(target[j], spec.nk) == k)
  }

  /** The dictionary of current rows has exactly the keys of the current rows, each with the last of its rows. */
  lemma {:induction false} IndexIsLast(spec: Spec, target: seq<Row>, k: seq<Cell>) returns (i: nat)
    ensures k in IndexOf(spec, target).rows <==> exists r :: r in target && IsCurrent(r) && KeyOf(r, spec.nk) == k
    ensures k in IndexOf(spec, target).rows ==>
      i < |target| && LastCurrent(spec, target, k, i) && IndexOf(spec, target).rows[k] == target[i]
  {
    i := 0;
    if target != [] {
      var n := |target| - 1;
      var init, last := target[..n], target[n];
      assert target == init + [last];
      i := IndexIsLast(spec, init, k);
      if IsCurrent(last) && KeyOf(last, spec.nk) == k {
        i := n;
      } else if k in IndexOf(spec, init).rows {
        assert LastCurrent(spec, init, k, i);
      }
    }
  }

  /** A source row changes nothing exactly when its key is current and every tracked column is the same in both
      rows, or missing or None in both. */
  lemma UnchangedIff(spec: Spec, current: map<seq<Cell>, Row>, sr: Row, ts: int)
    ensures Changes(spec, current, sr, ts) == [] <==>
      && KeyOf(sr, spec.nk) in current
      && forall c | c in spec.tracked :: var cur := current[KeyOf(sr, spec.nk)];
           (if c in cur then cur[c] else Null) == (if c in sr then sr[c] else Null)
  {
    if KeyOf(sr, spec.nk) in current {
      var cur := current[KeyOf(sr, spec.nk)];
      assert forall c | c in spec.tracked ::
        Get(cur, c) == (if c in cur then cur[c] else Null) && Get(sr, c) == (if c in sr then sr[c] else Null);
    }
  }

  /** All the strategy's columns and no other. */
  ghost predicate Complete(spec: Spec, r: Row) {
    forall c :: c in r <==> c in spec.nk || c in spec.tracked || c in META
  }

  lemma StampedComplete(spec: Spec, r: Row, from: Cell, to: Cell, current: bool)
    requires Has(r, spec.Columns())
    ensures Complete(spec, Stamped(Pick(r, spec.Columns()), from, to, current))
  {
    forall c | c in spec.nk || c in spec.tracked ensures c in Pick(r, spec.Columns()) {
      assert c in spec.Columns();
    }
  }

  lemma {:induction false} UpsertsComplete(spec: Spec, current: map<seq<Cell>, Row>, source: seq<Row>, ts: int, r: Row)
    requires forall sr | sr in source :: SourceRowOk(spec, current, sr)
    requires r in Upserts(spec, current, source, ts)
    ensures Complete(spec, r)
  {
    var n := |source| - 1;
    if r in Upserts(spec, current, source[..n], ts) {
      UpsertsComplete(spec, current, source[..n], ts, r);
    } else {
      var sr := source[n];
      var k := KeyOf(sr, spec.nk);
      assert SourceRowOk(spec, current, sr) && r in Changes(spec, current, sr, ts);
      forall c | c in spec.Columns() ensures c in sr {
        assert c in spec.nk || c in spec.tracked;
      }
      StampedComplete(spec, sr, Num(ts), OPEN, true);
      if k in current && r == Close(spec, current[k], ts) && r != Version(spec, sr, ts) {
        StampedComplete(spec, current[k], At(current[k], FROM), Num(ts), false);
      }
    }
  }

  lemma {:induction false} DeletionsComplete(spec: Spec, current: map<seq<Cell>, Row>, order: seq<seq<Cell>>, srcKeys: set<seq<Cell>>,
      ts: int, r: Row)
    requires forall k | k in order :: k in current && k !in srcKeys ==> ClosesCleanly(spec, current[k])
    requires r in Deletions(spec, current, order, srcKeys, ts)
    ensures Complete(spec, r)
  {
    var n := |order| - 1;
    if r in Deletions(spec, current, order[..n], srcKeys, ts) {
      DeletionsComplete(spec, current, order[..n], srcKeys, ts, r);
    } else {
      var k := order[n];
      StampedComplete(spec, current[k], At(current[k], FROM), Num(ts), false);
    }
  }

  /** A load that raises no KeyError writes only complete rows, whatever the two tables lack. */
  lemma CompleteUnlessRaised(spec: Spec, source: seq<Row>, target: seq<Row>, ts: int, r: Row)
    requires !Raises(spec, source, target) && r in Delta(spec, source, target, ts)
    ensures Complete(spec, r)
  {
    var index := IndexOf(spec, target);
    if r in Upserts(spec, index.rows, source, ts) {
      UpsertsComplete(spec, index.rows, source, ts, r);
    } else {
      DeletionsComplete(spec, index.rows, index.order, KeysOf(spec, source), ts, r);
    }
  }

  /** The current row of the key is closed by the load: its key is gone from the source, or its row changed. */
  ghost predicate IsClosed(spec: Spec, current: map<seq<Cell>, Row>, source: seq<Row>, k: seq<Cell>, ts: int) {
    || (forall sr | sr in source :: KeyOf(sr, spec.nk) != k)
    || (exists sr | sr in source :: KeyOf(sr, spec.nk) == k && Changes(spec, current, sr, ts) != [])
  }

  predicate ReadsWell(spec: Spec, current: map<seq<Cell>, Row>, sr: Row, ts: int) {
    && Has(sr, spec.nk) && (Changes(spec, current, sr, ts) != [] ==> Has(sr, spec.tracked))
    && (KeyOf(sr, spec.nk) in current && Changes(spec, current, sr, ts) != [] ==> ClosesCleanly(spec, current[KeyOf(sr, spec.nk)]))
  }

  lemma SourceRowOkIff(spec: Spec, current: map<seq<Cell>, Row>, sr: Row, ts: int)
    ensures SourceRowOk(spec, current, sr) <==> ReadsWell(spec, current, sr, ts)
  {
  }

  /** A key column of the source row is missing, or, if the row is new or changed, a tracked column. */
  predicate LacksInSource(spec: Spec, current: map<seq<Cell>, Row>, sr: Row, ts: int) {
    !Has(sr, spec.nk) || (Changes(spec, current, sr, ts) != [] && !Has(sr, spec.tracked))
  }

  /** The load closes the current row of the key, and a column it copies from there is missing. */
  ghost predicate LacksInClosed(spec: Spec, current: map<seq<Cell>, Row>, source: seq<Row>, k: seq<Cell>, ts: int) {
    && k in current && IsClosed(spec, current, source, k, ts)
    && !(Has(current[k], spec.nk + spec.tracked) && FROM in current[k])
  }

  /** The load raises a KeyError exactly when a column is missing that it reads: a key column of a current row or
      of a source row, a tracked column of a source row that is new or changed, or, of a current row that it
      closes, a key column, a tracked column or effective_from. */
  lemma RaisesIff(spec: Spec, source: seq<Row>, target: seq<Row>, ts: int)
    ensures var current := IndexOf(spec, target).rows;
      Raises(spec, source, target) <==>
        || (exists r | r in target :: IsCurrent(r) && !Has(r, spec.nk))
        || (exists sr | sr in source :: LacksInSource(spec, current, sr, ts))
        || (exists k :: LacksInClosed(spec, current, source, k, ts))
  {
    var index := IndexOf(spec, target);
    IndexListsKeys(spec, target);
    if sr :| sr in source && !SourceRowOk(spec, index.rows, sr) {
      SourceRowOkIff(spec, index.rows, sr, ts);
      if !LacksInSource(spec, index.rows, sr, ts) {
        assert IsClosed(spec, index.rows, source, KeyOf(sr, spec.nk), ts);
        assert LacksInClosed(spec, index.rows, source, KeyOf(sr, spec.nk), ts);
      }
    } else if k :| k in index.order && k in index.rows && k !in KeysOf(spec, source) && !ClosesCleanly(spec, index.rows[k]) {
      assert IsClosed(spec, index.rows, source, k, ts);
      assert LacksInClosed(spec, index.rows, source, k, ts);
      assert exists l :: LacksInClosed(spec, index.rows, source, l, ts);
      assert Raises(spec, source, target);
    } else {
      forall sr | sr in source ensures !LacksInSource(spec, index.rows, sr, ts) {
        SourceRowOkIff(spec, index.rows, sr, ts);
      }
      forall k ensures !LacksInClosed(spec, index.rows, source, k, ts) {
        NothingLacks(spec, index.rows, source, k, ts);
      }
    }
  }

  lemma NothingLacks(spec: Spec, current: map<seq<Cell>, Row>, source: seq<Row>, k: seq<Cell>, ts: int)
    requires forall sr | sr in source :: SourceRowOk(spec, current, sr)
    requires k in current && k !in KeysOf(spec, source) ==> ClosesCleanly(spec, current[k])
    ensures !LacksInClosed(spec, current, source, k, ts)
  {
    if k in current && (exists sr | sr in source :: KeyOf(sr, spec.nk) == k && Changes(spec, current, sr, ts) != []) {
      var sr :| sr in source && KeyOf(sr, spec.nk) == k && Changes(spec, current, sr, ts) != [];
      SourceRowOkIff(spec, current, sr, ts);
    }
  }

  lemma {:induction false} IndexListsKeys(spec: Spec, target: seq<Row>)
    ensures forall k :: k in IndexOf(spec, target).order <==> k in IndexOf(spec, target).rows
  {
    if target != [] {
      IndexListsKeys(spec, target[..|target|-1]);
    }
  }

  /** And one over tables with no column missing raises none: source rows with all their columns, current rows
      with theirs and an effective_from. */
  lemma RaisesOnlyIfMissing(spec: Spec, source: seq<Row>, target: seq<Row>)
    requires forall sr | sr in source :: Has(sr, spec.Columns())
    requires forall r | r in target && IsCurrent(r) :: Has(r, spec.Columns()) && FROM in r
    ensures !Raises(spec, source, target)
  {
    var index := IndexOf(spec, target);
    assert forall c | c in spec.nk || c in spec.tracked :: c in spec.Columns();
    forall k | k in index.rows ensures ClosesCleanly(spec, index.rows[k]) {
      var i := IndexIsLast(spec, target, k);
      assert target[i] in target;
    }
  }
}
