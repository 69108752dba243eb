/** The in-memory format store (plugins/format/inmemory-go/store.go): one table of ordered rows with
    append, overwrite, merge (upsert on key columns) and scan. */
module FormatStore {
  import opened Options

  /** One column value. The wire carries typed columns; `Null` is Python's None. */
  datatype Cell = Null | Text(s: string) | Num(n: int) | Flag(b: bool)

  type Row = map<string, Cell>

  /** A column the row lacks reads as the zero value, the empty string. */
  function At(r: Row, column: string): Cell {
    if column in r then r[column] else Text("")
  }

  function KeyOf(r: Row, keys: seq<string>): seq<Cell> {
    seq(|keys|, i requires 0 <= i < |keys| => At(r, keys[i]))
  }

  /** The position of the first row with that key, or the length of the table. */
  function FirstMatch(rows: seq<Row>, keys: seq<string>, key: seq<Cell>): (i: nat)
    ensures i <= |rows|
    ensures i < |rows| ==> KeyOf(rows[i], keys) == key
    ensures forall j | 0 <= j < i :: KeyOf(rows[j], keys) != key
  {
    if rows == [] then 0
    else if KeyOf(rows[0], keys) == key then 0
    else 1 + FirstMatch(rows[1..], keys, key)
  }

  function Upsert(rows: seq<Row>, keys: seq<string>, sr: Row): seq<Row> {
    var i := FirstMatch(rows, keys, KeyOf(sr, keys));
    if i < |rows| then rows[i := sr] else rows + [sr]
  }

  function Merge(rows: seq<Row>, keys: seq<string>, src: seq<Row>): seq<Row> {
    if src == [] then rows
    else Upsert(Merge(rows, keys, src[..|src|-1]), keys, src[|src|-1])
  }

  // ----- merge is a keyed map update -----

  /** The row a key finds: the first with it. */
  function Lookup(rows: seq<Row>, keys: seq<string>, key: seq<Cell>): Option<Row> {
    var i := FirstMatch(rows, keys, key);
    if i < |rows| then Some(rows[i]) else None
  }

  /** The last source row with that key. */
  function LastOf(src: seq<Row>, keys: seq<string>, key: seq<Cell>): Option<Row> {
    if src == [] then None
    else
      var sr := src[|src|-1];
      if KeyOf(sr, keys) == key then Some(sr) else LastOf(src[..|src|-1], keys, key)
  }

  predicate Distinct(rows: seq<Row>, keys: seq<string>) {
    forall i, j | 0 <= i < j < |rows| :: KeyOf(rows[i], keys) != KeyOf(rows[j], keys)
  }

  lemma FirstMatchIs(rows: seq<Row>, keys: seq<string>, key: seq<Cell>, i: nat)
    requires i < |rows| && KeyOf(rows[i], keys) == key
    requires forall j | 0 <= j < i :: KeyOf(rows[j], keys) != key
    ensures FirstMatch(rows, keys, key) == i
  {
    var f := FirstMatch(rows, keys, key);
    assert !(f < i) && !(i < f);
  }

  lemma UpsertLookup(rows: seq<Row>, keys: seq<string>, sr: Row, key: seq<Cell>)
    ensures Lookup(Upsert(rows, keys, sr), keys, key)
         == if key == KeyOf(sr, keys) then Some(sr) else Lookup(rows, keys, key)
  {
    var i, up := FirstMatch(rows, keys, KeyOf(sr, keys)), Upsert(rows, keys, sr);
    if key == KeyOf(sr, keys) {
      FirstMatchIs(up, keys, key, i);
    } else {
      var f := FirstMatch(rows, keys, key);
      assert forall j | 0 <= j < |rows| && j != i :: up[j] == rows[j];
      if f < |rows| {
        FirstMatchIs(up, keys, key, f);
      }
    }
  }

  /** Each key ends at its last source row, or else keeps its old row. */
  lemma {:induction false} MergeLookup(rows: seq<Row>, keys: seq<string>, src: seq<Row>, key: seq<Cell>)
    ensures Lookup(Merge(rows, keys, src), keys, key)
         == (var last := LastOf(src, keys, key); if last.Some? then last else Lookup(rows, keys, key))
  {
    if src != [] {
      var rest := src[..|src|-1];
      MergeLookup(rows, keys, rest, key);
      UpsertLookup(Merge(rows, keys, rest), keys, src[|src|-1], key);
    }
  }

  /** Existing rows keep their positions and keys; key uniqueness is kept. */
  lemma {:induction false} MergeKeepsPlaces(rows: seq<Row>, keys: seq<string>, src: seq<Row>)
    ensures |rows| <= |Merge(rows, keys, src)|
    ensures forall i | 0 <= i < |rows| :: KeyOf(Merge(rows, keys, src)[i], keys) == KeyOf(rows[i], keys)
    ensures Distinct(rows, keys) ==> Distinct(Merge(rows, keys, src), keys)
  {
    if src != [] {
      MergeKeepsPlaces(rows, keys, src[..|src|-1]);
    }
  }

  lemma UpsertPresent(m: seq<Row>, keys: seq<string>, sr: Row)
    requires FirstMatch(m, keys, KeyOf(sr, keys)) < |m|
    ensures |Upsert(m, keys, sr)| == |m|
    ensures forall i | 0 <= i < |m| :: KeyOf(Upsert(m, keys, sr)[i], keys) == KeyOf(m[i], keys)
    ensures forall i | 0 <= i < |m| && i != FirstMatch(m, keys, KeyOf(sr, keys)) :: Upsert(m, keys, sr)[i] == m[i]
  {
  }

  /** The first match of a key depends on the keys alone. */
  lemma SameFirstMatch(m: seq<Row>, n: seq<Row>, keys: seq<string>, key: seq<Cell>)
    requires |m| == |n| && forall i | 0 <= i < |m| :: KeyOf(n[i], keys) == KeyOf(m[i], keys)
    ensures FirstMatch(n, keys, key) == FirstMatch(m, keys, key)
  {
    var i := FirstMatch(m, keys, key);
    if i < |m| {
      FirstMatchIs(n, keys, key, i);
    }
  }

  /** Merging rows whose keys are all present appends nothing and touches only first matches. */
  lemma {:induction false} MergePresent(m: seq<Row>, keys: seq<string>, src: seq<Row>)
    requires forall sr | sr in src :: FirstMatch(m, keys, KeyOf(sr, keys)) < |m|
    ensures |Merge(m, keys, src)| == |m|
    ensures forall i | 0 <= i < |m| :: KeyOf(Merge(m, keys, src)[i], keys) == KeyOf(m[i], keys)
    ensures forall i | 0 <= i < |m| && FirstMatch(m, keys, KeyOf(m[i], keys)) != i :: Merge(m, keys, src)[i] == m[i]
  {
    if src != [] {
      var rest, sr := src[..|src|-1], src[|src|-1];
      MergePresent(m, keys, rest);
      SameFirstMatch(m, Merge(m, keys, rest), keys, KeyOf(sr, keys));
      UpsertPresent(Merge(m, keys, rest), keys, sr);
    }
  }

  lemma {:induction false} LastOfMember(src: seq<Row>, keys: seq<string>, sr: Row)
    requires sr in src
    ensures LastOf(src, keys, KeyOf(sr, keys)).Some?
  {
    var n := |src| - 1;
    if KeyOf(src[n], keys) != KeyOf(sr, keys) {
      assert sr in src[..n];
      LastOfMember(src[..n], keys, sr);
    }
  }

  /** Merging the same source again changes nothing, whatever duplicates table and source hold. */
  lemma MergeIsIdempotent(rows: seq<Row>, keys: seq<string>, src: seq<Row>)
    ensures Merge(Merge(rows, keys, src), keys, src) == Merge(rows, keys, src)
  {
    var m := Merge(rows, keys, src);
    forall sr | sr in src ensures FirstMatch(m, keys, KeyOf(sr, keys)) < |m| {
      LastOfMember(src, keys, sr);
      MergeLookup(rows, keys, src, KeyOf(sr, keys));
    }
    MergePresent(m, keys, src);
    var mm := Merge(m, keys, src);
    forall i | 0 <= i < |m| ensures mm[i] == m[i] {
      var key := KeyOf(m[i], keys);
      if FirstMatch(m, keys, key) == i {
        FirstMatchIs(mm, keys, key, i);
        MergeLookup(m, keys, src, key);
        MergeLookup(rows, keys, src, key);
        assert Lookup(mm, keys, key) == Some(mm[i]) && Lookup(m, keys, key) == Some(m[i]);
      }
    }
  }

  lemma DistinctMember(rows: seq<Row>, keys: seq<string>, r: Row)
    requires Distinct(rows, keys)
    ensures r in rows <==> Lookup(rows, keys, KeyOf(r, keys)) == Some(r)
  {
    if r in rows {
      var i :| 0 <= i < |rows| && rows[i] == r;
      FirstMatchIs(rows, keys, KeyOf(r, keys), i);
    }
  }

  // ----- the object -----

  lemma MergeNext(rows: seq<Row>, keys: seq<string>, src: seq<Row>, k: nat)
    requires k < |src|
    ensures Merge(rows, keys, src[..k+1]) == Upsert(Merge(rows, keys, src[..k]), keys, src[k])
  {
    assert src[..k+1][..k] == src[..k];
  }

  lemma UpsertAt(rows: seq<Row>, keys: seq<string>, sr: Row, i: nat)
    requires i <= |rows| && forall j | 0 <= j < i :: KeyOf(rows[j], keys) != KeyOf(sr, keys)
    requires i < |rows| ==> KeyOf(rows[i], keys) == KeyOf(sr, keys)
    ensures Upsert(rows, keys, sr) == if i < |rows| then rows[i := sr] else rows + [sr]
  {
    if i < |rows| {
      FirstMatchIs(rows, keys, KeyOf(sr, keys), i);
    }
  }

  /** Keys are the same when they agree on every key column, an absent one reading as the empty string. */
  lemma SameKeyIff(a: Row, b: Row, keys: seq<string>)
    ensures KeyOf(a, keys) == KeyOf(b, keys) <==>
      forall c | c in keys :: (if c in a then a[c] else Text("")) == (if c in b then b[c] else Text(""))
  {
    if KeyOf(a, keys) == KeyOf(b, keys) {
      forall c | c in keys
        ensures (if c in a then a[c] else Text("")) == (if c in b then b[c] else Text(""))
      {
        var j :| 0 <= j < |keys| && keys[j] == c;
        assert KeyOf(a, keys)[j] == KeyOf(b, keys)[j];
      }
    }
  }

  method KeysMatch(a: Row, b: Row, keys: seq<string>) returns (same: bool)
    ensures same <==> KeyOf(a, keys) == KeyOf(b, keys)
  {
    for i := 0 to |keys|
      invariant forall j | 0 <= j < i :: At(a, keys[j]) == At(b, keys[j])
    {
      if At(a, keys[i]) != At(b, keys[i]) {
        assert KeyOf(a, keys)[i] != KeyOf(b, keys)[i];
        return false;
      }
    }
    return true;
  }

  class Table {
    var rows: seq<Row>
    var snapshot: int

    constructor ()
      ensures rows == [] && snapshot == 0
    {
      rows, snapshot := [], 0;
    }

    method Append(more: seq<Row>) returns (affected: nat, snap: int)
      modifies this
      ensures rows == old(rows) + more
      ensures affected == |more| && snap == snapshot == old(snapshot) + 1
    {
      rows := rows + more;
      snapshot := snapshot + 1;
      return |more|, snapshot;
    }

    method Overwrite(all: seq<Row>) returns (affected: nat, snap: int)
      modifies this
      ensures rows == all
      ensures affected == |all| && snap == snapshot == old(snapshot) + 1
    {
      rows := all;
      snapshot := snapshot + 1;
      return |all|, snapshot;
    }

    /** For each source row, scan for the first match and overwrite it in place, else append. */
    method MergeInPlace(keys: seq<string>, src: seq<Row>) returns (affected: nat, snap: int)
      modifies this
      ensures rows == Merge(old(rows), keys, src)
      ensures affected == |src| && snap == snapshot == old(snapshot) + 1
    {
      affected := 0;
      for k := 0 to |src|
        invariant rows == Merge(old(rows), keys, src[..k])
        invariant affected == k && snapshot == old(snapshot)
      {
        var sr, idx, i := src[k], -1, 0;
        while i < |rows|
          invariant rows == Merge(old(rows), keys, src[..k]) && snapshot == old(snapshot)
          invariant 0 <= i <= |rows| && idx == -1
          invariant forall j | 0 <= j < i :: KeyOf(rows[j], keys) != KeyOf(sr, keys)
        {
          var same := KeysMatch(rows[i], sr, keys);
          if same {
            idx := i;
            break;
          }
          i := i + 1;
        }
        MergeNext(old(rows), keys, src, k);
        UpsertAt(rows, keys, sr, i);
        if idx >= 0 {
          rows := rows[idx := sr];
        } else {
          rows := rows + [sr];
        }
        affected := affected + 1;
      }
      assert src[..|src|] == src;
      snapshot := snapshot + 1;
      return affected, snapshot;
    }

    /** Each row in its place, whole if no columns are asked for, else the asked columns it has. */
    method Scan(columns: seq<string>) returns (out: seq<Row>)
      ensures |out| == |rows|
      ensures columns == [] ==> out == rows
      ensures columns != [] ==> forall i | 0 <= i < |rows| :: forall c ::
        && (c in out[i] <==> c in columns && c in rows[i])
        && (c in out[i] ==> out[i][c] == rows[i][c])
    {
      out := [];
      for k := 0 to |rows|
        invariant |out| == k
        invariant columns == [] ==> out == rows[..k]
        invariant columns != [] ==> forall i | 0 <= i < k :: out[i].Keys == (set c | c in columns && c in rows[i])
        invariant forall i | 0 <= i < k :: forall c | c in out[i] :: c in rows[i] && out[i][c] == rows[i][c]
      {
        out := out + [if columns == [] then rows[k] else map c | c in columns && c in rows[k] :: rows[k][c]];
      }
    }
  }
}
