/** The effect leg of a format (plugins/composition/harness.py): every write mints a snapshot of its table,
    and a ledger of idempotency keys makes a repeated write answer with the original result instead of
    writing again. Strategies then record that snapshot in the catalog. */
module FormatLedger {
  import opened Options
  import Cat = Catalog
  import opened FormatStore
  import Text

  datatype WriteResult = WriteResult(affected: nat, snapshot: string, alreadyApplied: bool)

  datatype Fmt = Fmt(rows: map<string, seq<Row>>, versions: map<string, nat>, ledger: map<string, WriteResult>)

  function NoTables(): Fmt {
    Fmt(map[], map[], map[])
  }

  function RowsOf(f: Fmt, identifier: string): seq<Row> {
    if identifier in f.rows then f.rows[identifier] else []
  }

  function VersionOf(f: Fmt, identifier: string): nat {
    if identifier in f.versions then f.versions[identifier] else 0
  }

  function SnapshotOf(identifier: string, version: nat): string {
    identifier + "@v" + Text.Integer(version)
  }

  /** The snapshot the last write of the table minted, "" before any. */
  function TableSnapshot(f: Fmt, identifier: string): string {
    if VersionOf(f, identifier) == 0 then "" else SnapshotOf(identifier, VersionOf(f, identifier))
  }

  /** A write's first section: what the ledger has under its key, marked as already applied. */
  function Recorded(f: Fmt, key: string): Option<WriteResult> {
    if key != "" && key in f.ledger then Some(f.ledger[key].(alreadyApplied := true)) else None
  }

  /** Its second section: `rows` become the table, of which `affected` were sent; a snapshot is minted, and
      the result goes into the ledger. The ledger is not looked at again. */
  function Made(f: Fmt, identifier: string, rows: seq<Row>, affected: nat, key: string): (Fmt, WriteResult) {
    var v := VersionOf(f, identifier) + 1;
    var result := WriteResult(affected, SnapshotOf(identifier, v), false);
    (Fmt(f.rows[identifier := rows], f.versions[identifier := v],
         if key != "" then f.ledger[key := result] else f.ledger), result)
  }

  /** A write left alone between its sections. */
  function WriteOnce(f: Fmt, identifier: string, rows: seq<Row>, affected: nat, key: string): (Fmt, WriteResult) {
    var dup := Recorded(f, key);
    if dup.Some? then (f, dup.value) else Made(f, identifier, rows, affected, key)
  }

  function OverwriteOnce(f: Fmt, identifier: string, rows: seq<Row>, key: string): (Fmt, WriteResult) {
    WriteOnce(f, identifier, rows, |rows|, key)
  }

  function MergeOnce(f: Fmt, identifier: string, mergeKeys: seq<string>, src: seq<Row>, key: string): (Fmt, WriteResult) {
    WriteOnce(f, identifier, FormatStore.Merge(RowsOf(f, identifier), mergeKeys, src), |src|, key)
  }

  class FormatServicer {
    var store: map<string, seq<Row>>
    var versions: map<string, nat>
    var committed: map<string, WriteResult>

    ghost function View(): Fmt
      reads this
    {
      Fmt(store, versions, committed)
    }

    constructor ()
      ensures View() == NoTables()
    {
      store, versions, committed := map[], map[], map[];
    }

    method Idem(key: string) returns (dup: Option<WriteResult>)
      ensures dup == Recorded(View(), key)
    {
      if key != "" && key in committed {
        return Some(committed[key].(alreadyApplied := true));
      }
      dup := None;
    }

    method Snapshot(identifier: string) returns (snapshot: string)
      modifies this`versions
      ensures versions == old(versions)[identifier := VersionOf(old(View()), identifier) + 1]
      ensures snapshot == SnapshotOf(identifier, versions[identifier]) == identifier + "@v" + Text.Integer(versions[identifier])
    {
      versions := versions[identifier := (if identifier in versions then versions[identifier] else 0) + 1];
      snapshot := SnapshotOf(identifier, versions[identifier]);
    }

    /** The rows of a table, empty for an unknown one. */
    method Resolve(identifier: string) returns (rows: seq<Row>)
      ensures rows == RowsOf(View(), identifier)
    {
      rows := if identifier in store then store[identifier] else [];
    }

    /** The second section of a write. */
    method Make(identifier: string, rows: seq<Row>, affected: nat, key: string) returns (result: WriteResult)
      modifies this
      ensures (View(), result) == Made(old(View()), identifier, rows, affected, key)
    {
      store := store[identifier := rows];
      var snapshot := Snapshot(identifier);
      result := WriteResult(affected, snapshot, false);
      if key != "" {
        committed := committed[key := result];
      }
    }

    method Overwrite(identifier: string, rows: seq<Row>, key: string) returns (result: WriteResult)
      modifies this
      ensures (View(), result) == OverwriteOnce(old(View()), identifier, rows, key)
    {
      var dup := Idem(key);
      if dup.Some? {
        return dup.value;
      }
      result := Make(identifier, rows, |rows|, key);
    }

    method Merge(identifier: string, mergeKeys: seq<string>, src: seq<Row>, key: string) returns (result: WriteResult)
      modifies this
      ensures (View(), result) == MergeOnce(old(View()), identifier, mergeKeys, src, key)
    {
      var dup := Idem(key);
      if dup.Some? {
        return dup.value;
      }
      var table := new Table();
      table.rows := Resolve(identifier);
      var affected, _ := table.MergeInPlace(mergeKeys, src);
      result := Make(identifier, table.rows, affected, key);
    }
  }

  // ----- catalog and table -----

  /** The catalog's committed snapshot of the table is the one its last write minted. */
  predicate Linked(f: Fmt, c: Cat.Cat, target: string) {
    Cat.CommittedAt(c, target, "main") == TableSnapshot(f, target)
  }

  lemma SnapshotOfInjective(target: string, m: nat, n: nat)
    requires SnapshotOf(target, m) == SnapshotOf(target, n)
    ensures m == n
  {
    var skip := |target| + 2;
    assert SnapshotOf(target, m)[skip..] == Text.Integer(m) && SnapshotOf(target, n)[skip..] == Text.Integer(n);
    Text.ReadsInteger(m);
    Text.ReadsInteger(n);
  }

  lemma SnapshotOfNotEmpty(target: string, n: nat)
    ensures SnapshotOf(target, n) != ""
  {
    assert |SnapshotOf(target, n)| >= 2;
  }

  /** A write without a key is always made, and never recorded. */
  lemma UnkeyedAlwaysWrites(f: Fmt, target: string, rows: seq<Row>, affected: nat)
    ensures var (f', result) := WriteOnce(f, target, rows, affected, "");
      && f' == Fmt(f.rows[target := rows], f.versions[target := VersionOf(f, target) + 1], f.ledger)
      && result == WriteResult(affected, SnapshotOf(target, VersionOf(f, target) + 1), false)
  {
  }

  /** A keyed write answers with the snapshot the ledger then has under its key. */
  lemma WriteResultIs(f: Fmt, target: string, rows: seq<Row>, affected: nat, key: string)
    requires key != "" && (key in f.ledger ==> f.ledger[key].snapshot != "")
    ensures var (f', result) := WriteOnce(f, target, rows, affected, key);
      && key in f'.ledger && f'.ledger[key].snapshot == result.snapshot != ""
      && (key in f.ledger ==> f' == f)
      && (key !in f.ledger ==> result.snapshot == TableSnapshot(f', target))
  {
    SnapshotOfNotEmpty(target, VersionOf(f, target) + 1);
  }

  /** A write by itself leaves the link as it was if it is a repeat, and breaks it otherwise, unless the
      catalog happens to name the snapshot it mints. */
  lemma WriteLinksIff(f: Fmt, c: Cat.Cat, target: string, rows: seq<Row>, affected: nat, key: string)
    requires key != ""
    ensures Linked(WriteOnce(f, target, rows, affected, key).0, c, target) <==>
      if key in f.ledger then Linked(f, c, target)
      else Cat.CommittedAt(c, target, "main") == SnapshotOf(target, VersionOf(f, target) + 1)
  {
  }

  /** What committing the write under a key does to the link: a first commit links exactly when that write
      is the table's last, and a replayed one leaves the link as it was. */
  lemma CommitLinksIff(f: Fmt, c: Cat.Cat, target: string, key: string)
    requires key != "" && key in f.ledger && f.ledger[key].snapshot != ""
    requires target != "" && target in c.tables && "main" in c.branches
    ensures var c' := Cat.Commit(c, target, "main", f.ledger[key].snapshot, "", key).0;
      Linked(f, c', target) <==>
        if key in c.commitKeys then Linked(f, c, target) else f.ledger[key].snapshot == TableSnapshot(f, target)
  {
  }
}
