/** The audit-log sink (plugins/auditlog/inmemory-py/store.py): it stores the core's signed hash chain
    and can neither fork nor reorder it, whatever batches it is sent. */
module AuditSink {

  /** Everything the canonical serialization covers: all fields but the signature. */
  datatype Body = Body(id: string, prevHash: string, payload: string)

  datatype Record = Record(body: Body, signature: string)

  /** SHA-256 over the canonical bytes, and the check against the core's published key. */
  datatype Crypto = Crypto(hash: Body -> string, verifies: Record -> bool)

  datatype Status = Committed | Duplicate | BadSignature | ChainBreak

  datatype Ack = Ack(id: string, status: Status)

  datatype Sink = Sink(head: string, ids: set<string>, records: seq<Record>)

  function EmptySink(): Sink {
    Sink("", {}, [])
  }

  /** What one record gets in a batch where nothing was rejected before it. */
  function Judge(k: Crypto, s: Sink, r: Record): Status {
    if r.body.id in s.ids then Duplicate
    else if !k.verifies(r) then BadSignature
    else if r.body.prevHash != s.head then ChainBreak
    else Committed
  }

  predicate Rejects(st: Status) {
    st.BadSignature? || st.ChainBreak?
  }

  function Commit(k: Crypto, s: Sink, r: Record): Sink {
    Sink(k.hash(r.body), s.ids + {r.body.id}, s.records + [r])
  }

  /** A batch run: the sink, whether a record was rejected, and the acks so far. */
  datatype Progress = Progress(sink: Sink, rejected: bool, acks: seq<Ack>)

  function Appended(k: Crypto, s: Sink, batch: seq<Record>): Progress {
    if batch == [] then Progress(s, false, [])
    else
      var before, r := Appended(k, s, batch[..|batch|-1]), batch[|batch|-1];
      if before.rejected then before.(acks := before.acks + [Ack(r.body.id, ChainBreak)])
      else
        var st := Judge(k, before.sink, r);
        Progress(if st.Committed? then Commit(k, before.sink, r) else before.sink,
                 Rejects(st), before.acks + [Ack(r.body.id, st)])
  }

  /** The sink after any sequence of Append calls. */
  function After(k: Crypto, batches: seq<seq<Record>>): Sink {
    if batches == [] then EmptySink()
    else Appended(k, After(k, batches[..|batches|-1]), batches[|batches|-1]).sink
  }

  class AuditSink {
    const crypto: Crypto
    var headHash: string
    var committedIds: set<string>
    var records: seq<Record>

    ghost function View(): Sink
      reads this
    {
      Sink(headHash, committedIds, records)
    }

    constructor (crypto: Crypto)
      ensures this.crypto == crypto && View() == EmptySink()
    {
      this.crypto := crypto;
      headHash, committedIds, records := "", {}, [];
    }

    method Append(batch: seq<Record>) returns (acks: seq<Ack>, lastId: string, lastHash: string)
      modifies this
      ensures var p := Appended(crypto, old(View()), batch); View() == p.sink && acks == p.acks
      ensures lastId == if records == [] then "" else records[|records|-1].body.id
      ensures lastHash == headHash
    {
      acks := [];
      var rejected := false;
      for i := 0 to |batch|
        invariant Progress(View(), rejected, acks) == Appended(crypto, old(View()), batch[..i])
      {
        assert batch[..i+1][..i] == batch[..i];
        var rec := batch[i];
        if rejected {
          acks := acks + [Ack(rec.body.id, ChainBreak)];
        } else if rec.body.id in committedIds {
          acks := acks + [Ack(rec.body.id, Duplicate)];
        } else if !crypto.verifies(rec) {
          rejected := true;
          acks := acks + [Ack(rec.body.id, BadSignature)];
        } else if rec.body.prevHash != headHash {
          rejected := true;
          acks := acks + [Ack(rec.body.id, ChainBreak)];
        } else {
          headHash := crypto.hash(rec.body);
          committedIds := committedIds + {rec.body.id};
          records := records + [rec];
          acks := acks + [Ack(rec.body.id, Committed)];
        }
      }
      assert batch[..|batch|] == batch;
      lastId := if records == [] then "" else records[|records|-1].body.id;
      lastHash := headHash;
    }
  }

  // ----- any batch, on the sink's own terms -----

  /** The hash of the last record stored, "" before any. */
  function LastHash(k: Crypto, records: seq<Record>): string {
    if records == [] then "" else k.hash(records[|records|-1].body)
  }

  ghost predicate Stores(records: seq<Record>, id: string) {
    exists r :: r in records && r.body.id == id
  }

  /** The head and the ids are those of the stored records. */
  ghost predicate Consistent(k: Crypto, s: Sink) {
    s.head == LastHash(k, s.records) && forall id :: id in s.ids <==> Stores(s.records, id)
  }

  /** The records of a batch that were acked Committed, in order. */
  function CommittedOf(batch: seq<Record>, acks: seq<Ack>): seq<Record>
    requires |acks| == |batch|
  {
    if batch == [] then []
    else
      var n := |batch| - 1;
      CommittedOf(batch[..n], acks[..n]) + if acks[n].status.Committed? then [batch[n]] else []
  }

  predicate Rejected(a: Ack) {
    a.status.BadSignature? || a.status.ChainBreak?
  }

  lemma {:induction false} AckPerRecord(k: Crypto, s: Sink, batch: seq<Record>)
    ensures |Appended(k, s, batch).acks| == |batch|
    ensures forall i | 0 <= i < |batch| :: Appended(k, s, batch).acks[i].id == batch[i].body.id
  {
    if batch != [] {
      AckPerRecord(k, s, batch[..|batch|-1]);
    }
  }

  lemma {:induction false} AcksOfPrefix(k: Crypto, s: Sink, batch: seq<Record>, i: nat)
    requires i <= |batch|
    ensures |Appended(k, s, batch).acks| == |batch| && |Appended(k, s, batch[..i]).acks| == i
    ensures Appended(k, s, batch[..i]).acks == Appended(k, s, batch).acks[..i]
  {
    AckPerRecord(k, s, batch);
    AckPerRecord(k, s, batch[..i]);
    if i < |batch| {
      var init := batch[..|batch|-1];
      AcksOfPrefix(k, s, init, i);
      assert init[..i] == batch[..i];
      assert Appended(k, s, init).acks == Appended(k, s, batch).acks[..|init|];
    } else {
      assert batch[..i] == batch;
    }
  }

  /** The stored records grow by exactly the batch's records acked Committed, in their order. */
  lemma {:induction false} StoresWhatItAcks(k: Crypto, s: Sink, batch: seq<Record>)
    ensures |Appended(k, s, batch).acks| == |batch|
    ensures Appended(k, s, batch).sink.records == s.records + CommittedOf(batch, Appended(k, s, batch).acks)
  {
    AckPerRecord(k, s, batch);
    if batch != [] {
      var n := |batch| - 1;
      StoresWhatItAcks(k, s, batch[..n]);
      AcksOfPrefix(k, s, batch, n);
    }
  }

  lemma CommitKeepsConsistent(k: Crypto, s: Sink, r: Record)
    requires Consistent(k, s)
    ensures Consistent(k, Commit(k, s, r))
  {
    var records := s.records + [r];
    forall id ensures id in s.ids + {r.body.id} <==> Stores(records, id) {
      if id in s.ids {
        var x :| x in s.records && x.body.id == id;
        assert x in records;
      } else if id == r.body.id {
        assert r in records;
      }
    }
  }

  lemma {:induction false} AppendKeepsConsistent(k: Crypto, s: Sink, batch: seq<Record>)
    requires Consistent(k, s)
    ensures Consistent(k, Appended(k, s, batch).sink)
  {
    if batch != [] {
      var before, r := Appended(k, s, batch[..|batch|-1]), batch[|batch|-1];
      AppendKeepsConsistent(k, s, batch[..|batch|-1]);
      CommitKeepsConsistent(k, before.sink, r);
    }
  }

  /** After any sequence of batches the head is the last record's hash and the ids are the records'. */
  lemma {:induction false} AlwaysConsistent(k: Crypto, batches: seq<seq<Record>>)
    ensures Consistent(k, After(k, batches))
  {
    if batches != [] {
      AlwaysConsistent(k, batches[..|batches|-1]);
      AppendKeepsConsistent(k, After(k, batches[..|batches|-1]), batches[|batches|-1]);
    }
  }

  lemma {:induction false} RejectedIff(k: Crypto, s: Sink, batch: seq<Record>)
    ensures Appended(k, s, batch).rejected <==> exists a :: a in Appended(k, s, batch).acks && Rejected(a)
  {
    if batch != [] {
      var before, p := Appended(k, s, batch[..|batch|-1]), Appended(k, s, batch);
      RejectedIff(k, s, batch[..|batch|-1]);
      assert p.acks == before.acks + [p.acks[|p.acks|-1]];
      if exists a :: a in before.acks && Rejected(a) {
        var a :| a in before.acks && Rejected(a);
        assert a in p.acks;
      } else if Rejected(p.acks[|p.acks|-1]) {
        assert p.acks[|p.acks|-1] in p.acks;
      }
    }
  }

  /** The i-th ack of a batch, told from the records stored before it: while nothing was rejected, a stored
      id is a duplicate, else a record that does not verify is rejected as badly signed, else one that does
      not name the last stored record's hash is rejected as breaking the chain, else it is committed.
      After a rejection everything breaks the chain. */
  lemma AckedIff(k: Crypto, s: Sink, batch: seq<Record>, i: nat)
    requires Consistent(k, s) && i < |batch|
    ensures |Appended(k, s, batch).acks| == |batch|
    ensures var acks, r := Appended(k, s, batch).acks, batch[i];
      var stored := s.records + CommittedOf(batch[..i], acks[..i]);
      var st := acks[i].status;
      if exists j :: 0 <= j < i && Rejected(acks[j]) then st.ChainBreak?
      else
        && (st.Duplicate? <==> Stores(stored, r.body.id))
        && (st.BadSignature? <==> !Stores(stored, r.body.id) && !k.verifies(r))
        && (st.ChainBreak? <==> !Stores(stored, r.body.id) && k.verifies(r) && r.body.prevHash != LastHash(k, stored))
        && (st.Committed? <==> !Stores(stored, r.body.id) && k.verifies(r) && r.body.prevHash == LastHash(k, stored))
  {
    var acks, before := Appended(k, s, batch).acks, Appended(k, s, batch[..i]);
    AcksOfPrefix(k, s, batch, i);
    AcksOfPrefix(k, s, batch, i + 1);
    assert batch[..i+1][..i] == batch[..i];
    assert acks[i] == Appended(k, s, batch[..i+1]).acks[i];
    StoresWhatItAcks(k, s, batch[..i]);
    AppendKeepsConsistent(k, s, batch[..i]);
    RejectedIff(k, s, batch[..i]);
    if before.rejected {
      var a :| a in before.acks && Rejected(a);
      var j :| 0 <= j < i && acks[..i][j] == a;
      assert Rejected(acks[j]);
    }
  }

  /** Prefix-only commit: once a record of a batch is rejected, every later one is acked as breaking the
      chain and none of them is stored. */
  lemma NothingAfterRejection(k: Crypto, s: Sink, batch: seq<Record>, i: nat, j: nat)
    requires Consistent(k, s) && i < j < |batch|
    requires |Appended(k, s, batch).acks| == |batch| && Rejected(Appended(k, s, batch).acks[i])
    ensures Appended(k, s, batch).acks[j] == Ack(batch[j].body.id, ChainBreak)
    ensures Appended(k, s, batch).sink == Appended(k, s, batch[..i]).sink
  {
    AckPerRecord(k, s, batch);
    AckedIff(k, s, batch, j);
    RejectedStops(k, s, batch, i);
  }

  lemma {:induction false} RejectedStops(k: Crypto, s: Sink, batch: seq<Record>, i: nat)
    requires i < |batch| && |Appended(k, s, batch).acks| == |batch| && Rejected(Appended(k, s, batch).acks[i])
    ensures Appended(k, s, batch).sink == Appended(k, s, batch[..i]).sink && Appended(k, s, batch).rejected
  {
    var n := |batch| - 1;
    AckPerRecord(k, s, batch[..n]);
    if i < n {
      AcksOfPrefix(k, s, batch, n);
      RejectedStops(k, s, batch[..n], i);
      assert batch[..n][..i] == batch[..i];
    }
  }

  // ----- the core's chain -----

  function HeadOf(k: Crypto, chain: seq<Body>, n: nat): string
    requires n <= |chain|
  {
    if n == 0 then "" else k.hash(chain[n-1])
  }

  /** Position i of the chain names the hash of the position before it. */
  predicate LinkedAt(k: Crypto, chain: seq<Body>, i: nat)
    requires i < |chain|
  {
    chain[i].prevHash == HeadOf(k, chain, i)
  }

  /** What the core authored: every record names the hash of the one before, and ids are unique. */
  ghost predicate Authored(k: Crypto, chain: seq<Body>) {
    && (forall i | 0 <= i < |chain| :: LinkedAt(k, chain, i))
    && (forall i, j | 0 <= i < j < |chain| :: chain[i].id != chain[j].id)
  }

  ghost predicate Collide(k: Crypto, a: Body, b: Body) {
    a != b && k.hash(a) == k.hash(b)
  }

  /** What is assumed of the primitives: the hash never collides and is never empty, and only what the
      core authored carries a signature that verifies. */
  ghost predicate Sound(k: Crypto, chain: seq<Body>) {
    && (forall a, b :: !Collide(k, a, b))
    && (forall a :: k.hash(a) != "")
    && (forall r: Record | k.verifies(r) :: r.body in chain)
  }

  /** One of the first n records of the chain has this id. */
  ghost predicate IdWithin(chain: seq<Body>, n: nat, id: string)
    requires n <= |chain|
  {
    exists i | 0 <= i < n :: chain[i].id == id
  }

  /** The sink holds exactly the first n records of the chain. */
  ghost predicate HoldsPrefix(k: Crypto, s: Sink, chain: seq<Body>, n: nat) {
    && n <= |chain| && |s.records| == n
    && (forall i | 0 <= i < n :: s.records[i].body == chain[i])
    && s.head == HeadOf(k, chain, n)
    && (forall id :: id in s.ids <==> IdWithin(chain, n, id))
  }

  /** No two positions of the chain have the same head. */
  lemma HeadsDiffer(k: Crypto, chain: seq<Body>, i: nat, j: nat)
    requires Authored(k, chain) && Sound(k, chain)
    requires i <= |chain| && j <= |chain| && HeadOf(k, chain, i) == HeadOf(k, chain, j)
    ensures i == j
  {
    if i > 0 && j > 0 {
      assert !Collide(k, chain[i-1], chain[j-1]);
    }
  }

  /** A position of the chain is behind the sink exactly when its id is committed. */
  lemma CommittedIffBehind(k: Crypto, s: Sink, chain: seq<Body>, n: nat, j: nat)
    requires Authored(k, chain) && HoldsPrefix(k, s, chain, n) && j < |chain|
    ensures chain[j].id in s.ids <==> j < n
  {
    if chain[j].id in s.ids {
      assert IdWithin(chain, n, chain[j].id);
    }
    if j < n {
      assert IdWithin(chain, n, chain[j].id);
    }
  }

  /** What a properly signed record of the chain is judged: behind the sink's end it is a duplicate, at
      the end it is committed, past the end it breaks the chain. */
  lemma JudgedByPosition(k: Crypto, s: Sink, chain: seq<Body>, n: nat, r: Record, j: nat)
    requires Authored(k, chain) && Sound(k, chain) && HoldsPrefix(k, s, chain, n)
    requires j < |chain| && r.body == chain[j] && k.verifies(r)
    ensures Judge(k, s, r) == if j < n then Duplicate else if j == n then Committed else ChainBreak
  {
    CommittedIffBehind(k, s, chain, n, j);
    assert LinkedAt(k, chain, j);
    if HeadOf(k, chain, j) == HeadOf(k, chain, n) {
      HeadsDiffer(k, chain, j, n);
    }
  }

  /** A record can only be committed if it is the next one of the chain, whoever sent it. */
  lemma OnlyNextCommits(k: Crypto, s: Sink, chain: seq<Body>, n: nat, r: Record)
    requires Authored(k, chain) && Sound(k, chain) && HoldsPrefix(k, s, chain, n)
    requires Judge(k, s, r).Committed?
    ensures n < |chain| && r.body == chain[n]
  {
    var j :| 0 <= j < |chain| && chain[j] == r.body;
    JudgedByPosition(k, s, chain, n, r, j);
  }

  lemma PrefixGrows(k: Crypto, s: Sink, chain: seq<Body>, n: nat, r: Record)
    requires HoldsPrefix(k, s, chain, n) && n < |chain| && r.body == chain[n]
    ensures HoldsPrefix(k, Commit(k, s, r), chain, n + 1)
  {
    forall id ensures id in s.ids + {r.body.id} <==> IdWithin(chain, n + 1, id) {
      if IdWithin(chain, n, id) {
        assert IdWithin(chain, n + 1, id);
      } else if id == r.body.id {
        assert chain[n].id == id;
      }
    }
  }

  /** One batch, whatever it holds, moves the prefix forward or leaves it. */
  lemma {:induction false} BatchExtendsPrefix(k: Crypto, s: Sink, chain: seq<Body>, n: nat, batch: seq<Record>) returns (m: nat)
    requires Authored(k, chain) && Sound(k, chain) && HoldsPrefix(k, s, chain, n)
    ensures n <= m && HoldsPrefix(k, Appended(k, s, batch).sink, chain, m)
  {
    m := n;
    if batch != [] {
      var rest, r := batch[..|batch|-1], batch[|batch|-1];
      m := BatchExtendsPrefix(k, s, chain, n, rest);
      var before := Appended(k, s, rest);
      if !before.rejected && Judge(k, before.sink, r).Committed? {
        OnlyNextCommits(k, before.sink, chain, m, r);
        PrefixGrows(k, before.sink, chain, m, r);
        m := m + 1;
      }
    }
  }

  /** For every sequence of batches, with retries, gaps, reorderings, forgeries and unsigned records,
      the sink's records are exactly a prefix of the authored chain. */
  lemma {:induction false} AlwaysAPrefix(k: Crypto, chain: seq<Body>, batches: seq<seq<Record>>) returns (n: nat)
    requires Authored(k, chain) && Sound(k, chain)
    ensures HoldsPrefix(k, After(k, batches), chain, n)
  {
    n := 0;
    if batches != [] {
      n := AlwaysAPrefix(k, chain, batches[..|batches|-1]);
      n := BatchExtendsPrefix(k, After(k, batches[..|batches|-1]), chain, n, batches[|batches|-1]);
    }
  }

  function Max(a: nat, b: nat): nat {
    if a >= b then a else b
  }

  /** The batch is a run of the chain, c[from..from+|batch|), properly signed. */
  ghost predicate RunOf(k: Crypto, chain: seq<Body>, from: nat, batch: seq<Record>) {
    && from + |batch| <= |chain|
    && forall i | 0 <= i < |batch| :: batch[i].body == chain[from + i] && k.verifies(batch[i])
  }

  lemma RunOfInit(k: Crypto, chain: seq<Body>, from: nat, batch: seq<Record>)
    requires RunOf(k, chain, from, batch) && batch != []
    ensures RunOf(k, chain, from, batch[..|batch|-1])
  {
    var rest := batch[..|batch|-1];
    assert forall i | 0 <= i < |rest| :: rest[i] == batch[i];
  }

  /** What one record of a run is acked, when the sink held n records before the run. */
  function RunAck(chain: seq<Body>, j: nat, n: nat): Ack
    requires j < |chain|
  {
    Ack(chain[j].id, if j < n then Duplicate else Committed)
  }

  function RunAcks(chain: seq<Body>, from: nat, len: nat, n: nat): seq<Ack>
    requires from + len <= |chain|
  {
    if len == 0 then [] else RunAcks(chain, from, len - 1, n) + [RunAck(chain, from + len - 1, n)]
  }

  lemma RunStep(k: Crypto, s: Sink, chain: seq<Body>, n: nat, j: nat, batch: seq<Record>)
    requires Authored(k, chain) && Sound(k, chain) && n <= |chain| && j < |chain| && batch != []
    requires batch[|batch|-1].body == chain[j] && k.verifies(batch[|batch|-1])
    requires var p := Appended(k, s, batch[..|batch|-1]); !p.rejected && HoldsPrefix(k, p.sink, chain, Max(n, j))
    ensures var p, q := Appended(k, s, batch[..|batch|-1]), Appended(k, s, batch);
      !q.rejected && HoldsPrefix(k, q.sink, chain, Max(n, j + 1)) && q.acks == p.acks + [RunAck(chain, j, n)]
  {
    var sink, r := Appended(k, s, batch[..|batch|-1]).sink, batch[|batch|-1];
    JudgedByPosition(k, sink, chain, Max(n, j), r, j);
    if n <= j {
      PrefixGrows(k, sink, chain, j, r);
    }
  }

  /** A batch c[from..m) that starts at or before the sink's end is taken whole: the sink then holds
      exactly c[0..max(n, m)), and each record is acked Duplicate if it was there, else Committed. */
  lemma {:induction false} ContiguousBatchCommits(k: Crypto, s: Sink, chain: seq<Body>, n: nat, from: nat, batch: seq<Record>)
    requires Authored(k, chain) && Sound(k, chain) && HoldsPrefix(k, s, chain, n)
    requires from <= n && RunOf(k, chain, from, batch)
    ensures var p := Appended(k, s, batch);
      && HoldsPrefix(k, p.sink, chain, Max(n, from + |batch|)) && !p.rejected
      && p.acks == RunAcks(chain, from, |batch|, n)
  {
    if batch != [] {
      var b := |batch| - 1;
      RunOfInit(k, chain, from, batch);
      ContiguousBatchCommits(k, s, chain, n, from, batch[..b]);
      RunStep(k, s, chain, n, from + b, batch);
    }
  }

  /** A batch that starts past the sink's end commits nothing at all. */
  lemma {:induction false} GapCommitsNothing(k: Crypto, s: Sink, chain: seq<Body>, n: nat, from: nat, batch: seq<Record>)
    requires Authored(k, chain) && Sound(k, chain) && HoldsPrefix(k, s, chain, n)
    requires n < from && RunOf(k, chain, from, batch)
    ensures var p := Appended(k, s, batch);
      && p.sink == s && (p.rejected <==> batch != [])
      && |p.acks| == |batch| && forall i | 0 <= i < |batch| :: p.acks[i] == Ack(batch[i].body.id, ChainBreak)
  {
    if batch != [] {
      var b := |batch| - 1;
      RunOfInit(k, chain, from, batch);
      GapCommitsNothing(k, s, chain, n, from, batch[..b]);
      JudgedByPosition(k, s, chain, n, batch[b], from + b);
    }
  }
}
