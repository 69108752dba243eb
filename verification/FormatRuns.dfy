/** Writes that overlap (plugins/composition/harness.py). The format serves requests on several threads and
    without a lock: a write looks its key up, pulls its source over the network, and only then writes, mints
    and records. So a run here is made of those two sections, in any order, of any number of writes. */
module FormatRuns {
  import opened FormatLedger
  import opened FormatStore
  import opened Options

  datatype WriteOp =
    | Over(identifier: string, rows: seq<Row>, key: string)
    | Upsert(identifier: string, mergeKeys: seq<string>, rows: seq<Row>, key: string)

  /** A request the format is working on: past its check, or answered. */
  datatype Body = Passed(op: WriteOp) | Answered(op: WriteOp, result: WriteResult)

  /** A write the format really made. */
  datatype Write = Write(key: string, target: string, rows: seq<Row>, version: nat, snapshot: string)

  datatype Server = Server(fmt: Fmt, bodies: map<nat, Body>, writes: seq<Write>)

  /** The two sections of the write with that number. */
  datatype Step = Check(id: nat, op: WriteOp) | Finish(id: nat)

  function NewServer(): Server {
    Server(NoTables(), map[], [])
  }

  /** What the table holds once the operation is carried out on it as it stands. */
  function NewRows(f: Fmt, op: WriteOp): seq<Row> {
    match op
    case Over(_, rows, _) => rows
    case Upsert(identifier, mergeKeys, rows, _) => FormatStore.Merge(RowsOf(f, identifier), mergeKeys, rows)
  }

  function Checked(s: Server, id: nat, op: WriteOp): Server {
    var dup := Recorded(s.fmt, op.key);
    s.(bodies := s.bodies[id := if dup.Some? then Answered(op, dup.value) else Passed(op)])
  }

  function WriteOf(s: Server, op: WriteOp): Write {
    var v := VersionOf(s.fmt, op.identifier) + 1;
    Write(op.key, op.identifier, NewRows(s.fmt, op), v, SnapshotOf(op.identifier, v))
  }

  function Finished(s: Server, id: nat): Server
    requires id in s.bodies
  {
    var op := s.bodies[id].op;
    var (fmt, result) := Made(s.fmt, op.identifier, NewRows(s.fmt, op), |op.rows|, op.key);
    Server(fmt, s.bodies[id := Answered(op, result)], s.writes + [WriteOf(s, op)])
  }

  predicate Enabled(s: Server, step: Step) {
    match step
    case Check(id, _) => id !in s.bodies
    case Finish(id) => id in s.bodies && s.bodies[id].Passed?
  }

  function Next(s: Server, step: Step): Server {
    if !Enabled(s, step) then s
    else match step
      case Check(id, op) => Checked(s, id, op)
      case Finish(id) => Finished(s, id)
  }

  function Run(steps: seq<Step>): Server {
    if steps == [] then NewServer() else Next(Run(steps[..|steps|-1]), steps[|steps|-1])
  }

  lemma RunNext(steps: seq<Step>, i: nat)
    requires i < |steps|
    ensures Run(steps[..i+1]) == Next(Run(steps[..i]), steps[i])
  {
    assert steps[..i+1][..i] == steps[..i];
  }

  /** The sections one after the other are the write of the method. */
  lemma LeftAlone(s: Server, id: nat, op: WriteOp)
    requires id !in s.bodies
    ensures var s1 := Checked(s, id, op);
      var s2 := if s1.bodies[id].Passed? then Finished(s1, id) else s1;
      s2.bodies[id].Answered? && (s2.fmt, s2.bodies[id].result) ==
        if op.Over? then OverwriteOnce(s.fmt, op.identifier, op.rows, op.key)
        else MergeOnce(s.fmt, op.identifier, op.mergeKeys, op.rows, op.key)
  {
  }

  // ----- what every run keeps -----

  /** The last write of a table, and under a key. */
  function LastOn(writes: seq<Write>, target: string): Option<Write> {
    if writes == [] then None
    else if writes[|writes|-1].target == target then Some(writes[|writes|-1])
    else LastOn(writes[..|writes|-1], target)
  }

  function LastUnder(writes: seq<Write>, key: string): Option<Write> {
    if writes == [] then None
    else if writes[|writes|-1].key == key then Some(writes[|writes|-1])
    else LastUnder(writes[..|writes|-1], key)
  }

  /** The write was made: it is one of them. */
  ghost predicate IsMade(writes: seq<Write>, key: string, snapshot: string) {
    exists i :: 0 <= i < |writes| && writes[i].key == key && writes[i].snapshot == snapshot
  }

  predicate WriteOk(f: Fmt, x: Write) {
    && x.snapshot == SnapshotOf(x.target, x.version) && 1 <= x.version <= VersionOf(f, x.target)
    && (x.key != "" ==> x.key in f.ledger)
  }

  /** The ledger has, under each key used, what the last write under it minted. */
  predicate LedgerOk(s: Server, key: string) {
    key in s.fmt.ledger ==>
      && key != "" && LastUnder(s.writes, key).Some?
      && s.fmt.ledger[key].snapshot == LastUnder(s.writes, key).value.snapshot
  }

  /** A table holds the rows of its last write, at that write's version. */
  predicate TableOk(s: Server, t: string) {
    match LastOn(s.writes, t)
    case None => VersionOf(s.fmt, t) == 0
    case Some(x) => VersionOf(s.fmt, t) == x.version && t in s.fmt.rows && s.fmt.rows[t] == x.rows
  }

  ghost predicate BodyOk(s: Server, id: nat) {
    id in s.bodies && s.bodies[id].Answered? ==> IsMade(s.writes, s.bodies[id].op.key, s.bodies[id].result.snapshot)
  }

  ghost predicate ServerOk(s: Server) {
    && (forall i | 0 <= i < |s.writes| :: WriteOk(s.fmt, s.writes[i]))
    && (forall i, j | 0 <= i < j < |s.writes| && s.writes[i].target == s.writes[j].target ::
          s.writes[i].version < s.writes[j].version)
    && (forall k :: LedgerOk(s, k))
    && (forall t :: TableOk(s, t))
    && (forall id :: BodyOk(s, id))
  }

  lemma {:induction false} LastUnderIs(writes: seq<Write>, key: string)
    ensures LastUnder(writes, key).Some? ==>
      LastUnder(writes, key).value.key == key && IsMade(writes, key, LastUnder(writes, key).value.snapshot)
    ensures LastUnder(writes, key).None? <==> forall i | 0 <= i < |writes| :: writes[i].key != key
  {
    if writes != [] {
      var init, last := writes[..|writes|-1], writes[|writes|-1];
      LastUnderIs(init, key);
      if last.key == key {
        assert writes[|writes|-1].key == key && writes[|writes|-1].snapshot == last.snapshot;
      } else if LastUnder(init, key).Some? {
        StillMade(init, last, key, LastUnder(init, key).value.snapshot);
        assert init + [last] == writes;
      }
    }
  }

  lemma {:induction false} LastOnIs(writes: seq<Write>, target: string) returns (i: nat)
    requires LastOn(writes, target).Some?
    ensures i < |writes| && writes[i] == LastOn(writes, target).value && writes[i].target == target
  {
    if writes[|writes|-1].target == target {
      i := |writes| - 1;
    } else {
      i := LastOnIs(writes[..|writes|-1], target);
    }
  }

  lemma StillMade(writes: seq<Write>, x: Write, key: string, snapshot: string)
    requires IsMade(writes, key, snapshot)
    ensures IsMade(writes + [x], key, snapshot)
  {
    var i :| 0 <= i < |writes| && writes[i].key == key && writes[i].snapshot == snapshot;
    assert (writes + [x])[i] == writes[i];
  }

  lemma JustMade(writes: seq<Write>, x: Write)
    ensures IsMade(writes + [x], x.key, x.snapshot)
    ensures LastUnder(writes + [x], x.key) == Some(x) && LastOn(writes + [x], x.target) == Some(x)
    ensures forall k | k != x.key :: LastUnder(writes + [x], k) == LastUnder(writes, k)
    ensures forall t | t != x.target :: LastOn(writes + [x], t) == LastOn(writes, t)
  {
    assert (writes + [x])[|writes|] == x && (writes + [x])[..|writes|] == writes;
  }

  lemma CheckKeepsOk(s: Server, id: nat, op: WriteOp)
    requires ServerOk(s) && id !in s.bodies
    ensures ServerOk(Checked(s, id, op))
  {
    var s' := Checked(s, id, op);
    forall k ensures LedgerOk(s', k) {
      assert LedgerOk(s, k);
    }
    forall t ensures TableOk(s', t) {
      assert TableOk(s, t);
    }
    LastUnderIs(s.writes, op.key);
    forall i ensures BodyOk(s', i) {
      assert BodyOk(s, i) && LedgerOk(s, op.key);
    }
  }

  lemma FinishKeepsWrites(s: Server, id: nat)
    requires ServerOk(s) && id in s.bodies
    ensures var s' := Finished(s, id);
      && (forall i | 0 <= i < |s'.writes| :: WriteOk(s'.fmt, s'.writes[i]))
      && (forall i, j | 0 <= i < j < |s'.writes| && s'.writes[i].target == s'.writes[j].target ::
            s'.writes[i].version < s'.writes[j].version)
  {
    var s' := Finished(s, id);
    var n, op := |s.writes|, s.bodies[id].op;
    forall i | 0 <= i < |s'.writes|
      ensures WriteOk(s'.fmt, s'.writes[i])
      ensures i < n && s'.writes[i].target == op.identifier ==> s'.writes[i].version < s'.writes[n].version
    {
      if i < n {
        assert WriteOk(s.fmt, s.writes[i]);
      }
    }
  }

  lemma FinishKeepsOk(s: Server, id: nat)
    requires ServerOk(s) && id in s.bodies
    ensures ServerOk(Finished(s, id))
  {
    var s', x := Finished(s, id), WriteOf(s, s.bodies[id].op);
    FinishKeepsWrites(s, id);
    JustMade(s.writes, x);
    forall k ensures LedgerOk(s', k) {
      assert LedgerOk(s, k);
    }
    forall t ensures TableOk(s', t) {
      assert TableOk(s, t);
    }
    forall i ensures BodyOk(s', i) {
      assert BodyOk(s, i);
      if i != id && i in s.bodies && s.bodies[i].Answered? {
        StillMade(s.writes, x, s.bodies[i].op.key, s.bodies[i].result.snapshot);
      }
    }
  }

  lemma NextKeepsOk(s: Server, step: Step)
    requires ServerOk(s)
    ensures ServerOk(Next(s, step))
  {
    if Enabled(s, step) {
      match step
      case Check(id, op) => CheckKeepsOk(s, id, op);
      case Finish(id) => FinishKeepsOk(s, id);
    }
  }

  lemma NewServerOk()
    ensures ServerOk(NewServer())
  {
  }

  lemma {:induction false} RunIsOk(steps: seq<Step>)
    ensures ServerOk(Run(steps))
  {
    if steps != [] {
      RunIsOk(steps[..|steps|-1]);
      NextKeepsOk(Run(steps[..|steps|-1]), steps[|steps|-1]);
    } else {
      NewServerOk();
    }
  }

  lemma WritesDiffer(s: Server, a: nat, b: nat)
    requires ServerOk(s) && a < |s.writes| && b < |s.writes| && a != b && s.writes[a].target == s.writes[b].target
    ensures s.writes[a].snapshot != s.writes[b].snapshot
  {
    assert WriteOk(s.fmt, s.writes[a]) && WriteOk(s.fmt, s.writes[b]);
    if s.writes[a].snapshot == s.writes[b].snapshot {
      SnapshotOfInjective(s.writes[a].target, s.writes[a].version, s.writes[b].version);
    }
  }

  /** However the writes overlap, each holds the table it left until the next one, and no table is given the
      same snapshot twice. */
  lemma SnapshotsNeverRepeat(steps: seq<Step>, a: nat, b: nat)
    requires a < |Run(steps).writes| && b < |Run(steps).writes| && a != b
    requires Run(steps).writes[a].target == Run(steps).writes[b].target
    ensures Run(steps).writes[a].snapshot != Run(steps).writes[b].snapshot
  {
    RunIsOk(steps);
    WritesDiffer(Run(steps), a, b);
  }

  // ----- one write per key -----

  /** No key has two real writes. */
  predicate OnePerKey(s: Server) {
    forall i, j | 0 <= i < j < |s.writes| && s.writes[i].key == s.writes[j].key :: s.writes[i].key == ""
  }

  /** A write goes on although its key has been recorded since it looked. */
  predicate Doubles(s: Server, step: Step) {
    step.Finish? && Enabled(s, step) && s.bodies[step.id].op.key in s.fmt.ledger
  }

  /** One section keeps one write per key exactly when it is not such a write. */
  lemma StepKeepsOneIff(s: Server, step: Step)
    requires ServerOk(s) && OnePerKey(s)
    ensures OnePerKey(Next(s, step)) <==> !Doubles(s, step)
  {
    if step.Finish? && Enabled(s, step) {
      var key, s' := s.bodies[step.id].op.key, Next(s, step);
      var n := |s.writes|;
      assert LedgerOk(s, key);
      LastUnderIs(s.writes, key);
      if key in s.fmt.ledger {
        assert IsMade(s.writes, key, LastUnder(s.writes, key).value.snapshot);
        var i :| 0 <= i < n && s.writes[i].key == key;
        assert s'.writes[i].key == s'.writes[n].key;
      } else {
        forall i | 0 <= i < n && s'.writes[i].key == s'.writes[n].key
          ensures s'.writes[i].key == ""
        {
          assert WriteOk(s.fmt, s.writes[i]);
        }
      }
    }
  }

  lemma {:induction false} OnePerKeyUpTo(steps: seq<Step>, i: nat)
    requires i <= |steps| && forall k | 0 <= k < i :: !Doubles(Run(steps[..k]), steps[k])
    ensures OnePerKey(Run(steps[..i]))
  {
    if i > 0 {
      OnePerKeyUpTo(steps, i - 1);
      RunIsOk(steps[..i-1]);
      RunNext(steps, i - 1);
      StepKeepsOneIff(Run(steps[..i-1]), steps[i-1]);
    } else {
      assert steps[..0] == [];
    }
  }

  /** Over every run of overlapping writes, by any callers on any tables: each key has at most one real write
      at every moment if and only if no write goes on after its key was recorded behind its check. Looking
      the key up again before writing would tell. */
  lemma OneWritePerKeyIff(steps: seq<Step>)
    ensures (forall i | 0 <= i <= |steps| :: OnePerKey(Run(steps[..i])))
      <==> (forall i | 0 <= i < |steps| :: !Doubles(Run(steps[..i]), steps[i]))
  {
    if forall i | 0 <= i <= |steps| :: OnePerKey(Run(steps[..i])) {
      forall i | 0 <= i < |steps| ensures !Doubles(Run(steps[..i]), steps[i]) {
        RunIsOk(steps[..i]);
        RunNext(steps, i);
        assert OnePerKey(Run(steps[..i])) && OnePerKey(Run(steps[..i+1]));
        StepKeepsOneIff(Run(steps[..i]), steps[i]);
      }
    }
    if forall i | 0 <= i < |steps| :: !Doubles(Run(steps[..i]), steps[i]) {
      forall i | 0 <= i <= |steps| ensures OnePerKey(Run(steps[..i])) {
        OnePerKeyUpTo(steps, i);
      }
    }
  }

  // ----- which runs those are -----

  /** The check of write `id` under this key, at step c, found nothing and let it pass. */
  predicate PassedAt(steps: seq<Step>, c: nat, id: nat, key: string) {
    && c < |steps| && steps[c].Check? && steps[c].id == id && steps[c].op.key == key
    && id !in Run(steps[..c]).bodies && key !in Run(steps[..c]).fmt.ledger
  }

  /** Write `id` recorded under this key at step f. */
  predicate FinishedAt(steps: seq<Step>, f: nat, id: nat, key: string) {
    && f < |steps| && steps[f] == Finish(id) && Enabled(Run(steps[..f]), steps[f])
    && Run(steps[..f]).bodies[id].op.key == key
  }

  lemma {:induction false} FindCheck(steps: seq<Step>, i: nat, id: nat) returns (c: nat)
    requires i <= |steps| && id in Run(steps[..i]).bodies && Run(steps[..i]).bodies[id].Passed?
    requires Run(steps[..i]).bodies[id].op.key != ""
    ensures c < i && PassedAt(steps, c, id, Run(steps[..i]).bodies[id].op.key)
  {
    assert steps[..0] == [];
    RunNext(steps, i - 1);
    var s := Run(steps[..i-1]);
    if id in s.bodies && s.bodies[id].Passed? && s.bodies[id] == Run(steps[..i]).bodies[id] {
      c := FindCheck(steps, i - 1, id);
    } else {
      c := i - 1;
    }
  }

  lemma {:induction false} FindFinish(steps: seq<Step>, c: nat, i: nat, key: string) returns (f: nat, id: nat)
    requires c <= i <= |steps| && key !in Run(steps[..c]).fmt.ledger && key in Run(steps[..i]).fmt.ledger
    ensures c <= f < i && FinishedAt(steps, f, id, key)
  {
    RunNext(steps, i - 1);
    if key in Run(steps[..i-1]).fmt.ledger {
      f, id := FindFinish(steps, c, i - 1, key);
    } else {
      f, id := i - 1, steps[i-1].id;
    }
  }

  /** A doubled write is always an overlap: it passed its check before another write under its key recorded,
      and then both went on. */
  lemma DoublesOverlap(steps: seq<Step>, i: nat) returns (c: nat, f: nat, other: nat)
    requires i < |steps| && Doubles(Run(steps[..i]), steps[i])
    ensures var key := Run(steps[..i]).bodies[steps[i].id].op.key;
      && c < f < i && other != steps[i].id
      && PassedAt(steps, c, steps[i].id, key) && FinishedAt(steps, f, other, key) && FinishedAt(steps, i, steps[i].id, key)
  {
    var s, id := Run(steps[..i]), steps[i].id;
    var key := s.bodies[id].op.key;
    RunIsOk(steps[..i]);
    assert LedgerOk(s, key);
    c := FindCheck(steps, i, id);
    f, other := FindFinish(steps, c, i, key);
    if other == id {
      RunNext(steps, f);
      AnsweredStays(steps, f + 1, i, id);
    }
  }

  lemma {:induction false} AnsweredStays(steps: seq<Step>, f: nat, i: nat, id: nat)
    requires f <= i <= |steps| && id in Run(steps[..f]).bodies && Run(steps[..f]).bodies[id].Answered?
    ensures id in Run(steps[..i]).bodies && Run(steps[..i]).bodies[id] == Run(steps[..f]).bodies[id]
  {
    if f < i {
      AnsweredStays(steps, f, i - 1, id);
      RunNext(steps, i - 1);
    }
  }

  /** A write passes its check while another one under its key is open: past its check, not recorded. */
  ghost predicate Overlaps(s: Server, step: Step) {
    && step.Check? && Enabled(s, step) && step.op.key != "" && step.op.key !in s.fmt.ledger
    && exists id :: OpenUnder(s, id, step.op.key)
  }

  predicate OpenUnder(s: Server, id: nat, key: string) {
    id in s.bodies && s.bodies[id].Passed? && s.bodies[id].op.key == key
  }

  ghost predicate OneOpen(s: Server) {
    && (forall id, key :: key != "" && OpenUnder(s, id, key) ==> key !in s.fmt.ledger)
    && (forall a, b, key :: key != "" && OpenUnder(s, a, key) && OpenUnder(s, b, key) ==> a == b)
  }

  lemma StepKeepsOneOpen(s: Server, step: Step)
    requires OneOpen(s) && !Overlaps(s, step)
    ensures OneOpen(Next(s, step)) && (ServerOk(s) ==> !Doubles(s, step))
  {
    var s' := Next(s, step);
    if Enabled(s, step) {
      if step.Finish? {
        assert OpenUnder(s, step.id, s.bodies[step.id].op.key);
        assert ServerOk(s) ==> LedgerOk(s, s.bodies[step.id].op.key);
      }
      forall id, key | key != "" && OpenUnder(s', id, key)
        ensures key !in s'.fmt.ledger
      {
        assert OpenUnder(s, id, key) || (step.Check? && step.id == id);
      }
      forall a, b, key | key != "" && OpenUnder(s', a, key) && OpenUnder(s', b, key)
        ensures a == b
      {
        assert OpenUnder(s, a, key) || (step.Check? && step.id == a);
        assert OpenUnder(s, b, key) || (step.Check? && step.id == b);
      }
    }
  }

  lemma {:induction false} OneOpenUpTo(steps: seq<Step>, i: nat)
    requires i <= |steps| && forall k | 0 <= k < i :: !Overlaps(Run(steps[..k]), steps[k])
    ensures OneOpen(Run(steps[..i]))
  {
    if i > 0 {
      OneOpenUpTo(steps, i - 1);
      RunNext(steps, i - 1);
      StepKeepsOneOpen(Run(steps[..i-1]), steps[i-1]);
    } else {
      assert steps[..0] == [];
    }
  }

  /** What a scheduler can do about it: if no write is let past its check while another under its key is
      open, no key is ever written twice. */
  lemma NoOverlapNoDouble(steps: seq<Step>)
    requires forall i | 0 <= i < |steps| :: !Overlaps(Run(steps[..i]), steps[i])
    ensures forall i | 0 <= i < |steps| :: !Doubles(Run(steps[..i]), steps[i])
    ensures OnePerKey(Run(steps))
  {
    forall i | 0 <= i < |steps| ensures !Doubles(Run(steps[..i]), steps[i]) {
      OneOpenUpTo(steps, i);
      RunIsOk(steps[..i]);
      StepKeepsOneOpen(Run(steps[..i]), steps[i]);
    }
    OnePerKeyUpTo(steps, |steps|);
    assert steps[..|steps|] == steps;
  }

  // ----- repeats -----

  function ResultAt(steps: seq<Step>, i: nat, id: nat, key: string): WriteResult
    requires FinishedAt(steps, i, id, key)
  {
    var s := Finished(Run(steps[..i]), id);
    s.bodies[id].result
  }

  lemma {:induction false} LedgerKeeps(steps: seq<Step>, i: nat, j: nat, key: string)
    requires i <= j <= |steps| && key in Run(steps[..i]).fmt.ledger
    requires forall k, id | i <= k < j :: !FinishedAt(steps, k, id, key)
    ensures key in Run(steps[..j]).fmt.ledger && Run(steps[..j]).fmt.ledger[key] == Run(steps[..i]).fmt.ledger[key]
  {
    if i < j {
      LedgerKeeps(steps, i, j - 1, key);
      RunNext(steps, j - 1);
      if steps[j-1].Finish? {
        assert !FinishedAt(steps, j - 1, steps[j-1].id, key);
      }
    }
  }

  /** In every run, overlapping or not, a write that looks its key up after it was recorded changes nothing
      and answers with what was recorded last under the key. */
  lemma RepeatReturnsRecorded(steps: seq<Step>, i: nat, j: nat, id: nat, key: string)
    requires i < j < |steps| && FinishedAt(steps, i, id, key) && key != ""
    requires steps[j].Check? && Enabled(Run(steps[..j]), steps[j]) && steps[j].op.key == key
    requires forall k, other | i < k < j :: !FinishedAt(steps, k, other, key)
    ensures Run(steps[..j+1]).fmt == Run(steps[..j]).fmt && Run(steps[..j+1]).writes == Run(steps[..j]).writes
    ensures Run(steps[..j+1]).bodies[steps[j].id]
      == Answered(steps[j].op, ResultAt(steps, i, id, key).(alreadyApplied := true))
  {
    RunNext(steps, i);
    RunNext(steps, j);
    LedgerKeeps(steps, i + 1, j, key);
  }

  /** And while no write has doubled, that is what the key's only write returned. */
  lemma RepeatReturnsOriginal(steps: seq<Step>, i: nat, j: nat, id: nat, key: string)
    requires i < j < |steps| && FinishedAt(steps, i, id, key) && key != ""
    requires steps[j].Check? && Enabled(Run(steps[..j]), steps[j]) && steps[j].op.key == key
    requires forall k | 0 <= k < j :: !Doubles(Run(steps[..k]), steps[k])
    ensures Run(steps[..j+1]).fmt == Run(steps[..j]).fmt && Run(steps[..j+1]).writes == Run(steps[..j]).writes
    ensures Run(steps[..j+1]).bodies[steps[j].id]
      == Answered(steps[j].op, ResultAt(steps, i, id, key).(alreadyApplied := true))
  {
    forall k, other | i < k < j ensures !FinishedAt(steps, k, other, key) {
      RunNext(steps, i);
      InLedgerStays(steps, i + 1, k, key);
      assert !Doubles(Run(steps[..k]), steps[k]);
    }
    RepeatReturnsRecorded(steps, i, j, id, key);
  }

  lemma {:induction false} InLedgerStays(steps: seq<Step>, i: nat, j: nat, key: string)
    requires i <= j <= |steps| && key in Run(steps[..i]).fmt.ledger
    ensures key in Run(steps[..j]).fmt.ledger
  {
    if i < j {
      InLedgerStays(steps, i, j - 1, key);
      RunNext(steps, j - 1);
    }
  }
}
