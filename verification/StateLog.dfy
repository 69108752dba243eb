/** The in-memory state backend (plugins/state/inmemory-go/store.go): a key/value map under one
    global revision counter, compare-and-set writes, and an append-only change log.

    `Kv` is the store as a value and `Store` the object the plugin mutates; every method of
    `Store` is proved against the `Kv` function it runs, and the laws are proved of `Kv`.
    The value type is a parameter: the lease keeps records in it, the ticket store keeps marks. */
module StateLog {
  import opened Options

  datatype Entry<V> = Entry(value: V, revision: nat)

  datatype Change<V> = Change(key: string, value: V, revision: nat)

  datatype Kv<V> = Kv(data: map<string, Entry<V>>, log: seq<Change<V>>, rev: nat)

  datatype Reply = Reply(committed: bool, revision: nat)

  datatype Command<V> =
    | PutCmd(key: string, value: V, ifRev: int)
    | CreateCmd(key: string, value: V)

  function Empty<V>(): Kv<V> {
    Kv(map[], [], 0)
  }

  /** The revision a read reports: 0 for an absent key. */
  function RevisionOf<V>(kv: Kv<V>, key: string): nat {
    if key in kv.data then kv.data[key].revision else 0
  }

  function Written<V>(kv: Kv<V>, key: string, value: V): Kv<V> {
    var rev := kv.rev + 1;
    Kv(kv.data[key := Entry(value, rev)], kv.log + [Change(key, value, rev)], rev)
  }

  /** Compare-and-set: a positive `ifRev` must match the key's revision, anything else is unconditional. */
  function KvPut<V>(kv: Kv<V>, key: string, value: V, ifRev: int): (Kv<V>, Reply) {
    if ifRev > 0 && RevisionOf(kv, key) != ifRev then
      (kv, Reply(false, RevisionOf(kv, key)))
    else
      (Written(kv, key, value), Reply(true, kv.rev + 1))
  }

  function KvCreate<V>(kv: Kv<V>, key: string, value: V): (Kv<V>, Reply) {
    if key in kv.data then
      (kv, Reply(false, kv.data[key].revision))
    else
      (Written(kv, key, value), Reply(true, kv.rev + 1))
  }

  function Apply<V>(kv: Kv<V>, cmd: Command<V>): (Kv<V>, Reply) {
    match cmd
    case PutCmd(key, value, ifRev) => KvPut(kv, key, value, ifRev)
    case CreateCmd(key, value) => KvCreate(kv, key, value)
  }

  /** The store after running the commands in order. */
  function Run<V>(kv: Kv<V>, cmds: seq<Command<V>>): Kv<V> {
    if cmds == [] then kv else Apply(Run(kv, cmds[..|cmds|-1]), cmds[|cmds|-1]).0
  }

  /** The reply to the i-th command of a run. */
  function ReplyAt<V>(kv: Kv<V>, cmds: seq<Command<V>>, i: nat): Reply
    requires i < |cmds|
  {
    Apply(Run(kv, cmds[..i]), cmds[i]).1
  }

  // ----- the log is the state -----

  function Replay<V>(base: map<string, Entry<V>>, log: seq<Change<V>>): map<string, Entry<V>> {
    if log == [] then base
    else
      var e := log[|log|-1];
      Replay(base, log[..|log|-1])[e.key := Entry(e.value, e.revision)]
  }

  /** The log numbers its records 1..rev, and replaying it from nothing gives the map. */
  ghost predicate Valid<V>(kv: Kv<V>) {
    && |kv.log| == kv.rev
    && (forall i | 0 <= i < |kv.log| :: kv.log[i].revision == i + 1)
    && kv.data == Replay(map[], kv.log)
  }

  lemma ApplyKeepsValid<V>(kv: Kv<V>, cmd: Command<V>)
    requires Valid(kv)
    ensures Valid(Apply(kv, cmd).0)
  {
    var kv' := Apply(kv, cmd).0;
    if kv' != kv {
      assert kv'.log[..|kv'.log|-1] == kv.log;
    }
  }

  /** Log/state agreement holds in every state the store can reach. */
  lemma {:induction false} RunIsValid<V>(cmds: seq<Command<V>>)
    ensures Valid(Run(Empty(), cmds))
  {
    if cmds != [] {
      RunIsValid(cmds[..|cmds|-1]);
      ApplyKeepsValid(Run(Empty(), cmds[..|cmds|-1]), cmds[|cmds|-1]);
    }
  }

  // ----- watch -----

  predicate HasPrefix(key: string, prefix: string) {
    prefix <= key
  }

  function Matching<V>(log: seq<Change<V>>, prefix: string, fromRev: int): seq<Change<V>> {
    if log == [] then []
    else
      var e := log[|log|-1];
      var rest := Matching(log[..|log|-1], prefix, fromRev);
      if e.revision >= fromRev && HasPrefix(e.key, prefix) then rest + [e] else rest
  }

  /** `fromRev == 0` asks for "from now on", so it has no backlog. */
  function KvBacklog<V>(kv: Kv<V>, prefix: string, fromRev: int): seq<Change<V>> {
    if fromRev == 0 then [] else Matching(kv.log, prefix, fromRev)
  }

  function Under<V>(data: map<string, Entry<V>>, prefix: string): map<string, Entry<V>> {
    map k | k in data && HasPrefix(k, prefix) :: data[k]
  }

  /** The map as it stood when revision r was the newest. */
  function StateAt<V>(kv: Kv<V>, r: nat): map<string, Entry<V>>
    requires r <= |kv.log|
  {
    Replay(map[], kv.log[..r])
  }

  lemma UnderUpdate<V>(data: map<string, Entry<V>>, prefix: string, key: string, e: Entry<V>)
    ensures Under(data[key := e], prefix) == if HasPrefix(key, prefix) then Under(data, prefix)[key := e] else Under(data, prefix)
  {
  }

  lemma ReplaySnoc<V>(base: map<string, Entry<V>>, log: seq<Change<V>>, e: Change<V>)
    ensures Replay(base, log + [e]) == Replay(base, log)[e.key := Entry(e.value, e.revision)]
  {
    assert (log + [e])[..|log|] == log;
  }

  lemma {:induction false} ReplayMatching<V>(log: seq<Change<V>>, prefix: string, r: nat)
    requires r <= |log|
    requires forall i | 0 <= i < |log| :: log[i].revision == i + 1
    ensures Replay(Under(Replay(map[], log[..r]), prefix), Matching(log, prefix, r + 1))
         == Under(Replay(map[], log), prefix)
  {
    var n := |log|;
    if n == r {
      NothingNewer(log, prefix, r + 1);
      assert log[..r] == log;
    } else {
      var e, rest := log[n-1], log[..n-1];
      assert rest[..r] == log[..r];
      ReplayMatching(rest, prefix, r);
      ReplaySnoc(Under(Replay(map[], log[..r]), prefix), Matching(rest, prefix, r + 1), e);
      UnderUpdate(Replay(map[], rest), prefix, e.key, Entry(e.value, e.revision));
    }
  }

  lemma {:induction false} NothingNewer<V>(log: seq<Change<V>>, prefix: string, fromRev: int)
    requires forall i | 0 <= i < |log| :: log[i].revision < fromRev
    ensures Matching(log, prefix, fromRev) == []
  {
    if log != [] {
      NothingNewer(log[..|log|-1], prefix, fromRev);
    }
  }

  /** A watcher that saw the state as of revision r and then replays the backlog from r+1
      reaches the current state under its prefix, whatever commands ran in between. */
  lemma WatchCatchesUp<V>(cmds: seq<Command<V>>, prefix: string, r: nat)
    requires r <= Run(Empty(), cmds).rev
    ensures var kv := Run(Empty<V>(), cmds);
            && r <= |kv.log|
            && Replay(Under(StateAt(kv, r), prefix), KvBacklog(kv, prefix, r + 1)) == Under(kv.data, prefix)
  {
    RunIsValid(cmds);
    ReplayMatching(Run(Empty<V>(), cmds).log, prefix, r);
  }

  // ----- compare-and-set fences -----

  ghost predicate RevisionsBounded<V>(kv: Kv<V>) {
    forall k | k in kv.data :: 1 <= kv.data[k].revision <= kv.rev
  }

  lemma {:induction false} RunGrows<V>(kv: Kv<V>, cmds: seq<Command<V>>, key: string)
    requires RevisionsBounded(kv)
    ensures RevisionsBounded(Run(kv, cmds))
    ensures Run(kv, cmds).rev >= kv.rev
    ensures RevisionOf(Run(kv, cmds), key) >= RevisionOf(kv, key)
    ensures key in kv.data ==> key in Run(kv, cmds).data
  {
    if cmds != [] {
      RunGrows(kv, cmds[..|cmds|-1], key);
    }
  }

  lemma {:induction false} RunSplit<V>(kv: Kv<V>, xs: seq<Command<V>>, ys: seq<Command<V>>)
    ensures Run(kv, xs + ys) == Run(Run(kv, xs), ys)
  {
    if ys == [] {
      assert xs + ys == xs;
    } else {
      var n := |ys| - 1;
      RunSplit(kv, xs, ys[..n]);
      assert (xs + ys)[..|xs + ys|-1] == xs + ys[..n];
    }
  }

  /** For each key and positive revision r, at most one put conditioned on r ever commits. */
  lemma OneCommitPerRevision<V>(cmds: seq<Command<V>>, i: nat, j: nat)
    requires i < j < |cmds|
    requires cmds[i].PutCmd? && cmds[j].PutCmd?
    requires cmds[i].key == cmds[j].key && cmds[i].ifRev == cmds[j].ifRev > 0
    ensures !(ReplyAt(Empty(), cmds, i).committed && ReplyAt(Empty(), cmds, j).committed)
  {
    var before, key := Run(Empty<V>(), cmds[..i]), cmds[i].key;
    RunGrows(Empty<V>(), cmds[..i], key);
    var after := Apply(before, cmds[i]).0;
    assert cmds[..i+1][..i] == cmds[..i];
    assert Run(Empty<V>(), cmds[..i+1]) == after;
    assert cmds[..j] == cmds[..i+1] + cmds[i+1..j];
    RunSplit(Empty<V>(), cmds[..i+1], cmds[i+1..j]);
    RunGrows(after, cmds[i+1..j], key);
  }

  /** For each key at most one create ever commits, whatever puts are interleaved. */
  lemma OneCreatePerKey<V>(cmds: seq<Command<V>>, i: nat, j: nat)
    requires i < j < |cmds|
    requires cmds[i].CreateCmd? && cmds[j].CreateCmd? && cmds[i].key == cmds[j].key
    ensures !(ReplyAt(Empty(), cmds, i).committed && ReplyAt(Empty(), cmds, j).committed)
  {
    var before, key := Run(Empty<V>(), cmds[..i]), cmds[i].key;
    RunGrows(Empty<V>(), cmds[..i], key);
    var after := Apply(before, cmds[i]).0;
    assert cmds[..i+1][..i] == cmds[..i];
    assert Run(Empty<V>(), cmds[..i+1]) == after;
    assert cmds[..j] == cmds[..i+1] + cmds[i+1..j];
    RunSplit(Empty<V>(), cmds[..i+1], cmds[i+1..j]);
    RunGrows(after, cmds[i+1..j], key);
  }

  // ----- what a caller can rely on -----

  /** A conditional put commits exactly when the key is there at that very revision, an unconditional one
      always. Then the value is stored under the store's next revision, which is the one answered; if not,
      nothing changes and the answer is the revision a read would report, 0 for an absent key. */
  lemma PutIff<V>(kv: Kv<V>, key: string, value: V, ifRev: int)
    ensures var (kv', r) := KvPut(kv, key, value, ifRev);
      && (r.committed <==> ifRev <= 0 || (key in kv.data && kv.data[key].revision == ifRev))
      && (r.committed ==>
            && r.revision == kv'.rev == kv.rev + 1 && kv'.data == kv.data[key := Entry(value, r.revision)]
            && kv'.log == kv.log + [Change(key, value, r.revision)])
      && (!r.committed ==> kv' == kv && r.revision == if key in kv.data then kv.data[key].revision else 0)
  {
  }

  /** A create commits exactly on an absent key; otherwise it answers with the revision that is there. */
  lemma CreateIff<V>(kv: Kv<V>, key: string, value: V)
    ensures var (kv', r) := KvCreate(kv, key, value);
      && (r.committed <==> key !in kv.data)
      && (r.committed ==>
            && r.revision == kv'.rev == kv.rev + 1 && kv'.data == kv.data[key := Entry(value, r.revision)]
            && kv'.log == kv.log + [Change(key, value, r.revision)])
      && (!r.committed ==> kv' == kv && r.revision == kv.data[key].revision)
  {
  }

  /** The revision in a refusal is the one to retry with: in any run, if a command on a present key is
      refused, a put conditioned on the answered revision commits when it comes next. */
  lemma RefusalCanRetry<V>(cmds: seq<Command<V>>, i: nat, value: V)
    requires i < |cmds| && !ReplyAt(Empty(), cmds, i).committed && cmds[i].key in Run(Empty(), cmds[..i]).data
    ensures Apply(Run(Empty(), cmds[..i+1]), PutCmd(cmds[i].key, value, ReplyAt(Empty(), cmds, i).revision)).1.committed
    ensures ReplyAt(Empty(), cmds, i).revision >= 1
  {
    var kv := Run(Empty<V>(), cmds[..i]);
    RunGrows(Empty<V>(), cmds[..i], cmds[i].key);
    assert cmds[..i+1][..i] == cmds[..i];
    if cmds[i].PutCmd? {
      PutIff(kv, cmds[i].key, cmds[i].value, cmds[i].ifRev);
    }
  }

  ghost predicate StartsWith(key: string, prefix: string) {
    exists rest :: key == prefix + rest
  }

  lemma StartsWithIff(key: string, prefix: string)
    ensures HasPrefix(key, prefix) <==> StartsWith(key, prefix)
  {
    if HasPrefix(key, prefix) {
      assert key == prefix + key[|prefix|..];
    }
  }

  lemma {:induction false} MatchingIff<V>(log: seq<Change<V>>, prefix: string, fromRev: int, e: Change<V>)
    ensures e in Matching(log, prefix, fromRev) <==> e in log && e.revision >= fromRev && StartsWith(e.key, prefix)
  {
    if log != [] {
      var init, last := log[..|log|-1], log[|log|-1];
      assert log == init + [last];
      MatchingIff(init, prefix, fromRev, e);
      StartsWithIff(last.key, prefix);
    }
  }

  lemma {:induction false} MatchingInOrder<V>(log: seq<Change<V>>, prefix: string, fromRev: int)
    requires forall i, j | 0 <= i < j < |log| :: log[i].revision < log[j].revision
    ensures var out := Matching(log, prefix, fromRev); forall i, j | 0 <= i < j < |out| :: out[i].revision < out[j].revision
  {
    if log != [] {
      var init, last := log[..|log|-1], log[|log|-1];
      MatchingInOrder(init, prefix, fromRev);
      forall i | 0 <= i < |Matching(init, prefix, fromRev)|
        ensures Matching(init, prefix, fromRev)[i].revision < last.revision
      {
        MatchingIff(init, prefix, fromRev, Matching(init, prefix, fromRev)[i]);
      }
    }
  }

  /** The backlog holds exactly the changes from that revision on whose key starts with the prefix, and
      nothing for revision 0; they come in the order they were made. */
  lemma BacklogIff<V>(cmds: seq<Command<V>>, prefix: string, fromRev: int, e: Change<V>)
    ensures var kv := Run(Empty<V>(), cmds);
      var out := KvBacklog(kv, prefix, fromRev);
      && (e in out <==> fromRev != 0 && e in kv.log && e.revision >= fromRev && StartsWith(e.key, prefix))
      && forall i, j | 0 <= i < j < |out| :: out[i].revision < out[j].revision
  {
    var kv := Run(Empty<V>(), cmds);
    RunIsValid(cmds);
    MatchingIff(kv.log, prefix, fromRev, e);
    MatchingInOrder(kv.log, prefix, fromRev);
  }

  // ----- the object -----

  class Store<V> {
    var data: map<string, Entry<V>>
    var log: seq<Change<V>>
    var rev: nat

    ghost function View(): Kv<V>
      reads this
    {
      Kv(data, log, rev)
    }

    constructor ()
      ensures View() == Empty()
    {
      data, log, rev := map[], [], 0;
    }

    method Get(key: string) returns (entry: Option<Entry<V>>)
      ensures entry.Some? <==> key in View().data
      ensures entry.Some? ==> entry.value == View().data[key]
    {
      entry := if key in data then Some(data[key]) else None;
    }

    method Put(key: string, value: V, ifRev: int) returns (reply: Reply)
      modifies this
      ensures (View(), reply) == KvPut(old(View()), key, value, ifRev)
    {
      var current := if key in data then data[key].revision else 0;
      if ifRev > 0 && current != ifRev {
        return Reply(false, current);
      }
      rev := rev + 1;
      data := data[key := Entry(value, rev)];
      log := log + [Change(key, value, rev)];
      return Reply(true, rev);
    }

    method CreateIfAbsent(key: string, value: V) returns (reply: Reply)
      modifies this
      ensures (View(), reply) == KvCreate(old(View()), key, value)
    {
      if key in data {
        return Reply(false, data[key].revision);
      }
      rev := rev + 1;
      data := data[key := Entry(value, rev)];
      log := log + [Change(key, value, rev)];
      return Reply(true, rev);
    }

    method WatchBacklog(prefix: string, fromRev: int) returns (out: seq<Change<V>>)
      ensures out == KvBacklog(View(), prefix, fromRev)
    {
      out := [];
      if fromRev == 0 {
        return;
      }
      for i := 0 to |log|
        invariant out == Matching(log[..i], prefix, fromRev)
      {
        assert log[..i+1][..i] == log[..i];
        if log[i].revision >= fromRev && HasPrefix(log[i].key, prefix) {
          out := out + [log[i]];
        }
      }
      assert log[..|log|] == log;
    }
  }
}
