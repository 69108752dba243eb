/** The reference catalog (plugins/catalog/inmemory-go/store.go): branches as named snapshots, merges and
    commits under optimistic concurrency, and one ledger of idempotency keys for each of the two.

    `Cat` is the catalog as a value and `Catalog` the object the plugin mutates; every method of
    `Catalog` is proved against the function of its name, and the laws are about runs of `Apply`. */
module Catalog {
  import Text

  datatype Code = InvalidArgument | NotFound | FailedPrecondition

  datatype Answer =
    | Done
    | Ref(branch: string, uri: string)
    | Landed(snapshot: string, alreadyApplied: bool)
    | Failed(code: Code)

  datatype Cat = Cat(
    branches: map<string, string>,
    tables: set<string>,
    merges: map<string, string>,
    commits: map<string, string>,
    commitKeys: map<string, string>,
    counter: nat)

  datatype Op =
    | CreateOp(branch: string, from: string)
    | MergeOp(branch: string, into: string, expected: string, key: string)
    | RegisterOp(identifier: string, uri: string, branch: string)
    | CommitOp(identifier: string, branch: string, snapshot: string, expected: string, key: string)

  const SEED_TABLE := "warehouse.sales.orders"

  function Seeded(): Cat {
    Cat(map["main" := SnapName(0)], {SEED_TABLE}, map[], map[], map[], 0)
  }

  function SnapName(n: nat): string {
    "snap-" + Text.Integer(n)
  }

  function CommitKey(identifier: string, branch: string): string {
    identifier + ['\0'] + branch
  }

  function OrMain(branch: string): string {
    if branch == "" then "main" else branch
  }

  function DefaultUri(identifier: string, branch: string): string {
    "catalog://" + identifier + "@" + branch
  }

  /** The committed snapshot of a table on a branch, "" before its first commit. */
  function CommittedAt(c: Cat, identifier: string, branch: string): string {
    var ck := CommitKey(identifier, branch);
    if ck in c.commits then c.commits[ck] else ""
  }

  function LookUp(c: Cat, identifier: string, branch: string): Answer {
    if identifier == "" then Failed(InvalidArgument)
    else if identifier !in c.tables || OrMain(branch) !in c.branches then Failed(NotFound)
    else Ref(OrMain(branch), DefaultUri(identifier, OrMain(branch)))
  }

  function Create(c: Cat, branch: string, from: string): (Cat, Answer) {
    if branch == "" then (c, Failed(InvalidArgument))
    else if OrMain(from) !in c.branches then (c, Failed(NotFound))
    else (c.(branches := c.branches[branch := c.branches[OrMain(from)]]), Done)
  }

  function Merge(c: Cat, branch: string, into: string, expected: string, key: string): (Cat, Answer) {
    if key != "" && key in c.merges then (c, Landed(c.merges[key], true))
    else if branch !in c.branches || into !in c.branches then (c, Failed(NotFound))
    else if expected != "" && expected != c.branches[into] then (c, Failed(FailedPrecondition))
    else
      var snap := SnapName(c.counter + 1);
      (c.(counter := c.counter + 1, branches := c.branches[into := snap],
          merges := if key != "" then c.merges[key := snap] else c.merges),
       Landed(snap, false))
  }

  function Register(c: Cat, identifier: string, uri: string, branch: string): (Cat, Answer) {
    if identifier == "" then (c, Failed(InvalidArgument))
    else if OrMain(branch) !in c.branches then (c, Failed(NotFound))
    else
      (c.(tables := c.tables + {identifier}),
       Ref(OrMain(branch), if uri == "" then DefaultUri(identifier, OrMain(branch)) else uri))
  }

  function Commit(c: Cat, identifier: string, branch: string, snapshot: string, expected: string, key: string): (Cat, Answer) {
    if identifier == "" || snapshot == "" then (c, Failed(InvalidArgument))
    else if key != "" && key in c.commitKeys then (c, Landed(c.commitKeys[key], true))
    else if identifier !in c.tables || OrMain(branch) !in c.branches then (c, Failed(NotFound))
    else if expected != "" && expected != CommittedAt(c, identifier, OrMain(branch)) then (c, Failed(FailedPrecondition))
    else
      (c.(commits := c.commits[CommitKey(identifier, OrMain(branch)) := snapshot],
          commitKeys := if key != "" then c.commitKeys[key := snapshot] else c.commitKeys),
       Landed(snapshot, false))
  }

  function Apply(c: Cat, op: Op): (Cat, Answer) {
    match op
    case CreateOp(branch, from) => Create(c, branch, from)
    case MergeOp(branch, into, expected, key) => Merge(c, branch, into, expected, key)
    case RegisterOp(identifier, uri, branch) => Register(c, identifier, uri, branch)
    case CommitOp(identifier, branch, snapshot, expected, key) => Commit(c, identifier, branch, snapshot, expected, key)
  }

  /** The catalog after running the operations in order. */
  function Run(c: Cat, ops: seq<Op>): Cat {
    if ops == [] then c else Apply(Run(c, ops[..|ops|-1]), ops[|ops|-1]).0
  }

  /** The answer to the i-th operation of a run. */
  function AnswerAt(c: Cat, ops: seq<Op>, i: nat): Answer
    requires i < |ops|
  {
    Apply(Run(c, ops[..i]), ops[i]).1
  }

  class Catalog {
    var branches: map<string, string>
    var tables: set<string>
    var merges: map<string, string>
    var commits: map<string, string>
    var commitKeys: map<string, string>
    var counter: nat

    ghost function View(): Cat
      reads this
    {
      Cat(branches, tables, merges, commits, commitKeys, counter)
    }

    constructor ()
      ensures View() == Seeded()
    {
      branches := map["main" := "snap-0"];
      tables := {SEED_TABLE};
      merges, commits, commitKeys, counter := map[], map[], map[], 0;
      new;
      assert SnapName(0) == "snap-0";
    }

    method GetTable(identifier: string, branch: string) returns (a: Answer)
      ensures a == LookUp(View(), identifier, branch)
    {
      if identifier == "" {
        return Failed(InvalidArgument);
      }
      if identifier !in tables {
        return Failed(NotFound);
      }
      var b := OrMain(branch);
      if b !in branches {
        return Failed(NotFound);
      }
      a := Ref(b, DefaultUri(identifier, b));
    }

    method CreateBranch(branch: string, from: string) returns (a: Answer)
      modifies this
      ensures (View(), a) == Create(old(View()), branch, from)
    {
      if branch == "" {
        return Failed(InvalidArgument);
      }
      var src := OrMain(from);
      if src !in branches {
        return Failed(NotFound);
      }
      branches := branches[branch := branches[src]];
      a := Done;
    }

    method MergeBranch(branch: string, into: string, expected: string, key: string) returns (a: Answer)
      modifies this
      ensures (View(), a) == Merge(old(View()), branch, into, expected, key)
    {
      if key != "" && key in merges {
        return Landed(merges[key], true);
      }
      if branch !in branches || into !in branches {
        return Failed(NotFound);
      }
      if expected != "" && expected != branches[into] {
        return Failed(FailedPrecondition);
      }
      counter := counter + 1;
      var snap := SnapName(counter);
      branches := branches[into := snap];
      if key != "" {
        merges := merges[key := snap];
      }
      a := Landed(snap, false);
    }

    method RegisterTable(identifier: string, uri: string, branch: string) returns (a: Answer)
      modifies this
      ensures (View(), a) == Register(old(View()), identifier, uri, branch)
    {
      if identifier == "" {
        return Failed(InvalidArgument);
      }
      var b := OrMain(branch);
      if b !in branches {
        return Failed(NotFound);
      }
      tables := tables + {identifier};
      a := Ref(b, if uri == "" then DefaultUri(identifier, b) else uri);
    }

    method CommitTable(identifier: string, branch: string, snapshot: string, expected: string, key: string) returns (a: Answer)
      modifies this
      ensures (View(), a) == Commit(old(View()), identifier, branch, snapshot, expected, key)
    {
      if identifier == "" || snapshot == "" {
        return Failed(InvalidArgument);
      }
      var b := OrMain(branch);
      if key != "" && key in commitKeys {
        return Landed(commitKeys[key], true);
      }
      if identifier !in tables || b !in branches {
        return Failed(NotFound);
      }
      var ck := CommitKey(identifier, b);
      var cur := if ck in commits then commits[ck] else "";
      if expected != "" && expected != cur {
        return Failed(FailedPrecondition);
      }
      commits := commits[ck := snapshot];
      if key != "" {
        commitKeys := commitKeys[key := snapshot];
      }
      a := Landed(snapshot, false);
    }
  }

  // ----- runs -----

  lemma {:induction false} RunSplit(c: Cat, ops: seq<Op>, i: nat)
    requires i <= |ops|
    ensures Run(c, ops) == Run(Run(c, ops[..i]), ops[i..])
  {
    if i < |ops| {
      var init := ops[..|ops|-1];
      RunSplit(c, init, i);
      assert init[..i] == ops[..i] && init[i..] == ops[i..][..|ops|-i-1];
    } else {
      assert ops[..i] == ops;
    }
  }

  lemma ApplyKeepsLedgers(c: Cat, op: Op)
    ensures forall k | k in c.merges :: k in Apply(c, op).0.merges && Apply(c, op).0.merges[k] == c.merges[k]
    ensures forall k | k in c.commitKeys :: k in Apply(c, op).0.commitKeys && Apply(c, op).0.commitKeys[k] == c.commitKeys[k]
  {
  }

  lemma MergeEntryIsNew(c: Cat, op: Op, key: string)
    requires key !in c.merges && key in Apply(c, op).0.merges
    ensures op.MergeOp? && op.key == key && Apply(c, op).1 == Landed(Apply(c, op).0.merges[key], false)
  {
  }

  /** Both ledgers only grow, and an entry is never rewritten. */
  lemma {:induction false} LedgersKeep(c: Cat, ops: seq<Op>)
    ensures forall k | k in c.merges :: k in Run(c, ops).merges && Run(c, ops).merges[k] == c.merges[k]
    ensures forall k | k in c.commitKeys :: k in Run(c, ops).commitKeys && Run(c, ops).commitKeys[k] == c.commitKeys[k]
  {
    if ops != [] {
      LedgersKeep(c, ops[..|ops|-1]);
      ApplyKeepsLedgers(Run(c, ops[..|ops|-1]), ops[|ops|-1]);
    }
  }

  /** The state just after operation i, and what came of it when operation j is about to run. */
  lemma LedgersKeepBetween(c: Cat, ops: seq<Op>, i: nat, j: nat)
    requires i <= j <= |ops|
    ensures var a, b := Run(c, ops[..i]), Run(c, ops[..j]);
      && (forall k | k in a.merges :: k in b.merges && b.merges[k] == a.merges[k])
      && (forall k | k in a.commitKeys :: k in b.commitKeys && b.commitKeys[k] == a.commitKeys[k])
  {
    RunSplit(c, ops[..j], i);
    assert ops[..j][..i] == ops[..i];
    LedgersKeep(Run(c, ops[..i]), ops[..j][i..]);
  }

  lemma RunStep(c: Cat, ops: seq<Op>, i: nat)
    requires i < |ops|
    ensures Run(c, ops[..i+1]) == Apply(Run(c, ops[..i]), ops[i]).0
  {
    assert ops[..i+1][..i] == ops[..i];
  }

  // ----- idempotency keys -----

  /** Operation i is a merge that moved its target branch. */
  predicate Merged(c: Cat, ops: seq<Op>, i: nat) {
    i < |ops| && ops[i].MergeOp? && AnswerAt(c, ops, i).Landed? && !AnswerAt(c, ops, i).alreadyApplied
  }

  /** Once a merge lands under a key, every later merge with that key, whatever its other arguments,
      answers with the original snapshot and changes nothing, even if its branches are unknown. */
  lemma MergeReplays(c: Cat, ops: seq<Op>, i: nat, j: nat)
    requires i < j < |ops| && Merged(c, ops, i) && ops[j].MergeOp?
    requires ops[i].key != "" && ops[j].key == ops[i].key
    ensures AnswerAt(c, ops, j) == Landed(AnswerAt(c, ops, i).snapshot, true)
    ensures Run(c, ops[..j+1]) == Run(c, ops[..j])
  {
    RunStep(c, ops, i);
    LedgersKeepBetween(c, ops, i + 1, j);
    RunStep(c, ops, j);
  }

  /** Each idempotency key moves a branch at most once. */
  lemma OneMergePerKey(c: Cat, ops: seq<Op>, i: nat, j: nat)
    requires Merged(c, ops, i) && Merged(c, ops, j) && ops[i].key == ops[j].key != ""
    ensures i == j
  {
    if i < j {
      MergeReplays(c, ops, i, j);
    } else if j < i {
      MergeReplays(c, ops, j, i);
    }
  }

  /** Every merge key in the ledger was put there by a merge that landed with that snapshot. */
  lemma {:induction false} MergeLedgerIsHistory(c: Cat, ops: seq<Op>, key: string) returns (i: nat)
    requires key in Run(c, ops).merges && key !in c.merges
    ensures Merged(c, ops, i) && ops[i].key == key && AnswerAt(c, ops, i).snapshot == Run(c, ops).merges[key]
  {
    var init := ops[..|ops|-1];
    if key in Run(c, init).merges {
      i := MergeLedgerIsHistory(c, init, key);
      assert init[..i] == ops[..i];
      ApplyKeepsLedgers(Run(c, init), ops[|ops|-1]);
    } else {
      MergeEntryIsNew(Run(c, init), ops[|ops|-1], key);
      i := |ops| - 1;
    }
  }

  /** Operation i is a commit that recorded its snapshot. */
  predicate Committed(c: Cat, ops: seq<Op>, i: nat) {
    i < |ops| && ops[i].CommitOp? && AnswerAt(c, ops, i).Landed? && !AnswerAt(c, ops, i).alreadyApplied
  }

  /** Once a commit lands under a key, every later well-formed commit with that key answers with the
      original snapshot and changes nothing. */
  lemma CommitReplays(c: Cat, ops: seq<Op>, i: nat, j: nat)
    requires i < j < |ops| && Committed(c, ops, i) && ops[j].CommitOp?
    requires ops[i].key != "" && ops[j].key == ops[i].key && ops[j].identifier != "" && ops[j].snapshot != ""
    ensures AnswerAt(c, ops, j) == Landed(ops[i].snapshot, true)
    ensures Run(c, ops[..j+1]) == Run(c, ops[..j])
  {
    RunStep(c, ops, i);
    LedgersKeepBetween(c, ops, i + 1, j);
    RunStep(c, ops, j);
  }

  lemma OneCommitPerKey(c: Cat, ops: seq<Op>, i: nat, j: nat)
    requires Committed(c, ops, i) && Committed(c, ops, j) && ops[i].key == ops[j].key != ""
    ensures i == j
  {
    if i < j {
      CommitReplays(c, ops, i, j);
    } else if j < i {
      CommitReplays(c, ops, j, i);
    }
  }

  // ----- one linear chain of fresh snapshots -----

  /** A merge that moved a branch: what it expected, what it left, and its place in the minting order. */
  datatype Link = Link(expected: string, snapshot: string, number: nat)

  /** The operation is a merge that moves `into`. */
  predicate Moves(c: Cat, op: Op, into: string) {
    op.MergeOp? && op.into == into && Apply(c, op).1.Landed? && !Apply(c, op).1.alreadyApplied
  }

  /** The merges that moved `into`, in order. */
  function Links(c: Cat, ops: seq<Op>, into: string): seq<Link> {
    if ops == [] then []
    else
      var init, op := ops[..|ops|-1], ops[|ops|-1];
      if Moves(Run(c, init), op, into)
      then Links(c, init, into) + [Link(op.expected, Apply(Run(c, init), op).1.snapshot, Run(c, init).counter + 1)]
      else Links(c, init, into)
  }

  function Tip(c: Cat, branch: string): string {
    if branch in c.branches then c.branches[branch] else ""
  }

  ghost predicate MintedBy(snapshot: string, counter: nat) {
    exists n: nat | n <= counter :: snapshot == SnapName(n)
  }

  /** Every snapshot a branch holds was minted by now. */
  ghost predicate Minted(c: Cat) {
    forall b | b in c.branches :: MintedBy(c.branches[b], c.counter)
  }

  lemma SnapNameInjective(m: nat, n: nat)
    requires SnapName(m) == SnapName(n)
    ensures m == n
  {
    assert SnapName(m)[5..] == Text.Integer(m) && SnapName(n)[5..] == Text.Integer(n);
    Text.ReadsInteger(m);
    Text.ReadsInteger(n);
  }

  lemma MintedByLater(snapshot: string, counter: nat)
    requires MintedBy(snapshot, counter)
    ensures MintedBy(snapshot, counter + 1)
  {
    var n: nat :| n <= counter && snapshot == SnapName(n);
    assert n <= counter + 1;
  }

  lemma MergeKeepsMinted(c: Cat, branch: string, into: string, expected: string, key: string)
    requires Minted(c)
    ensures Minted(Merge(c, branch, into, expected, key).0)
  {
    var c' := Merge(c, branch, into, expected, key).0;
    if c'.counter != c.counter {
      forall b | b in c'.branches
        ensures MintedBy(c'.branches[b], c'.counter)
      {
        if b != into {
          MintedByLater(c.branches[b], c.counter);
        }
      }
    }
  }

  lemma ApplyKeepsMinted(c: Cat, op: Op)
    requires Minted(c)
    ensures Minted(Apply(c, op).0) && c.counter <= Apply(c, op).0.counter
  {
    if op.MergeOp? {
      MergeKeepsMinted(c, op.branch, op.into, op.expected, op.key);
    }
  }

  lemma {:induction false} RunKeepsMinted(c: Cat, ops: seq<Op>)
    requires Minted(c)
    ensures Minted(Run(c, ops)) && c.counter <= Run(c, ops).counter
  {
    if ops != [] {
      RunKeepsMinted(c, ops[..|ops|-1]);
      ApplyKeepsMinted(Run(c, ops[..|ops|-1]), ops[|ops|-1]);
    }
  }

  /** The links were minted after `low` and no later than `high`, one after the other. */
  ghost predicate MintedInOrder(links: seq<Link>, low: nat, high: nat) {
    && (forall i | 0 <= i < |links| :: low < links[i].number <= high && links[i].snapshot == SnapName(links[i].number))
    && (forall i, j | 0 <= i < j < |links| :: links[i].number < links[j].number)
  }

  lemma MoveMints(c: Cat, op: Op, into: string)
    ensures c.counter <= Apply(c, op).0.counter
    ensures Moves(c, op, into) ==>
      Apply(c, op).0.counter == c.counter + 1 && Apply(c, op).1.snapshot == SnapName(c.counter + 1)
  {
  }

  lemma {:induction false} LinksMinted(c: Cat, ops: seq<Op>, into: string)
    ensures c.counter <= Run(c, ops).counter
    ensures MintedInOrder(Links(c, ops, into), c.counter, Run(c, ops).counter)
  {
    if ops != [] {
      var init, op := ops[..|ops|-1], ops[|ops|-1];
      LinksMinted(c, init, into);
      MoveMints(Run(c, init), op, into);
    }
  }

  /** What the k-th merge had to expect: the snapshot of the merge before it. */
  function Before(start: string, links: seq<Link>, k: nat): string
    requires k <= |links|
  {
    if k == 0 then start else links[k-1].snapshot
  }

  predicate JoinedAt(start: string, links: seq<Link>, k: nat)
    requires k < |links|
  {
    links[k].expected == Before(start, links, k)
  }

  /** Each merge expected what the one before it left, and the last one left `tip`. */
  predicate OneChain(start: string, links: seq<Link>, tip: string) {
    tip == Before(start, links, |links|) && forall k | 0 <= k < |links| :: JoinedAt(start, links, k)
  }

  lemma OneChainSnoc(start: string, links: seq<Link>, tip: string, link: Link)
    requires OneChain(start, links, tip)
    ensures OneChain(start, links + [link], link.snapshot) <==> link.expected == tip
  {
    var more := links + [link];
    assert JoinedAt(start, more, |links|) <==> link.expected == tip;
    if link.expected == tip {
      forall k | 0 <= k < |more| ensures JoinedAt(start, more, k) {
        if k < |links| {
          assert JoinedAt(start, links, k);
        }
      }
    }
  }

  /** The operation is a merge that moves the branch without naming what it expects, or a create that puts
      the branch on another snapshot than the one it has. */
  predicate Breaks(c: Cat, op: Op, into: string) {
    || (Moves(c, op, into) && op.expected == "")
    || (op.CreateOp? && op.branch == into != "" && OrMain(op.from) in c.branches
        && c.branches[OrMain(op.from)] != Tip(c, into))
  }

  /** How one operation moves the branch. */
  lemma StepTip(c: Cat, op: Op, into: string)
    requires Minted(c)
    ensures var c', a := Apply(c, op).0, Apply(c, op).1;
      && (Moves(c, op, into) ==>
            && Tip(c', into) == a.snapshot
            && (op.expected == Tip(c, into) <==> !Breaks(c, op, into)))
      && (!Moves(c, op, into) ==> (Tip(c', into) == Tip(c, into) <==> !Breaks(c, op, into)))
  {
    if Moves(c, op, into) {
      assert MintedBy(c.branches[into], c.counter);
    }
  }

  /** After these operations the merges into the branch form one chain. */
  ghost predicate ChainAfter(c: Cat, ops: seq<Op>, into: string) {
    OneChain(Tip(c, into), Links(c, ops, into), Tip(Run(c, ops), into))
  }

  /** What an operation adds to the links. */
  function NewLinks(c: Cat, op: Op, into: string): seq<Link> {
    if Moves(c, op, into) then [Link(op.expected, Apply(c, op).1.snapshot, c.counter + 1)] else []
  }

  lemma RunSnoc(c: Cat, ops: seq<Op>, op: Op, into: string)
    ensures Run(c, ops + [op]) == Apply(Run(c, ops), op).0
    ensures Links(c, ops + [op], into) == Links(c, ops, into) + NewLinks(Run(c, ops), op, into)
  {
    assert (ops + [op])[..|ops|] == ops;
  }

  lemma LinksKeepChainIff(start: string, links: seq<Link>, c: Cat, op: Op, into: string)
    requires Minted(c) && OneChain(start, links, Tip(c, into))
    ensures OneChain(start, links + NewLinks(c, op, into), Tip(Apply(c, op).0, into)) <==> !Breaks(c, op, into)
  {
    StepTip(c, op, into);
    if Moves(c, op, into) {
      OneChainSnoc(start, links, Tip(c, into), NewLinks(c, op, into)[0]);
    } else {
      assert links + [] == links;
    }
  }

  /** One operation keeps the chain exactly when it does not break it. */
  lemma StepKeepsChainIff(c: Cat, ops: seq<Op>, op: Op, into: string)
    requires Minted(c) && ChainAfter(c, ops, into)
    ensures ChainAfter(c, ops + [op], into) <==> !Breaks(Run(c, ops), op, into)
  {
    RunKeepsMinted(c, ops);
    LinksKeepChainIff(Tip(c, into), Links(c, ops, into), Run(c, ops), op, into);
    RunSnoc(c, ops, op, into);
  }

  lemma NextPrefix(ops: seq<Op>, i: nat)
    requires i < |ops|
    ensures ops[..i+1] == ops[..i] + [ops[i]]
  {
  }

  lemma {:induction false} ChainUpTo(c: Cat, ops: seq<Op>, into: string, i: nat)
    requires Minted(c) && i <= |ops|
    requires forall k | 0 <= k < |ops| :: !Breaks(Run(c, ops[..k]), ops[k], into)
    ensures ChainAfter(c, ops[..i], into)
  {
    if i > 0 {
      ChainUpTo(c, ops, into, i - 1);
      NextPrefix(ops, i - 1);
      StepKeepsChainIff(c, ops[..i-1], ops[i-1], into);
    } else {
      assert ops[..0] == [];
    }
  }

  lemma ReachableMinted(past: seq<Op>)
    ensures Minted(Run(Seeded(), past))
  {
    SeededMinted();
    RunKeepsMinted(Seeded(), past);
  }

  /** No lost update, exactly: from any reachable catalog, the merges into a branch form one chain at every
      moment if and only if no operation is a landed merge that names no expected snapshot, or a create
      that puts the branch on another snapshot. */
  lemma ChainIff(past: seq<Op>, ops: seq<Op>, into: string)
    ensures var c := Run(Seeded(), past);
      (forall i | 0 <= i <= |ops| :: ChainAfter(c, ops[..i], into))
      <==> (forall i | 0 <= i < |ops| :: !Breaks(Run(c, ops[..i]), ops[i], into))
  {
    var c := Run(Seeded(), past);
    ReachableMinted(past);
    if forall i | 0 <= i <= |ops| :: ChainAfter(c, ops[..i], into) {
      forall i | 0 <= i < |ops| ensures !Breaks(Run(c, ops[..i]), ops[i], into) {
        assert ChainAfter(c, ops[..i], into) && ChainAfter(c, ops[..i+1], into);
        NextPrefix(ops, i);
        StepKeepsChainIff(c, ops[..i], ops[i], into);
      }
    }
    if forall i | 0 <= i < |ops| :: !Breaks(Run(c, ops[..i]), ops[i], into) {
      forall i | 0 <= i <= |ops| ensures ChainAfter(c, ops[..i], into) {
        ChainUpTo(c, ops, into, i);
      }
    }
  }

  /** Every merge into the branch names the snapshot it expects, and no create retargets the branch. */
  predicate Guarded(ops: seq<Op>, into: string) {
    forall i | 0 <= i < |ops| ::
      && (ops[i].MergeOp? && ops[i].into == into ==> ops[i].expected != "")
      && (ops[i].CreateOp? ==> ops[i].branch != into)
  }

  /** So when every merge into a branch states what it expects and nothing creates over it, the merges that
      land form one chain: each lands on the snapshot the previous one minted, the branch is at the last,
      and every snapshot is new to the whole catalog. */
  lemma MergesFormOneChain(past: seq<Op>, ops: seq<Op>, into: string)
    requires Guarded(ops, into)
    ensures var c := Run(Seeded(), past);
      var links := Links(c, ops, into);
      && OneChain(Tip(c, into), links, Tip(Run(c, ops), into))
      && (forall i, j | 0 <= i < j < |links| :: links[i].snapshot != links[j].snapshot)
      && (forall i, b | 0 <= i < |links| && b in c.branches :: links[i].snapshot != c.branches[b])
  {
    var c := Run(Seeded(), past);
    ReachableMinted(past);
    ChainUpTo(c, ops, into, |ops|);
    assert ops[..|ops|] == ops;
    LinksMinted(c, ops, into);
    FreshLinks(c, Links(c, ops, into), Run(c, ops).counter);
  }

  /** Snapshots minted one after the other are new to the catalog they started from, and to each other. */
  lemma FreshLinks(c: Cat, links: seq<Link>, high: nat)
    requires Minted(c) && MintedInOrder(links, c.counter, high)
    ensures forall i, j | 0 <= i < j < |links| :: links[i].snapshot != links[j].snapshot
    ensures forall i, b | 0 <= i < |links| && b in c.branches :: links[i].snapshot != c.branches[b]
  {
    forall i, j | 0 <= i < j < |links|
      ensures links[i].snapshot != links[j].snapshot
    {
      if links[i].snapshot == links[j].snapshot {
        SnapNameInjective(links[i].number, links[j].number);
      }
    }
    forall i, b | 0 <= i < |links| && b in c.branches
      ensures links[i].snapshot != c.branches[b]
    {
      assert MintedBy(c.branches[b], c.counter);
      var n: nat :| n <= c.counter && c.branches[b] == SnapName(n);
      if links[i].snapshot == c.branches[b] {
        SnapNameInjective(links[i].number, n);
      }
    }
  }

  lemma SeededMinted()
    ensures Minted(Seeded())
  {
    assert MintedBy(SnapName(0), 0);
  }

  /** Without an expected snapshot the chain breaks: the second merge lands on a snapshot its caller
      never named. */
  lemma UnguardedMergeLosesUpdate()
    ensures var ops := [MergeOp("main", "main", "snap-0", "")] + [MergeOp("main", "main", "", "")];
      Links(Seeded(), ops, "main") == [Link("snap-0", "snap-1", 1), Link("", "snap-2", 2)]
  {
    assert SnapName(0) == "snap-0" && SnapName(1) == "snap-1" && SnapName(2) == "snap-2";
    var first, second := MergeOp("main", "main", "snap-0", ""), MergeOp("main", "main", "", "");
    assert [] + [first] == [first];
    RunSnoc(Seeded(), [], first, "main");
    RunSnoc(Seeded(), [first], second, "main");
  }

  /** Creating over an existing branch moves it back, and two merges that expected the same snapshot
      both land. */
  lemma RetargetForksTheChain()
    ensures var m := MergeOp("main", "main", "snap-0", "");
      var ops := [CreateOp("dev", "main")] + [m] + [CreateOp("main", "dev")] + [m];
      Links(Seeded(), ops, "main") == [Link("snap-0", "snap-1", 1), Link("snap-0", "snap-2", 2)]
  {
    assert SnapName(0) == "snap-0" && SnapName(1) == "snap-1" && SnapName(2) == "snap-2";
    var m, o0, o2 := MergeOp("main", "main", "snap-0", ""), CreateOp("dev", "main"), CreateOp("main", "dev");
    assert [] + [o0] == [o0];
    RunSnoc(Seeded(), [], o0, "main");
    RunSnoc(Seeded(), [o0], m, "main");
    RunSnoc(Seeded(), [o0] + [m], o2, "main");
    RunSnoc(Seeded(), [o0] + [m] + [o2], m, "main");
  }

  // ----- names, registrations and branches -----

  /** A table resolves exactly when it is named, known, and its branch, main unless another is named, exists. */
  lemma ResolvesIff(c: Cat, identifier: string, branch: string)
    ensures var a, b := LookUp(c, identifier, branch), if branch == "" then "main" else branch;
      && (a.Ref? <==> identifier != "" && identifier in c.tables && b in c.branches)
      && (a.Ref? ==> a == Ref(b, "catalog://" + identifier + "@" + b))
      && (!a.Ref? ==> a == Failed(if identifier == "" then InvalidArgument else NotFound))
  {
  }

  /** Registering a named table on a branch that exists makes it resolve there, whether it was known or not,
      with its own uri if it has one; every other table and all else stays as it was. */
  lemma RegisteredResolves(c: Cat, identifier: string, uri: string, branch: string)
    ensures var (c', a), b := Register(c, identifier, uri, branch), if branch == "" then "main" else branch;
      && (a.Ref? <==> identifier != "" && b in c.branches)
      && (a.Ref? ==>
            && a == Ref(b, if uri == "" then "catalog://" + identifier + "@" + b else uri)
            && LookUp(c', identifier, b).Ref? && c' == c.(tables := c'.tables)
            && forall t | t != identifier :: t in c'.tables <==> t in c.tables)
      && (!a.Ref? ==> c' == c && a == Failed(if identifier == "" then InvalidArgument else NotFound))
  {
  }

  /** A created branch, new or not, is where the branch it was made from is, main unless another is named;
      no other branch moves. */
  lemma CreatedIsAtSource(c: Cat, branch: string, from: string)
    ensures var (c', a), source := Create(c, branch, from), if from == "" then "main" else from;
      && (a.Done? <==> branch != "" && source in c.branches)
      && (a.Done? ==>
            && branch in c'.branches && c'.branches[branch] == c.branches[source] && c' == c.(branches := c'.branches)
            && forall b | b != branch :: Tip(c', b) == Tip(c, b) && (b in c'.branches <==> b in c.branches))
      && (!a.Done? ==> c' == c && a == Failed(if branch == "" then InvalidArgument else NotFound))
  {
  }

  /** A merge under a key not used moves its branch exactly when both branches exist and the expected snapshot,
      if one is named, is the one the branch is at; otherwise it changes nothing. */
  lemma MergeMovesIff(c: Cat, branch: string, into: string, expected: string, key: string)
    requires key == "" || key !in c.merges
    ensures var (c', a) := Merge(c, branch, into, expected, key);
      && (a.Landed? <==> branch in c.branches && into in c.branches && expected in {"", c.branches[into]})
      && (a.Landed? ==>
            && Tip(c', into) == a.snapshot && !a.alreadyApplied
            && (forall b | b != into :: Tip(c', b) == Tip(c, b))
            && c'.merges == (if key == "" then c.merges else c.merges[key := a.snapshot])
            && c'.tables == c.tables && c'.commits == c.commits && c'.commitKeys == c.commitKeys)
      && (!a.Landed? ==>
            c' == c && a == Failed(if branch in c.branches && into in c.branches then FailedPrecondition else NotFound))
  {
  }

  // ----- commits are a chain too -----

  /** The operation records a snapshot for the table on the branch. */
  predicate Records(c: Cat, op: Op, identifier: string, branch: string) {
    && op.CommitOp? && CommitKey(op.identifier, OrMain(op.branch)) == CommitKey(identifier, branch)
    && Apply(c, op).1.Landed? && !Apply(c, op).1.alreadyApplied
  }

  /** The commits recorded for the table on the branch, in order. */
  function CommitLinks(c: Cat, ops: seq<Op>, identifier: string, branch: string): seq<Link> {
    if ops == [] then []
    else
      var init, op := ops[..|ops|-1], ops[|ops|-1];
      CommitLinks(c, init, identifier, branch)
        + if Records(Run(c, init), op, identifier, branch) then [Link(op.expected, op.snapshot, 0)] else []
  }

  /** A commit under a key not used is recorded exactly when table and snapshot are named, the table is known,
      its branch exists, and the expected snapshot, if one is named, is the one committed there. A stale
      expectation is refused, and nothing but the table's own entry and the key changes. */
  lemma CommitRecordsIff(c: Cat, identifier: string, branch: string, snapshot: string, expected: string, key: string)
    requires key == "" || key !in c.commitKeys
    ensures var (c', a), b := Commit(c, identifier, branch, snapshot, expected, key), if branch == "" then "main" else branch;
      && (a.Landed? <==>
            && identifier != "" && snapshot != "" && identifier in c.tables && b in c.branches
            && expected in {"", CommittedAt(c, identifier, b)})
      && (a.Landed? ==>
            && a == Landed(snapshot, false) && CommittedAt(c', identifier, b) == snapshot
            && (forall k | k != CommitKey(identifier, b) :: k in c'.commits <==> k in c.commits)
            && (forall k | k != CommitKey(identifier, b) && k in c.commits :: c'.commits[k] == c.commits[k])
            && c' == c.(commits := c'.commits, commitKeys := if key == "" then c.commitKeys else c.commitKeys[key := snapshot]))
      && (!a.Landed? ==>
            && c' == c
            && a == Failed(if identifier == "" || snapshot == "" then InvalidArgument
                           else if identifier in c.tables && b in c.branches then FailedPrecondition else NotFound))
  {
  }

  /** Under a key that was used, a commit that names table and snapshot answers with what was recorded then, even if
      either is unknown now; one that does not is refused all the same. Nothing changes. */
  lemma UsedKeyRecordsNothing(c: Cat, identifier: string, branch: string, snapshot: string, expected: string, key: string)
    requires key != "" && key in c.commitKeys
    ensures Commit(c, identifier, branch, snapshot, expected, key) ==
      (c, if identifier == "" || snapshot == "" then Failed(InvalidArgument) else Landed(c.commitKeys[key], true))
  {
  }

  /** The operation records a snapshot over another one without naming it. */
  predicate CommitBreaks(c: Cat, op: Op, identifier: string, branch: string) {
    Records(c, op, identifier, branch) && op.expected == "" && CommittedAt(c, identifier, branch) != ""
  }

  lemma CommitStep(c: Cat, op: Op, identifier: string, branch: string)
    ensures var c' := Apply(c, op).0;
      && (Records(c, op, identifier, branch) ==>
            && CommittedAt(c', identifier, branch) == op.snapshot
            && (op.expected == CommittedAt(c, identifier, branch) <==> !CommitBreaks(c, op, identifier, branch)))
      && (!Records(c, op, identifier, branch) ==> CommittedAt(c', identifier, branch) == CommittedAt(c, identifier, branch))
  {
  }

  ghost predicate CommitChainAfter(c: Cat, ops: seq<Op>, identifier: string, branch: string) {
    OneChain(CommittedAt(c, identifier, branch), CommitLinks(c, ops, identifier, branch), CommittedAt(Run(c, ops), identifier, branch))
  }

  lemma StepKeepsCommitChainIff(c: Cat, ops: seq<Op>, op: Op, identifier: string, branch: string)
    requires CommitChainAfter(c, ops, identifier, branch)
    ensures CommitChainAfter(c, ops + [op], identifier, branch) <==> !CommitBreaks(Run(c, ops), op, identifier, branch)
  {
    var links, before := CommitLinks(c, ops, identifier, branch), Run(c, ops);
    assert (ops + [op])[..|ops|] == ops;
    CommitStep(before, op, identifier, branch);
    if Records(before, op, identifier, branch) {
      OneChainSnoc(CommittedAt(c, identifier, branch), links, CommittedAt(before, identifier, branch), Link(op.expected, op.snapshot, 0));
    } else {
      assert links + [] == links;
    }
  }

  lemma {:induction false} CommitChainUpTo(c: Cat, ops: seq<Op>, identifier: string, branch: string, i: nat)
    requires i <= |ops| && forall k | 0 <= k < |ops| :: !CommitBreaks(Run(c, ops[..k]), ops[k], identifier, branch)
    ensures CommitChainAfter(c, ops[..i], identifier, branch)
  {
    if i > 0 {
      CommitChainUpTo(c, ops, identifier, branch, i - 1);
      NextPrefix(ops, i - 1);
      StepKeepsCommitChainIff(c, ops[..i-1], ops[i-1], identifier, branch);
    } else {
      assert ops[..0] == [];
    }
  }

  /** No lost commit, exactly: from any catalog, the commits recorded for a table on a branch form one chain at
      every moment, each expecting what the one before it recorded, if and only if none is recorded over
      another without naming it. */
  lemma CommitChainIff(c: Cat, ops: seq<Op>, identifier: string, branch: string)
    ensures (forall i | 0 <= i <= |ops| :: CommitChainAfter(c, ops[..i], identifier, branch))
      <==> (forall i | 0 <= i < |ops| :: !CommitBreaks(Run(c, ops[..i]), ops[i], identifier, branch))
  {
    if forall i | 0 <= i <= |ops| :: CommitChainAfter(c, ops[..i], identifier, branch) {
      forall i | 0 <= i < |ops| ensures !CommitBreaks(Run(c, ops[..i]), ops[i], identifier, branch) {
        assert CommitChainAfter(c, ops[..i], identifier, branch) && CommitChainAfter(c, ops[..i+1], identifier, branch);
        NextPrefix(ops, i);
        StepKeepsCommitChainIff(c, ops[..i], ops[i], identifier, branch);
      }
    }
    if forall i | 0 <= i < |ops| :: !CommitBreaks(Run(c, ops[..i]), ops[i], identifier, branch) {
      forall i | 0 <= i <= |ops| ensures CommitChainAfter(c, ops[..i], identifier, branch) {
        CommitChainUpTo(c, ops, identifier, branch, i);
      }
    }
  }

  /** Two tables on two branches have entries of their own where no table's name holds a NUL, */
  lemma CommitKeyInjective(t: string, b: string, t': string, b': string)
    requires '\0' !in t && '\0' !in t' && CommitKey(t, b) == CommitKey(t', b')
    ensures t == t' && b == b'
  {
    Text.FirstFieldUnique(t, b, t', b', '\0');
  }

  /** and one that does can share the entry of another. */
  lemma NulSharesEntry(t: string, u: string, b: string)
    ensures CommitKey(t + ['\0'] + u, b) == CommitKey(t, u + ['\0'] + b)
  {
    assert (t + ['\0'] + u) + ['\0'] + b == t + ['\0'] + (u + ['\0'] + b);
  }
}
