# Verified model of the RAT core

This project models the parts of RAT whose correctness is hardest to see from the code, and proves what
they promise. Each module follows one component and keeps its form: objects whose methods update fields
are classes, loops are loops with invariants, and every method is proved against a function on values.
The promises are then proved about those functions, over all runs.

| module | component |
|---|---|
| `StateLog` | the in-memory state backend: compare-and-set map, revision counter, change log |
| `LeaseChain`, `LeaseProtocol`, `LeaseRuns`, `Lease` | leader election: the chain argument, the step system of electors and one register, its limits, and the objects |
| `Loop` | one tick of a replica, and passes of different replicas |
| `FormatStore`, `FormatLedger`, `FormatRuns` | the format store's merge, the ledger of writes that mint snapshots, and writes that overlap |
| `Scd2`, `Scd2History`, `Scd2Load`, `Scd2Rounds` | the SCD2 strategy, what its history keeps, whole loads with crashes and retries, and sequences of them |
| `Backoff`, `Routing`, `Reconciler` | backoff in 64-bit arithmetic, connection routing, the reconciler object |
| `ReconcilerRuns`, `ReconcilerBudget`, `ReconcilerRouting` | its interleavings lock by lock: instances, crash-loop discipline, routing |
| `ReconcilerMoves` | what one pass does for a plugin, told from the runtime's answers, and convergence |
| `ReconcilerCalls`, `ReconcilerRaces` | its whole calls, and runs where overlapping calls go wrong |
| `AuditSink` | the hash-chained audit sink |
| `Catalog` | the catalog and its two ledgers of idempotency keys |
| `Pipeline`, `PipelineRuns`, `PipelineLinks`, `PipelineSchedule` | the full-refresh pipeline, its histories of crashes, retries and late calls, when catalog and table agree, and the scheduler that keeps it so |
| `Registry`, `Tickets`, `Resolver`, `EnvRefs` | the capability index and label selection, single-use tickets, dependency closure, `${VAR}` expansion |
| `Options`, `Lists`, `Text` | an optional value; small list operations; decimal numerals and separated fields |

Run `dafny verify dfyconfig.toml` to check everything.

## What is assumed

- Clocks, jitter, network fates, runtime answers, query results and nonces are parameters, so every
  statement is about all of them. Lease and ticket times are integer nanoseconds, cut to milliseconds
  where the code calls `UnixMilli`. SCD2 timestamps are integers; the code only compares them.
- SHA-256, HMAC-SHA256, base64 and the signature check are function parameters. The statements that need
  more say what: no collisions (`AuditSink.Sound`, `Tickets.Ideal`), and that only authored records verify.
- Revisions, versions and counters are unbounded. Only the backoff is modelled in wrapping 64-bit
  arithmetic, because only there can it happen in practice.
- In the lease and ticket histories a call may be lost, or be carried out late and more than once after its
  caller gave up on it. An elector may restart under its own id, on a clock that does not go back.
- A write to the format has the two sections the code gives it, the look into the ledger and, after the rows
  were pulled, the write with its snapshot and ledger entry; other calls come between them. In the
  full-refresh histories a write that was sent may be delivered again, and each delivery is carried out
  whenever the format gets to it, or never; a commit that was outstanding at a crash may land late and more
  than once. In the SCD2 loads a crash loses the calls not yet made, and a call that was made is carried out
  at once; what a merge that outlives its caller does is `Scd2Rounds.OverlapKeepsRows`.
- The runtime never reuses an instance id. Bind and Unbind are the three steps the code takes: the gateway's
  table, the Close, the hook's table.
- Whether a dial succeeds depends on the endpoint alone: dialing parses the target and does not connect.
- At most one pass of the reconciler runs at a time, as its single loop guarantees; removals and
  `Shutdown` interleave with it lock by lock.

## Where the code falls short

- The lease record stores its expiry cut to whole milliseconds while the leader trusts its own expiry in
  full, so two leaders can overlap by less than a millisecond (`LeaseRuns.OverlapWithinAMillisecond`,
  `LeaseProtocol.OverlapUnderAMillisecond`); a takeover waits out the holder exactly when that expiry is a
  whole millisecond (`LeaseProtocol.TakeoversWaitIffWholeMillisecond`).
- On a backend without CreateIfAbsent two electors that start together both lead; safety holds exactly
  with it (`LeaseRuns.SafeIffCreateIfAbsent`).
- After a renewal that landed unheard, a partly answered step can drop a leader whose lease is good
  (`Lease.StaleTokenHoldsIff`).
- A load stamped no later than an earlier one, when merged, loses the newest view unless it changes nothing
  (`Scd2History.NewestViewKeptIff`).
- An SCD2 load that crashes between its merge and its commit is never committed by any retry, because the
  retry finds an empty delta and returns first (`plugins/strategy/scd2-py/store.py:99-100`,
  `Scd2Load.CrashLeavesCatalogBehind`). Catalog and table agree after a completed retry exactly unless the
  first attempt stopped there with something to change (`Scd2Load.RetryLinksIff`).
- An SCD2 load that finishes shows the source it read exactly when it had nothing to change or its key was
  not used before (`Scd2Rounds.FinishShowsSourceIff`): when the source changes between a crash after the merge
  and a retry at the same timestamp, the new delta is dropped and the load still succeeds. With the source
  left alone meanwhile, the data is right however often a load is stopped (`Scd2Rounds.RoundsTimeTravel`).
- Backoff settings outside `Base * Max < 2^63` can wrap to a short wait (`Backoff.WrappedIntervalPassesGuard`).
  The settings are right exactly when none of 64 products wraps under the cap (`Backoff.EveryAttemptIdealIff`).
- Routing goes wrong when calls overlap. A removal that unbinds late drops the binding of the same plugin
  added again; Healthy plugins stay routed exactly when no Unbind begins on a plugin that is Healthy again
  (`ReconcilerRaces.LateUnbindDropsNewBinding`, `ReconcilerRouting.AlwaysRoutedIff`). A pass that copied its
  list early launches a plugin nobody desires; only wanted plugins are tracked exactly when no pass steps
  such a name (`ReconcilerRaces.StaleCopyOrphansInstance`, `ReconcilerRouting.AlwaysWantedIff`). A late write
  of the hook's own table leaks a connection or closes one twice at shutdown; each is closed exactly once
  exactly when every name's last write there came in time (`ReconcilerRaces.LateDeleteLeaksConnection`,
  `ReconcilerRaces.LateWriteClosesTwice`, `ReconcilerRouting.ShutdownClosesOnceIff`). Instances are conserved
  all the same.
- Nothing stops a convergence pass that outlives its lease: passes of different replicas are kept apart, by
  the replicas' own clocks, exactly when none overruns (`Loop.NeverTogetherIff`).
- A key is written twice when writes under it overlap: the format looks the key up before it pulls the rows
  and not again before it writes, and it serves several requests at a time without a lock
  (`plugins/composition/harness.py:77-82`, `:133-140`). Each key has one real write at every moment exactly
  when no write goes on after its key was recorded behind its check (`FormatRuns.OneWritePerKeyIff`, and over
  the pipeline's histories `PipelineLinks.OneWritePerKeyIff`); that is always an overlap
  (`FormatRuns.DoublesOverlap`). So a retry that starts while the crashed attempt's write is open can end with
  the catalog naming its own write and the table holding the other one (`PipelineSchedule.OverlapUnlinks`).
- A stale retry of the full-refresh pipeline leaves the catalog naming one write while the table holds another
  (`Pipeline.StaleRetryUnlinks`); exactly when an attempt leaves them linked is `Pipeline.AttemptLinksIff`.
  Even with one run at a time per target, calls that outlive their callers do the same
  (`PipelineSchedule.LateWriteUnlinks`); exactly which steps take a table or its catalog entry from the latest
  run is `PipelineLinks.AlwaysOwnedIff`. A scheduler keeps all of them away by starting a run only when no
  write on its target is open, and a run under a new key only when every outstanding commit there has landed
  (`PipelineSchedule.LateCommitUnlinks` is a history without the latter),
  provided a write is delivered again only once it is recorded (`PipelineSchedule.WaitingIsSafe`).
- Without a run id the key is the pair of table names, so only the first refresh of a pair ever writes; and
  as the ledger's keys are not scoped by table, a run id used again on another target writes nothing there
  (`FormatRuns.RepeatReturnsRecorded`).
- Merges into a branch form one chain exactly when no landed merge omits its expected snapshot and no create
  puts the branch on another snapshot (`Catalog.ChainIff`); the catalog refuses neither.
- `labelsMatch` is documented as "present and equal", but a selector value of "" also matches an absent
  label (`Registry.MatchesIff`). A plugin that lists a capability twice is never selected for it
  (`Registry.ListedTwiceIsNeverSelected`).
- The signed text of a ticket is called injective in the code. It is so exactly when no name in it holds a
  NUL (`Tickets.AmbiguousIff`). The catalog joins table and branch the same way, so a table name with a NUL can
  share another table's commit entry (`Catalog.NulSharesEntry`).

## Model

| member | source | states |
|---|---|---|
| `StateLog.RunIsValid` | plugins/state/inmemory-go/store.go:47-75 | in every reachable state the map is the fold of the log and the log's revisions are 1..rev |
| `StateLog.WatchCatchesUp` | plugins/state/inmemory-go/store.go:93-106 | replaying the backlog from r+1 on the state as of revision r gives the current state under the prefix |
| `StateLog.OneCommitPerRevision` | plugins/state/inmemory-go/store.go:47-60 | per key and positive revision, at most one conditional put ever commits |
| `StateLog.OneCreatePerKey` | plugins/state/inmemory-go/store.go:65-75 | per key at most one create ever commits |
| `StateLog.PutIff` | plugins/state/inmemory-go/store.go:47-60 | a conditional put commits exactly when the key is at that revision; a commit stores the value under the next revision, a refusal changes nothing and answers the revision a read would report |
| `StateLog.CreateIff` | plugins/state/inmemory-go/store.go:65-75 | a create commits exactly on an absent key, and a refused one answers the revision that is there |
| `StateLog.RefusalCanRetry` | plugins/state/inmemory-go/store.go:47-75 | in any run, a put conditioned on the revision answered by a refusal commits when it comes next |
| `StateLog.BacklogIff` | plugins/state/inmemory-go/store.go:93-106 | the backlog holds exactly the changes from that revision on whose key starts with the prefix, in order, and none for revision 0 |
| `StateLog.Store.Get` | plugins/state/inmemory-go/store.go:33-42 | the entry of a present key, none for an absent one |
| `StateLog.Store.Put` | plugins/state/inmemory-go/store.go:47-60 | the compare-and-set: the new store and the reply, conflict included |
| `StateLog.Store.CreateIfAbsent` | plugins/state/inmemory-go/store.go:65-75 | the create: the new store and the reply, the existing revision on conflict |
| `StateLog.Store.WatchBacklog` | plugins/state/inmemory-go/store.go:93-106 | exactly the matching log records, in order; none when watching from 0 |
| `LeaseChain.HandoversWait` | core/lease/lease.go:30-46 | in a chain of committed writes, any two terms of different holders are disjoint, however far apart |
| `LeaseProtocol.DeliverKeepsInv` | core/lease/statestore.go:78-140 | a sent write executed at any later time adds at most one properly linked term |
| `LeaseProtocol.ExecKeepsInv` | core/lease/statestore.go:78-140 | every interleaving of gets, puts and creates, with lost replies, late writes and electors that restart, keeps the chain and backs every leader with a term |
| `LeaseProtocol.AtMostOneLeader` | core/lease/lease.go:133-154 | intervals in which different electors answer true are disjoint in whole milliseconds, in every run, restarts included |
| `LeaseProtocol.OverlapUnderAMillisecond` | core/lease/statestore.go:132-140 | in full time such intervals overlap by less than a millisecond, and not at all for whole-millisecond expiries |
| `LeaseProtocol.TakeoversWaitIffWholeMillisecond` | core/lease/statestore.go:87-92 | every permitted takeover waits out the holder's own expiry exactly when that is a whole millisecond |
| `LeaseRuns.FallbackElectsTwo` | core/lease/statestore.go:96-100 | two electors that cold-start together over the unconditional fallback both become leader |
| `LeaseRuns.SafeIffCreateIfAbsent` | core/lease/statestore.go:93-103 | with two electors, no run has two leaders if and only if CreateIfAbsent is supported |
| `LeaseRuns.OverlapWithinAMillisecond` | core/lease/statestore.go:88-92 | a concrete run with two leaders inside one millisecond |
| `LeaseRuns.RestartRetakesOwnLease` | core/lease/statestore.go:87-92 | a run in which an elector restarts while its lease runs and takes it again at once under a new token |
| `Lease.MemStore.Acquire` | core/lease/lease.go:61-74 | refuses while any holder's lease runs, its own included, else takes the lease under the next version |
| `Lease.MemStore.Renew` | core/lease/lease.go:77-85 | extends only the current version held by the candidate and not yet expired |
| `Lease.StateStore.Send` | core/lease/statestore.go:132-140 | a write under each network fate: answered, lost, or executed with the reply lost |
| `Lease.StateStore.Renew` | core/lease/statestore.go:119-130 | the renewal rests on the compare-and-set alone and never looks at the expiry |
| `Lease.StateStore.Acquire` | core/lease/statestore.go:78-104 | read, then a guarded put, a create or the fallback put, with every uncertain outcome |
| `Lease.Elector.Step` | core/lease/lease.go:133-154 | the whole step over either backend: renewal, keeping an unexpired lease through an outage, falling back to acquire |
| `Lease.StepIsARun` | core/lease/lease.go:133-154 | a whole step of an elector over the shared store is a run of the step system with the same store, fields and answer |
| `Lease.AcquireGrantedIff` | core/lease/statestore.go:78-104 | an undisturbed acquire over the shared store is granted, under the store's newest revision, exactly where nobody else's lease still runs; otherwise it changes nothing |
| `Lease.TickKeepsOffice` | core/lease/lease.go:133-154 | one all-or-nothing step keeps the leader in office and answers true for it alone |
| `Lease.AcquireTakesOfficeIff` | core/lease/lease.go:133-154 | an undisturbed, permitted acquire makes its elector leader, and puts it in office exactly when no other still believes it leads |
| `Lease.LeadershipHolds` | core/lease/lease.go:133-154 | through any mix of outages, whichever unheard renewals landed, the leader answers true at every step and nobody else does |
| `Lease.FirstStaysLeader` | core/lease/lease.go:133-154 | from the start, the first elector to step while the backend answers leads at every later step that is in time, and nobody else does |
| `Lease.StaleTokenHoldsIff` | core/lease/lease.go:133-154 | with a stale token, a step inside the lease answers true exactly when the renewal stays unheard or both later calls are answered |
| `Lease.MemAtMostOneLeader` | core/lease/lease.go:47-85 | over the in-memory store leases of different electors are disjoint to the nanosecond |
| `Lease.MemStepIff` | core/lease/lease.go:61-154 | a whole step over the in-memory store: an unheld or expired lease is taken under the next version, one's own running lease renewed under the same token, and otherwise the elector follows |
| `Lease.MemFirstStaysLeader` | core/lease/lease.go:47-154 | from the start, the first elector to step answers true at every later step it makes in time, under one token and with a lease of ttl from that step, and nobody else does |
| `Loop.Loop.Tick` | core/reconciler/loop.go:39-44 | a leader's tick makes one pass over the plane, a follower's leaves it alone |
| `Loop.PassesWithinLeasesDisjoint` | core/reconciler/loop.go:39-44 | passes of different replicas that end within their leases never share a millisecond by the replicas' own clocks, in any run |
| `Loop.NeverTogetherIff` | core/reconciler/loop.go:10-14 | by the replicas' own clocks, passes that overrun by at most so many milliseconds never run together in any run if and only if that is not positive |
| `FormatStore.MergeLookup` | plugins/format/inmemory-go/store.go:72-94 | after a merge each key finds its last source row, or else its old row |
| `FormatStore.MergeKeepsPlaces` | plugins/format/inmemory-go/store.go:72-94 | key uniqueness is kept and existing rows keep their positions |
| `FormatStore.MergeIsIdempotent` | plugins/format/inmemory-go/store.go:72-94 | merging the same source twice is merging it once |
| `FormatStore.KeysMatch` | plugins/format/inmemory-go/store.go:134-141 | true exactly when the rows agree on every key column, absent reading as empty |
| `FormatStore.SameKeyIff` | plugins/format/inmemory-go/store.go:134-141 | keys are the same when they agree on every key column, an absent one reading as the empty string |
| `FormatStore.Table.Append` | plugins/format/inmemory-go/store.go:50-57 | the rows are added at the end under a new snapshot |
| `FormatStore.Table.Overwrite` | plugins/format/inmemory-go/store.go:60-67 | the rows are replaced under a new snapshot |
| `FormatStore.Table.MergeInPlace` | plugins/format/inmemory-go/store.go:72-94 | the nested first-match loop computes the keyed upsert of every source row in order |
| `FormatStore.Table.Scan` | plugins/format/inmemory-go/store.go:99-122 | each row in its place, whole if no columns are asked for, else exactly the asked columns it has; nothing changed |
| `Scd2.BuildIndex` | plugins/strategy/scd2-py/store.py:77-81 | the current rows by natural key, last one winning; a missing key column raises |
| `Scd2.CompareSource` | plugins/strategy/scd2-py/store.py:84-92 | the versions and closures the source rows call for; a missing column raises |
| `Scd2.CloseDeleted` | plugins/strategy/scd2-py/store.py:94-97 | the closures of the current keys the source lacks |
| `Scd2.ComputeDelta` | plugins/strategy/scd2-py/store.py:77-97 | the whole delta, or a KeyError in exactly the described cases |
| `Scd2.IndexIsLast` | plugins/strategy/scd2-py/store.py:77-81 | the index has exactly the keys of the current rows, each with the last of its rows, current being what Python takes for true |
| `Scd2.UnchangedIff` | plugins/strategy/scd2-py/store.py:84-92 | a source row changes nothing exactly when its key is current and every tracked column is the same in both rows, missing reading as None |
| `Scd2.CompleteUnlessRaised` | plugins/strategy/scd2-py/store.py:84-127 | a load that raises no KeyError merges only rows with all the strategy's columns and no other |
| `Scd2.RaisesIff` | plugins/strategy/scd2-py/store.py:77-127 | a load raises exactly when a column it reads is missing: a key column, a tracked column of a new or changed source row, or a column of a current row it closes |
| `Scd2History.PastIsKept` | plugins/strategy/scd2-py/store.py:84-127 | a strictly later load changes no view before it |
| `Scd2History.PresentIsSource` | plugins/strategy/scd2-py/store.py:84-127 | from the load on, the table shows exactly its source on key and tracked columns |
| `Scd2History.HistoryIsKept` | plugins/strategy/scd2-py/store.py:84-127 | a later load keeps version keys unique and each key's intervals non-empty and disjoint |
| `Scd2History.TableIsHistory` | plugins/strategy/scd2-py/store.py:84-127 | after any loads, each key's intervals are disjoint and at most one of its rows is current |
| `Scd2History.TimeTravel` | plugins/strategy/scd2-py/store.py:63-127 | after all loads, the view at any t from one load to the next is exactly that load's source |
| `Scd2History.NothingBeforeFirstLoad` | plugins/strategy/scd2-py/store.py:63-127 | the view before the first load is empty |
| `Scd2History.NewestViewKeptIff` | plugins/strategy/scd2-py/store.py:118-127 | the newest view survives a load exactly when its stamp is later or it changes nothing |
| `Scd2History.NothingToDo` | plugins/strategy/scd2-py/store.py:84-100 | when the table shows the source, the delta is empty at any timestamp |
| `Scd2History.RetryIsNoOp` | plugins/strategy/scd2-py/store.py:77-100 | comparing the last source again, at any timestamp, gives an empty delta and leaves the table as it is |
| `Scd2History.NeverRaises` | plugins/strategy/scd2-py/store.py:77-97 | under the loads' conditions no column is missing |
| `Scd2Load.ApplyLoad` | plugins/strategy/scd2-py/store.py:63-115 | the whole load over catalog and format: the calls in order, the KeyError, the early return, the merge under target@timestamp and the commit |
| `Scd2Load.StoppedLinksIff` | plugins/strategy/scd2-py/store.py:99-115 | from any state, exactly when an attempt that stops after n calls leaves the catalog naming the table's last write |
| `Scd2Load.RetryLinksIff` | plugins/strategy/scd2-py/store.py:99-115 | a load stopped after n calls and retried always finishes, and is committed exactly unless it stopped between merge and commit with something to change |
| `Scd2Load.CrashLeavesCatalogBehind` | plugins/strategy/scd2-py/store.py:99-115 | after that crash no number of retries ever commits: the table holds the load, the catalog names the snapshot before it |
| `Scd2Load.FirstLoadChanges` | plugins/strategy/scd2-py/store.py:84-92 | the first load of a non-empty source has something to change, so that crash can happen |
| `Scd2Rounds.FinishShowsSourceIff` | plugins/strategy/scd2-py/store.py:99-115 | a runnable load finishes, and its table then shows the source it read exactly when its delta was empty or its key not yet written with |
| `Scd2Rounds.RetriedLoadsOnce` | plugins/strategy/scd2-py/store.py:77-115 | a load stopped any number of times after any calls and then let through has the rows of one load |
| `Scd2Rounds.RoundsTimeTravel` | plugins/strategy/scd2-py/store.py:63-115 | after any sequence of loads, each stopped and retried at will, the view at any t from one load to the next is exactly the source that load read |
| `Scd2Rounds.LoadAnswers` | plugins/strategy/scd2-py/store.py:99-115 | a runnable load answers that nothing changed exactly when its delta is empty; else it uses the key target@timestamp and answers with the rows merged, or with what was recorded under that key |
| `Scd2Rounds.LoadRaisesIff` | plugins/strategy/scd2-py/store.py:63-115 | a load fails exactly when its source does not resolve, its target has no name or a needed column is missing, and a failed one has merged and committed nothing |
| `Scd2Rounds.LoadSparesOthers` | plugins/strategy/scd2-py/store.py:102-107 | a load of one target, wherever it stops, leaves rows, version and used keys of every other target alone |
| `Scd2Rounds.KeyAtInjective` | plugins/strategy/scd2-py/store.py:105-105 | loads of different targets or at different timestamps never share a key |
| `Scd2Rounds.OverlapKeepsRows` | plugins/composition/harness.py:142-150 | a crashed attempt's merge that goes on after the retry committed leaves the rows as they are and the catalog a version behind |
| `Backoff.IntervalIsIdeal` | core/reconciler/reconciler.go:328-334 | with Base * Max below 2^63 the wrapping interval is min(Base * 2^(n-1), Max) for every attempt |
| `Backoff.IntervalMonotoneAndCapped` | core/reconciler/reconciler.go:328-334 | within that bound it never shrinks and never exceeds the cap |
| `Backoff.DaemonIntervals` | core/cmd/rat/main.go:512-513 | the daemon's settings give the ideal interval at every attempt |
| `Backoff.IdealIffNoWrapUnderCap` | core/reconciler/reconciler.go:328-334 | for any settings, an attempt has its ideal interval exactly when no wrapped positive value falls under the cap |
| `Backoff.EveryAttemptIdealIff` | core/reconciler/reconciler.go:328-334 | the settings give every attempt its ideal interval exactly when none of the first 64 doublings wraps to a positive value under the cap |
| `Backoff.WrappedIntervalPassesGuard` | core/reconciler/reconciler.go:328-334 | concrete settings whose 33rd wait is far shorter than the 32nd |
| `Routing.UnbindKeepsRoutes` | core/cmd/rat/rewire.go:46-54 | a whole Unbind keeps: every connection dialed is live or closed once, and the hook's table is the gateway's |
| `Routing.BindKeepsRoutes` | core/cmd/rat/rewire.go:30-43 | a whole Bind, over an old binding or not, dialable or not, keeps the same |
| `Routing.BindOpenKeepsRoutes` | core/gateway/gateway.go:298-304 | Bind's first section hands the displaced connection to the call in flight and makes the new one live |
| `Routing.UnbindOpenKeepsRoutes` | core/gateway/gateway.go:308-314 | Unbind's first section hands the displaced connection to the call in flight |
| `Routing.CloseKeepsRoutes` | core/cmd/rat/rewire.go:35-37 | the call's Close settles the connection it held, which nobody else holds or has closed |
| `Routing.RecordKeepsRoutes` | core/cmd/rat/rewire.go:38-40 | writing the hook's table moves no connection |
| `Routing.CloseIsRightIff` | core/cmd/rat/rewire.go:57-64 | closing the hook's connections closes each live one exactly once, and nothing else, if and only if the hook's table is the gateway's |
| `Routing.Gateway.SetProvider` | core/gateway/gateway.go:298-304 | the name is routed to the connection and the previous one is handed back |
| `Routing.Gateway.RemoveProvider` | core/gateway/gateway.go:308-314 | the name is no longer routed and the previous connection is handed back |
| `Routing.GatewayRewire.Bind` | core/cmd/rat/rewire.go:30-43 | left alone: a dialed connection replaces and closes the old one in both tables; a dial error changes nothing |
| `Routing.GatewayRewire.Unbind` | core/cmd/rat/rewire.go:46-54 | left alone: the binding goes from both tables and its connection is closed |
| `Routing.GatewayRewire.Close` | core/cmd/rat/rewire.go:57-64 | every connection in the hook's table is closed, each live one exactly once exactly when that table is the gateway's |
| `Reconciler.Reconciler.AddDesired` | core/reconciler/reconciler.go:147-158 | the name joins the desired list unless it is there |
| `Reconciler.Reconciler.RemoveDesired` | core/reconciler/reconciler.go:162-188 | the name leaves the list, the table, the snapshot and the routes, and its instance is terminated |
| `Reconciler.Reconciler.PublishLocked` | core/reconciler/reconciler.go:353-362 | the snapshot entry becomes the projection of the table entry, or goes with it |
| `Reconciler.Reconciler.Fail` | core/reconciler/reconciler.go:293-305 | the instance is terminated and one attempt counted, ending Degraded at the cap and armed with the backoff below it |
| `Reconciler.Reconciler.Launch` | core/reconciler/reconciler.go:264-275 | a launched instance is recorded with its endpoint, a launch error is a failure |
| `Reconciler.Reconciler.Step` | core/reconciler/reconciler.go:220-260 | one plugin's move for every state and every runtime answer |
| `Reconciler.Reconciler.Reconcile` | core/reconciler/reconciler.go:204-216 | a pass makes one move per desired plugin, in order |
| `Reconciler.Reconciler.Status` | core/reconciler/reconciler.go:369-378 | what the snapshot publishes, a pending view for an unknown name |
| `ReconcilerCalls.EndpointIsRouted` | core/reconciler/reconciler.go:381-389 | between whole calls, a non-empty, dialable endpoint that Endpoint publishes is where the gateway routes the plugin |
| `Reconciler.Reconciler.Shutdown` | core/reconciler/reconciler.go:393-407 | every live instance is taken from the table, republished and terminated once; state and endpoint stay |
| `Reconciler.InstancesAlongAll` | core/reconciler/reconciler.go:393-407 | the instances Shutdown collects are all the live ones, each once |
| `ReconcilerMoves.HealthyAfterPassIff` | core/reconciler/reconciler.go:204-260 | after a pass a plugin is Healthy exactly when it had an instance before its turn, the runtime answered Healthy for it, and it was not Degraded |
| `ReconcilerMoves.LostAfterPass` | core/reconciler/reconciler.go:233-238 | a Healthy plugin not answered Healthy ends the pass unrouted, its instance terminated and one failure counted |
| `ReconcilerMoves.LostIsTornDown` | core/reconciler/reconciler.go:233-238 | one step: answered Healthy it is left alone; otherwise unrouted, terminated once, failed once with the next retry armed or Degraded at the cap |
| `ReconcilerMoves.StartingIff` | core/reconciler/reconciler.go:248-259 | a starting plugin rises and is routed on Healthy, is failed on Unknown exactly when the readiness timeout has passed, and is failed on any other answer |
| `ReconcilerMoves.LaunchedIffDue` | core/reconciler/reconciler.go:240-247 | a Pending plugin with nothing running is launched exactly when its retry time has come, a refused launch counting as a failure |
| `ReconcilerMoves.DegradedIsLeft` | core/reconciler/reconciler.go:230-231 | a Degraded plugin is left alone, whatever the runtime would say |
| `ReconcilerMoves.ConvergesInTwoPasses` | core/reconciler/reconciler.go:204-260 | a plugin that is due is Healthy and routed to its endpoint after two passes if the runtime launches it in the first and answers Healthy in the second |
| `ReconcilerRuns.ExecConserves` | core/reconciler/reconciler.go:162-407 | in every interleaving an instance launched has one holder, or none and exactly one termination |
| `ReconcilerRuns.InstancesConserved` | core/reconciler/reconciler.go:162-407 | with nothing in flight, each launched instance is the current one of exactly one plugin or was terminated exactly once |
| `ReconcilerBudget.LaunchBudget` | core/reconciler/reconciler.go:220-305 | launches since last Healthy are attempts plus the live instance, never above the cap; only Degraded uses it up |
| `ReconcilerBudget.RelaunchesWait` | core/reconciler/reconciler.go:228-305 | every relaunch waits at least the backoff of the failure before it |
| `ReconcilerBudget.DegradedStays` | core/reconciler/reconciler.go:220-260 | Degraded is left only by a removal |
| `ReconcilerBudget.SnapshotAgrees` | core/reconciler/reconciler.go:353-362 | the published snapshot has each tracked plugin's state, attempts, retry time and endpoint, and no other plugin, in every state, Shutdown included |
| `ReconcilerRouting.ConnectionsClosedOnce` | core/cmd/rat/rewire.go:30-54 | in every interleaving of the sections, each connection is live in the gateway, held by exactly one call in flight, or closed exactly once |
| `ReconcilerRouting.TablesAgreeIff` | core/cmd/rat/rewire.go:38-52 | with no call in flight the hook's table is the gateway's exactly when no name's last write to it came late |
| `ReconcilerRouting.ShutdownClosesOnceIff` | core/cmd/rat/rewire.go:57-64 | and exactly then shutdown closes every connection exactly once |
| `ReconcilerRouting.RoutedIsHealthyOrLeaving` | core/reconciler/reconciler.go:162-260 | in every interleaving whatever is routed is a Healthy plugin at its endpoint, or one a removal is about to unbind |
| `ReconcilerRouting.StepKeepsRoutedIff` | core/reconciler/reconciler.go:184-187 | a step keeps Healthy plugins routed exactly when it is not an Unbind that begins on a plugin tracked, Healthy and dialable |
| `ReconcilerRouting.AlwaysRoutedIff` | core/reconciler/reconciler.go:184-187 | in a run Healthy plugins are routed at every moment exactly when no such Unbind begins |
| `ReconcilerRouting.StepKeepsWantedIff` | core/reconciler/reconciler.go:204-216 | a step keeps every tracked plugin wanted exactly when it is not a pass stepping a name neither desired nor about to be forgotten |
| `ReconcilerRouting.AlwaysWantedIff` | core/reconciler/reconciler.go:204-216 | in a run only wanted plugins are tracked at every moment exactly when no pass makes such a step |
| `ReconcilerCalls.RoutingAgrees` | core/reconciler/reconciler.go:220-260 | between whole calls a plugin is routed exactly when it is Healthy at a dialable endpoint, and to that endpoint; tracked implies desired |
| `ReconcilerCalls.RemoveLeavesNothing` | core/reconciler/reconciler.go:162-188 | a removed plugin is not desired, tracked, published or routed |
| `ReconcilerCalls.CallIsARun` | core/reconciler/reconciler.go:147-216 | every whole call is a run of the finer steps, so what holds of those holds of the methods |
| `ReconcilerRaces.LateUnbindDropsNewBinding` | core/reconciler/reconciler.go:162-188 | a run with an Unbind of that kind: it ends quiet with a Healthy, desired plugin unrouted |
| `ReconcilerRaces.StaleCopyOrphansInstance` | core/reconciler/reconciler.go:204-216 | a run with a step of that kind: it ends quiet with an instance running for a plugin nobody desires |
| `ReconcilerRaces.LateDeleteLeaksConnection` | core/cmd/rat/rewire.go:46-54 | a run with a late delete: it ends quiet with a live connection that shutdown will never close |
| `ReconcilerRaces.LateWriteClosesTwice` | core/cmd/rat/rewire.go:30-43 | a run with a late write: it ends quiet with a closed connection that shutdown will close again |
| `AuditSink.AuditSink.Append` | plugins/auditlog/inmemory-py/store.py:58-87 | the batch loop: committed records, acks, and the sink's head afterwards |
| `AuditSink.NothingAfterRejection` | plugins/auditlog/inmemory-py/store.py:64-67 | in any batch, once a record is rejected every later one is acked as a chain break and none of them is stored |
| `AuditSink.AckedIff` | plugins/auditlog/inmemory-py/store.py:63-85 | in any batch, with nothing rejected before it, a record is a duplicate, badly signed, a chain break or committed exactly by whether its id is stored, it verifies, and it names the last stored record's hash |
| `AuditSink.StoresWhatItAcks` | plugins/auditlog/inmemory-py/store.py:81-85 | the stored records grow by exactly the batch's records acked Committed, in order |
| `AuditSink.AlwaysConsistent` | plugins/auditlog/inmemory-py/store.py:58-87 | after any batches the head is the last stored record's hash and the committed ids are the stored records' |
| `AuditSink.JudgedByPosition` | plugins/auditlog/inmemory-py/store.py:64-83 | a signed chain record is a duplicate behind the sink's end, committed at it, a chain break past it |
| `AuditSink.OnlyNextCommits` | plugins/auditlog/inmemory-py/store.py:64-83 | whoever sent it, only the next record of the authored chain can be committed |
| `AuditSink.BatchExtendsPrefix` | plugins/auditlog/inmemory-py/store.py:58-87 | any batch moves the stored prefix forward or leaves it |
| `AuditSink.AlwaysAPrefix` | plugins/auditlog/inmemory-py/store.py:58-87 | for all sequences of batches the sink holds exactly a prefix of the authored chain |
| `AuditSink.ContiguousBatchCommits` | plugins/auditlog/inmemory-py/store.py:58-87 | a batch c[i..m) with i at or before the end n extends the sink to c[0..max(n,m)), each record acked committed or duplicate by its place |
| `AuditSink.GapCommitsNothing` | plugins/auditlog/inmemory-py/store.py:58-87 | a batch that starts past the end commits nothing and every record is acked as a chain break |
| `Catalog.Catalog.GetTable` | plugins/catalog/inmemory-go/store.go:48-64 | a known table on a known branch resolves, main by default; each error in its order |
| `Catalog.Catalog.CreateBranch` | plugins/catalog/inmemory-go/store.go:66-81 | the branch, new or not, takes the source's snapshot |
| `Catalog.Catalog.MergeBranch` | plugins/catalog/inmemory-go/store.go:84-113 | ledger first, then branches, then the expected snapshot, then a newly minted one |
| `Catalog.Catalog.RegisterTable` | plugins/catalog/inmemory-go/store.go:119-136 | the table is known afterwards and its reference returned |
| `Catalog.Catalog.CommitTable` | plugins/catalog/inmemory-go/store.go:142-179 | ledger first, then table and branch, then the expected snapshot, then the record |
| `Catalog.MergeReplays` | plugins/catalog/inmemory-go/store.go:88-93 | a later merge under a used key answers with the original snapshot and changes nothing, whatever its other arguments |
| `Catalog.OneMergePerKey` | plugins/catalog/inmemory-go/store.go:84-113 | each key moves a branch at most once |
| `Catalog.MergeLedgerIsHistory` | plugins/catalog/inmemory-go/store.go:84-113 | every ledger entry comes from a merge that landed with that snapshot |
| `Catalog.CommitReplays` | plugins/catalog/inmemory-go/store.go:155-160 | a later commit under a used key answers with the original snapshot and changes nothing |
| `Catalog.OneCommitPerKey` | plugins/catalog/inmemory-go/store.go:142-179 | each key records a commit at most once |
| `Catalog.ResolvesIff` | plugins/catalog/inmemory-go/store.go:48-64 | a table resolves exactly when it is named, known and its branch, main by default, exists |
| `Catalog.RegisteredResolves` | plugins/catalog/inmemory-go/store.go:119-135 | a registered table resolves on its branch with its own or the default uri, and nothing else changes |
| `Catalog.CreatedIsAtSource` | plugins/catalog/inmemory-go/store.go:66-81 | a created branch is where its source, main by default, is, and no other branch moves |
| `Catalog.MergeMovesIff` | plugins/catalog/inmemory-go/store.go:84-113 | a merge under a fresh key moves its branch exactly when both branches exist and the snapshot it expects, if any, is the branch's |
| `Catalog.CommitRecordsIff` | plugins/catalog/inmemory-go/store.go:142-179 | a commit under a fresh key is recorded exactly when all is named and known and the snapshot it expects, if any, is the one committed there; a stale one changes nothing |
| `Catalog.UsedKeyRecordsNothing` | plugins/catalog/inmemory-go/store.go:142-160 | under a used key a well-formed commit answers with what was recorded then, an ill-formed one is refused, and nothing changes |
| `Catalog.CommitChainIff` | plugins/catalog/inmemory-go/store.go:142-179 | from any catalog, the commits of a table on a branch form one chain at every moment exactly when none is recorded over another without naming it |
| `Catalog.CommitKeyInjective` | plugins/catalog/inmemory-go/store.go:46-46 | tables whose names hold no NUL have commit entries of their own on every branch |
| `Catalog.NulSharesEntry` | plugins/catalog/inmemory-go/store.go:46-46 | a name with a NUL can share the entry of another table on another branch |
| `Catalog.StepTip` | plugins/catalog/inmemory-go/store.go:66-113 | a landed merge expects the tip, and any other operation keeps it, exactly when it is not one that breaks the chain |
| `Catalog.StepKeepsChainIff` | plugins/catalog/inmemory-go/store.go:66-113 | one operation keeps the chain exactly when it is not a landed merge without an expected snapshot or a create onto another one |
| `Catalog.ChainIff` | plugins/catalog/inmemory-go/store.go:66-113 | from every reachable catalog the merges form one chain at every moment if and only if no operation is of that kind |
| `Catalog.MergesFormOneChain` | plugins/catalog/inmemory-go/store.go:66-113 | from every reachable catalog, guarded merges into a branch nothing creates over form one chain of snapshots new to the whole catalog, ending at the branch |
| `Catalog.UnguardedMergeLosesUpdate` | plugins/catalog/inmemory-go/store.go:102-108 | a run with a merge of that kind, which lands on a snapshot its caller never named |
| `Catalog.RetargetForksTheChain` | plugins/catalog/inmemory-go/store.go:66-81 | a run with a create of that kind, after which two merges land on the same expected snapshot |
| `FormatLedger.FormatServicer.Snapshot` | plugins/composition/harness.py:97-102 | the table's next version and its name |
| `FormatLedger.FormatServicer.Make` | plugins/composition/harness.py:138-140 | the second section: the rows, one new version and the entry in the ledger, whatever the ledger had |
| `FormatLedger.FormatServicer.Overwrite` | plugins/composition/harness.py:133-140 | left alone between its sections: a used key writes nothing and returns the original result; else one write, one new version, one ledger entry |
| `FormatLedger.FormatServicer.Merge` | plugins/composition/harness.py:142-150 | the same for a merge into the table as it stands, left alone between its sections |
| `FormatLedger.UnkeyedAlwaysWrites` | plugins/composition/harness.py:104-117 | a write without a key is always made and never recorded |
| `FormatLedger.CommitLinksIff` | plugins/catalog/inmemory-go/store.go:142-179 | a first commit makes the catalog name the table's last write exactly when it commits that write; a replay leaves it as it was |
| `FormatRuns.LeftAlone` | plugins/composition/harness.py:133-150 | a write's two sections with nothing between them are the whole write |
| `FormatRuns.RunIsOk` | plugins/composition/harness.py:97-117 | however writes overlap, the ledger has under each key what its last write minted, each table its last write's rows and version, and each answer is of a write made under its key |
| `FormatRuns.SnapshotsNeverRepeat` | plugins/composition/harness.py:97-102 | however writes overlap, no table gets one snapshot twice |
| `FormatRuns.StepKeepsOneIff` | plugins/composition/harness.py:104-140 | one section keeps one real write per key exactly when it is not a write whose key was recorded behind its check |
| `FormatRuns.OneWritePerKeyIff` | plugins/composition/harness.py:104-140 | in every run each key has at most one real write at every moment exactly when no such write goes on |
| `FormatRuns.DoublesOverlap` | plugins/composition/harness.py:104-140 | such a write passed its check before another one under its key recorded, and that one recorded before it went on |
| `FormatRuns.NoOverlapNoDouble` | plugins/composition/harness.py:104-140 | if no write passes its check while another under its key is open, no key is written twice |
| `FormatRuns.RepeatReturnsRecorded` | plugins/composition/harness.py:104-117 | in every run, on whatever table, a write that looks its key up after it was recorded changes nothing and answers with the last result recorded |
| `FormatRuns.RepeatReturnsOriginal` | plugins/composition/harness.py:104-117 | and, while no write has doubled, with the original result, marked already applied |
| `Pipeline.ApplyStrategy` | plugins/strategy/fullrefresh-py/store.py:54-90 | the five calls in order, stopping at the first that fails |
| `Pipeline.NewRunWrites` | plugins/strategy/fullrefresh-py/store.py:54-90 | the first attempt of a run whose id, or pair of tables if it has none, was not used writes its rows one version on, records both under that name and links catalog and table |
| `Pipeline.NamesUsed` | plugins/strategy/fullrefresh-py/store.py:64-64 | a completed attempt uses exactly one name in both ledgers: its run id where there is one, the pair of tables only where there is none |
| `Pipeline.TwoRunsBothWrite` | plugins/strategy/fullrefresh-py/store.py:64-90 | two refreshes of one target under two unused run ids both write, the table ending two versions on with the second's rows, committed |
| `Pipeline.SameRunChangesNothing` | plugins/strategy/fullrefresh-py/store.py:64-90 | an attempt of a run that completed changes nothing and answers with the same result, marked already applied |
| `Pipeline.AttemptRaisesIff` | plugins/strategy/fullrefresh-py/store.py:54-90 | an attempt fails exactly without query text, a resolving source, a target name or the engine's answer, and a failed one has written and committed nothing |
| `Pipeline.AttemptFinishes` | plugins/strategy/fullrefresh-py/store.py:54-90 | an uninterrupted attempt finishes from wherever an earlier one stopped, writing only if its key has no write and committing what that write minted |
| `Pipeline.AttemptLinksIff` | plugins/strategy/fullrefresh-py/store.py:54-90 | from any state, exactly when a finished attempt leaves the catalog naming the table's last write |
| `Pipeline.StaleRetryUnlinks` | plugins/strategy/fullrefresh-py/store.py:78-89 | the family outside that condition: a stale retry leaves the catalog naming one run's write and the table holding another's |
| `PipelineRuns.NextKeepsInv` | plugins/strategy/fullrefresh-py/store.py:54-90 | every call, crash, retry, section of a write, second delivery, late commit and foreign catalog operation keeps ledger, commits, attempts and tables in agreement |
| `PipelineRuns.ServerIsARun` | plugins/composition/harness.py:77-82 | the format of every history is that of a run of overlapping writes |
| `PipelineLinks.StepKeepsOneIff` | plugins/composition/harness.py:104-140 | one step of a history keeps one real write per key exactly when it is not a write whose key was recorded behind its check |
| `PipelineLinks.OneWritePerKeyIff` | plugins/composition/harness.py:104-140 | in every history with crashes, retries and late calls each key has at most one real write at every moment exactly when no such write goes on |
| `PipelineLinks.OneWritePerRun` | plugins/strategy/fullrefresh-py/store.py:64-64 | counted by run: in every history without a doubled write each run id, and each pair of tables refreshed without one, has at most one real write |
| `PipelineLinks.StepKeepsOwnedIff` | plugins/composition/harness.py:133-140 | a step keeps every table and its catalog entry with the latest run exactly when it is neither a write on a table whose latest run has committed, or has written and is another run, nor a first commit of a snapshot other than the table's last that is the latest run's own or comes after it |
| `PipelineLinks.AlwaysOwnedIff` | plugins/strategy/fullrefresh-py/store.py:54-90 | in a history the latest run owns its table and catalog entry at every moment exactly when no step is one of those |
| `PipelineLinks.CompletionIsLinked` | plugins/catalog/inmemory-go/store.go:142-179 | in a history without one and without a doubled write, a completed attempt has exactly one write under its run id, or pair of tables if it has none, the committed snapshot is the one it minted, and the table holds its rows |
| `PipelineLinks.StaysLinked` | plugins/catalog/inmemory-go/store.go:142-179 | and that stays so while the target is the latest run's and no write doubles, until the next run starts there |
| `PipelineLinks.CompletionNamesIff` | plugins/catalog/inmemory-go/store.go:142-179 | in any history, exactly when a completing attempt leaves the catalog naming the write whose rows the table holds |
| `PipelineSchedule.CalmIsSafe` | plugins/composition/harness.py:104-140 | where each target's open write is the latest run's only one and each outstanding commit is the latest run's or has landed, no step doubles a write or takes anything from the latest run |
| `PipelineSchedule.WaitingIsSafe` | plugins/strategy/fullrefresh-py/store.py:54-90 | a scheduler that waits for open writes and outstanding commits before it starts a run, where only recorded writes are delivered again, has no doubled write and no disturbing step in any history |
| `PipelineSchedule.WaitingWritesOnce` | plugins/strategy/fullrefresh-py/store.py:64-64 | under that scheduler no run is ever written twice |
| `PipelineSchedule.LateWriteUnlinks` | plugins/composition/harness.py:133-140 | a history in which a crashed run's write goes on after another attempt, of any run, completed: the catalog names one write, the table holds the other |
| `PipelineSchedule.OverlapUnlinks` | plugins/composition/harness.py:133-140 | the same for a retry: two real writes under one key, the ledger naming the second and the catalog the first |
| `PipelineSchedule.LateCommitUnlinks` | plugins/catalog/inmemory-go/store.go:142-179 | a history in which a crashed run's commit lands after the next run completed: the table holds the next run, the catalog names the one before |
| `Registry.RemoveString` | core/registry/registry.go:265-273 | every occurrence goes, the rest keeps its order |
| `Registry.LabelsMatch` | core/registry/registry.go:226-233 | true exactly when every pair asked for equals the label, an absent label reading as empty |
| `Registry.Registry.Register` | core/registry/registry.go:71-90 | a duplicate name is refused; else the manifest and its capabilities are indexed |
| `Registry.Registry.Deregister` | core/registry/registry.go:94-107 | the manifest and all its index entries go, empty buckets with them |
| `Registry.Registry.Select` | core/registry/registry.go:151-193 | the loop over the bucket reaches the decision, each refusal in its order, and never meets an unknown name |
| `Registry.IndexIsScan` | core/registry/registry.go:71-107 | after every run the index holds exactly what a scan of the manifests finds, with no empty bucket |
| `Registry.SelectsTheUniqueMatch` | core/registry/registry.go:151-193 | allowed to p exactly when the caller is authorized, p is the only registered match, and p lists the capability once |
| `Registry.ReasonIff` | core/registry/registry.go:151-193 | each reason for a refusal in terms of the manifests alone, and nobody is named unless chosen |
| `Registry.OrderDoesNotMatter` | core/registry/registry.go:151-193 | the same manifests give the same decision, however they came to be registered |
| `Registry.RefiningNeverReroutes` | core/registry/registry.go:151-193 | a finer selector picks the same plugin or nothing |
| `Registry.ListedTwiceIsNeverSelected` | core/registry/registry.go:71-90 | a provider that lists the capability twice counts as two and is never selected |
| `Registry.MatchesIff` | core/registry/registry.go:224-233 | a pair matches when present and equal, or when it asks for the empty value of an absent label |
| `Tickets.MemStore.Consume` | core/arrowticket/arrowticket.go:157-165 | the first use of an id is told from every later one |
| `Tickets.CasStore.Consume` | core/arrowticket/statecas/statecas.go:49-67 | created, already there, or unconfirmed, for every fate of the create |
| `Tickets.Minter.Validate` | core/arrowticket/arrowticket.go:113-134 | the refusals in their order, then single use, an unconfirmed check refusing the ticket |
| `Tickets.AcceptedIff` | core/arrowticket/arrowticket.go:109-134 | a ticket is accepted exactly when its signature is the MAC of its five fields under this key, its expiry millisecond is not past, stream, caller and tenant are the presenter's, its id is unused and the store answers |
| `Tickets.RefusedIff` | core/arrowticket/arrowticket.go:109-134 | each refusal has its own reason, and the first that applies is given |
| `Tickets.UsedUpIff` | core/arrowticket/arrowticket.go:109-134 | only a ticket right in all of that is used up: any other leaves the store as it was, so a wrong caller cannot burn it |
| `Tickets.MemAcceptedIff` | core/arrowticket/arrowticket.go:157-165 | the same over a replica's own set |
| `Tickets.AcceptedWasSignedForBinding` | core/arrowticket/arrowticket.go:109-140 | under an ideal HMAC, NUL-free claims whose signature is accepted name exactly this stream, caller and tenant, and are the ticket's own |
| `Tickets.UsedIsRefused` | core/arrowticket/statecas/statecas.go:49-67 | once a create for a ticket was executed, heard of or not, every later presentation is refused at every replica |
| `Tickets.LandedIsRefused` | core/arrowticket/statecas/statecas.go:49-67 | a create that was given up on and lands late uses the ticket up just the same |
| `Tickets.SingleUseHolds` | core/arrowticket/arrowticket.go:167-190 | over one shared store, across replicas, restarts and late creates, a ticket is accepted at most once |
| `Tickets.MintedAcceptedIff` | core/arrowticket/arrowticket.go:89-134 | presented by any caller, a minted ticket is accepted exactly when that caller is the one it was minted for, it is unexpired to the millisecond, unused, and the store answers |
| `Tickets.SeparateMemoriesReplay` | core/arrowticket/arrowticket.go:145-165 | two replicas with their own sets both accept one ticket |
| `Tickets.SignedTextInjective` | core/arrowticket/arrowticket.go:136-140 | the signed text determines claims whose names hold no NUL |
| `Tickets.AmbiguousIff` | core/arrowticket/arrowticket.go:136-140 | some other claims sign the same text exactly when a name holds a NUL |
| `Tickets.DistinctMintsDistinctIds` | core/arrowticket/arrowticket.go:39-50 | under an ideal HMAC, mints that differ in anything never share a single-use id |
| `Resolver.UnsatisfiedRequires` | core/cmd/rat/resolver.go:25-41 | the two loops list exactly the unmet requirements, in order |
| `Resolver.UnsatisfiedIff` | core/cmd/rat/resolver.go:25-41 | a requirement is listed exactly when a plugin has it and none offers it |
| `Resolver.UnsatisfiedInOrder` | core/cmd/rat/resolver.go:25-41 | the report is the project's requirements in order, repeats included, less those something offers |
| `Resolver.FindProvider` | core/cmd/rat/marketplace.go:265-274 | the first entry that offers the capability, or none |
| `Resolver.ProviderIsFirst` | core/cmd/rat/marketplace.go:265-274 | the entry found offers the capability and none before it does |
| `Resolver.Project.AddMarketEntry` | core/cmd/rat/marketplace.go:528-564 | the entry is appended unless its name is taken; it fails exactly when its load or, if the name is free, its write does, and then changes nothing |
| `Resolver.Project.AddProviders` | core/cmd/rat/project.go:446-463 | one round adds the first acceptable provider of each unmet requirement, and stops at the first failing operation, naming the entry it was adding |
| `Resolver.Project.ResolveWithDeps` | core/cmd/rat/project.go:430-469 | the rounds end for every finite market and reach the closure, satisfied exactly when nothing is unmet, if every operation on the way worked; else the last one failed, the additions so far are justified, and so was the one named |
| `Resolver.RoundAdds` | core/cmd/rat/project.go:446-463 | a round keeps the project as a prefix and, if it adds anything, uses up a market name |
| `Resolver.IdleRoundIffStuck` | core/cmd/rat/project.go:446-468 | a round adds nothing exactly when every unmet requirement is stuck |
| `Resolver.StopsMetOrStuck` | core/cmd/rat/project.go:430-469 | it stops with each requirement met or without an acceptable, free provider, and a second run adds nothing |
| `Resolver.OnlyAddsWhatIsNeeded` | core/cmd/rat/project.go:430-469 | the project is kept, and each addition is an acceptable first provider of something an earlier plugin needs, under a free name |
| `EnvRefs.ExpandEnvRefs` | core/cmd/rat/plane.go:248-277 | the index loop computes the expansion, both errors included |
| `EnvRefs.EscapeRoundTrip` | core/cmd/rat/plane.go:243-277 | escaping then expanding gives the original for every text and environment |
| `EnvRefs.ReferenceExpands` | core/cmd/rat/plane.go:243-277 | a reference between escaped texts becomes its value, not expanded again |
| `EnvRefs.ReferenceIsValueOrFails` | core/cmd/rat/plane.go:259-271 | whatever follows it, a reference is its value before the expansion of the rest, or fails the whole text and names the undefined variable |
| `EnvRefs.OpenReferenceFails` | core/cmd/rat/plane.go:259-263 | a reference that is never closed fails the whole text |

## Left out

- gRPC, protobuf, JSON and YAML encodings, dialing, interceptors and codecs: messages are datatypes and calls are steps.
- The timer and its jitter in `core/reconciler/loop.go`: each tick is modelled, when it comes is a parameter.
- `Store.Holder`, `Elector.IsLeader` and `Elector.HeldSince`: they only read fields.
- JSON decoding of the lease record: a stored value is a record or is undecodable, and an undecodable one may be taken over, as in the code.
- The state store's `list`, the format's `maintain`, and its map from identifiers to tables: one table is modelled.
- The format servicer's `Append` leg: it shares the ledger that `Overwrite` and `Merge` are proved with.
- A reconciler without a rewire hook, launch contents (image, environment, volumes) and RPC timeouts.
- The order in which `Shutdown` terminates: it ranges over a Go map, so any order is allowed.
- `ProviderOf`, `ProvidersOf`, `All`, `Capabilities` and the wording of a decision's reason: sorting and text.
- The text written to `rat.toml` and the manifests, and half-written files: the model is the list of plugins they describe, and a failed write leaves it alone.
- Fetching and verifying marketplace sources: an entry carries whether its source was verified.
- The stream relay, the hub, the engines, and the Postgres, sqlite, Parquet, Delta and podman providers.
- FormatLedger.FormatServicer.Overwrite: makes the store's write, the version and the ledger entry together. The code takes no lock there either, so two writes on one table that both are past their checks can mix these; under a scheduler that waits, no target has two (`PipelineSchedule.WritesCalm`).
- FormatLedger.FormatServicer.Merge: does the same, and reads the table it merges into at that moment, as the code does.
- Scd2Load.RetryLinksIff: leaves out a call that lands after its caller crashed. A merge that lands before the retry reads is the crash after the merge; one whose check comes after the retry merged is a repeat and changes nothing; one that passed its check before is Scd2Rounds.OverlapKeepsRows; a late commit is the attempt that was not stopped.
- Scd2Rounds.RoundsTimeTravel: lets others write between loads only, anywhere but the target and its keys; what a source that changes between an attempt and its retry leads to is Scd2Rounds.FinishShowsSourceIff.
- Scd2Load.ApplyLoad: reads both tables as they stand at its two scans; another writer between a scan and the merge is not modelled.
- ReconcilerCalls.RoutingAgrees: speaks of whole calls before Shutdown; for interleaved calls ReconcilerRouting says exactly what is kept and which step breaks it.
