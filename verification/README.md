# Harvest verification

A Dafny model of the harvest services and proofs about it. `dafny verify dfyconfig.toml` checks everything.

The harvester keeps one row per (corpus, jurisdiction, source) and sweeps it when it falls due: an orchestrator
stamps the row and sends one message per query, workers search, triage, stage candidates and record one history
row per query, and the worker whose counter increment completes the dispatch finalizes the row. Staged candidates
become artifacts that fetch workers download, deduplicate and store. The public-records service holds email
conversations with offices: it sends requests behind gates, follows up on silence, reacts to inbound mail and books
fees against a budget.

## How it is built

Each of the four subsystems that run concurrently is a step system: a state of tables, caches, queues and program
counters, and one step per store, cache or queue operation. Any number of workers interleave, and any of them may
stop between two steps.

| subsystem | protocol | invariant and proof | main results | the same operations in place |
|---|---|---|---|---|
| dispatch, sweep, fan-in | `HarvestProtocol`, `HarvestTables` | `HarvestInvariant`, `HarvestSafety`, `HistorySums` | `HarvestTheorems`, `HarvestDues`, `HarvestSolo`, `HarvestReread`, `HarvestRecovery` | `HarvestWorld`, `FanIn`, `Sweeping`, `SweepBatch`, `Crawling`, `Dispatching` |
| fetch | `FetchProtocol` | `FetchSafety` | `FetchTheorems`, `FetchOverlap` | `ArtifactStore`, `Fetching`, `Reconciling` |
| staging | `Staging` | `Staging` | `Staging` | `ArtifactStore` |
| conversations | `RecordsProtocol`, `RecordsTables` | `RecordsInvariant`, `RecordsFrames`, `RecordsRows`, `RecordsLifecycle`, `RecordsMail`, `RecordsAnswers`, `RecordsMoney`, `RecordsFollowups`, `RecordsSends` | `RecordsTheorems`, `RecordsRematch`, `RecordsApprovals` | `RecordsWorld`, `Receiving`, `Sending`, `FollowupScan` |

The classes hold the real fields, and every handler that works on them is proved to take steps of the protocol only:
`Valid()` says the object stands at the end of a run (conversations), or inside any set of states that no protocol
step leaves (harvester, fetch), which includes the invariant. So what the protocols keep in every run, the objects
keep after any sequence of handler calls. The row operations below the handlers state their own effect and promise
`Valid()` only together with the handler's step. Each handler also states the whole change it makes, twice: over the
functions it shares with the protocol, and in rows, columns and numbers alone (`Written`, `BatchWorked`, `NewRows`,
`Delivered`, `Picked`, `Planned`, `Fetched`, `Received`, `Contacted`, `JobDone`, `Chosen`, `Passed`).

The cache and the queue have their own models, `KeyValues` and `TaskQueues`. The algorithms on the same paths are
`TriageBatching`, `HostThrottle`, `Amounts`, `PrintedAmounts` and `SeveralAmounts`, `StorageKeys`, `SlugLaws` and
`DedupeIndex`.

## Assumptions

- Dispatch ids and thread tokens drawn at random are fresh (a taken token is modelled as the refusal it causes);
  the clock never goes back; configurations do not change during a run; purge and kill do not happen.
- A content hash identifies its content, so bytes are represented by their digest; only the eight-character prefix
  used in object keys may collide.
- A dispatch has at least one query; recovery and `HarvestReread` need a resweep interval of at least a day.
- Queues deliver anything ever sent, any number of times or never. That covers loss, redelivery and dead-lettering.
- Fetch handlers of one corpus do not overlap (`FetchProtocol.NoOverlap`); `OverlapFetchesTwice` shows why.
- One consumer sends initial requests and one sends follow-up jobs, as deployed
  (`records/src/public_records/cli.py:127-144`); receivers and scans may be any number.
- Search results, triage answers, page contents, drafts, classifications and deliveries are arbitrary outcomes.
- Names arrive in lower case where the code lower-cases them first.

## What turned out not to hold

- A stamped row need not be due when two orchestrators run (`HarvestSolo.TwoOrchestratorsStampARowNotDue`). It is due
  exactly when the row was read stamped, or nothing put it off between the read of the due list and the stamp: no
  finalization, and for a crawl row no parking until later than the cycle's time (`HarvestReread.WhenAWinIsDue`,
  `WhenASweepWinIsDue`).
- Overlapping fetch handlers of one corpus can fetch the same bytes twice (`FetchTheorems.OverlapFetchesTwice`);
  `FetchOverlap.WhenACommitFetchesTwice` says which commits do.
- A mail whose token names no thread (or that has none) and that is delivered again after its thread closed is logged
  and reacted to in a second campaign (`RecordsRematch.UnnamedMailIsLoggedTwice`). A delivery adds a row exactly when
  the campaign it matches then, or none, has no row of the message id (`WhenADeliveryAddsARow`). Two conditions a
  caller can check rule the second row out: the token names a thread when the mail first arrives
  (`TokenMailIsLoggedOnce`), or the sender always has waiting threads, all of one campaign (`SenderMailIsLoggedOnce`).
- A follow-up scan that holds a thread from before a human approval marks it as sent, and the approved request is
  dropped (`RecordsApprovals.StaleScanSwallowsApproval`); `WhenAScanDropsAnApproval` gives the exact condition for
  both branches of the scan, `WhenARescheduleMovesAThread` for the status change alone.
- `$1,000,000.00` to `$9,999,999.99` with commas parse as a tenth of their dollars
  (`PrintedAmounts.MillionsWithCommasReadAsATenth`); both printed forms read back exactly below one million
  dollars (`PlainRoundTrip`, `CommasRoundTrip`). The expression takes eight characters, `1,000,00`, which is six digits.
- A dead link's URL is not staged again until its key is lost (`Staging.DeadLinkIsNotStagedAgain`,
  `KeyStaysUntilLost`); cache and table differ exactly as `WhenASkipIsWrong` says.
- Documents whose digests share eight characters overwrite each other (`FetchTheorems.CollidingDigestsShareAnObject`).
- A jurisdiction named like the inbox spool is skipped by the index rebuild
  (`DedupeIndex.SpoolNamedJurisdictionIsForgotten`).
- The fan-in counter completes only while increments follow each other within its expiry
  (`KeyValues.CounterCompletes`); otherwise the dispatch timeout recovers the row (`HarvestRecovery`).

## Model

| member | source | states |
|---|---|---|
| `HarvestTheorems.FanInSound` | harvester/src/harvest_harvester/fanin.py:39-49 | In every interleaving of workers, crashes, redeliveries and counter losses: when an increment returns `done == query_count`, queries 0..count-1 of the dispatch have exactly one history row each, no other row exists, each was counted exactly once, and the candidate and error totals are the sums over those rows |
| `HarvestTheorems.FinalizationRefinesResult` | harvester/src/harvest_harvester/fanin.py:48-66 | Every finalization writes ERROR exactly when all rows of its dispatch are errors without candidates, CANDIDATES exactly when some row has candidates, else NOT_FOUND, whatever the completion order; a crawl writes its own row's result |
| `HarvestTheorems.EachDispatchEndsOnce` | core/src/harvest_core/fakes/datastore.py:154-188 | Any one stamp is finalized or replaced by at most one event of a run |
| `HarvestTheorems.RowChangesByOwner` | core/src/harvest_core/fakes/datastore.py:172-200 | A step changes a target row only as the worker of the dispatch it carries, as the winner of the compare-and-set over the stamp it saw, or by parking it |
| `HarvestTheorems.MessagesFollowStamps` | orchestrator/src/harvest_orchestrator/dispatch.py:81-101 | Every message ever sent belongs to a stamp that succeeded, with that stamp's target, source and query count, and a sequence number below it |
| `HarvestTheorems.StampsAreSpaced` | orchestrator/src/harvest_orchestrator/dispatch.py:24-27 | With any number of orchestrators, two stamps of a row that nothing finalized or parked in between are 1800 seconds apart for a sweep and 7200 for a crawl |
| `HarvestTheorems.LogReplaysRows` | core/src/harvest_core/fakes/datastore.py:154-188 | The stamp columns of a row are what replaying the log of stamps, finalizations and parkings gives, so the log the theorems speak about is the table's own history |
| `HarvestTheorems.ReachableInv` | harvester/src/harvest_harvester/sweep.py:229-257 | The protocol invariant holds in every reachable state |
| `HarvestSafety.StepKeepsInv` | harvester/src/harvest_harvester/sweep.py:74-257 | Every step of every worker, orchestrator and fault keeps the invariant |
| `HarvestSafety.RunKeepsInv` | orchestrator/src/harvest_orchestrator/dispatch.py:30-136 | Every run keeps the invariant |
| `HarvestSafety.FullCounter` | harvester/src/harvest_harvester/fanin.py:39-49 | A counter at its query count has counted every query of its dispatch, each once |
| `HarvestSafety.BumpMatches` | core/src/harvest_core/fakes/kv.py:35-41 | An increment keeps the counter equal to the sums over the rows it has counted, after any losses |
| `HarvestSafety.FinalizeKeepsInv` | core/src/harvest_core/fakes/datastore.py:172-188 | A finalization, won or lost, keeps rows, log, snapshots and workers consistent |
| `HarvestSafety.StampKeepsInv` | core/src/harvest_core/fakes/datastore.py:154-170 | A compare-and-set, won or lost, keeps rows, log, snapshots and messages consistent |
| `HistorySums.VerdictIsResult` | harvester/src/harvest_harvester/fanin.py:48-66 | The verdict computed from aggregated counts is the result the complete set of rows calls for |
| `HistorySums.ResultOrderFree` | harvester/src/harvest_harvester/fanin.py:48-66 | The result of a dispatch does not depend on the order of its rows |
| `HistorySums.SumIsTotal` | harvester/src/harvest_harvester/fanin.py:39-47 | Summing over the counted queries equals summing over all rows once every query is counted |
| `HarvestDues.SweepIsDueAgain` | harvester/src/harvest_harvester/fanin.py:51-62 | Every sweep finalization of every run is due again, counted from the time of one of its dispatch's rows, a day later after an error and the resweep interval later after anything else |
| `HarvestDues.CrawlIsDueAgain` | harvester/src/harvest_harvester/code.py:122-161 | Every crawl finalization carries the result of its own row, CANDIDATES if and only if that row staged some, and is due a day later after an error, the resweep interval later after an empty crawl, either after one with candidates |
| `HarvestDues.CrawlSays` | harvester/src/harvest_harvester/code.py:122-141 | Which of the two: a crawl is due in a day if and only if it was cut short, or had a failed portal and staged nothing; that and nothing staged is what makes it an error |
| `HarvestDues.RowsSay` | harvester/src/harvest_harvester/sweep.py:217-222 | Every history row of every run: CANDIDATES has candidates, NOT_FOUND has none, and a crawl's ERROR has none |
| `HarvestDues.RowsShowTheirLastEvent` | core/src/harvest_core/fakes/datastore.py:172-200 | In every run a row's result and due time are what its last finalization or parking wrote, or what it was seeded with |
| `HarvestSolo.OneOrchestratorStampsOnlyDue` | orchestrator/src/harvest_orchestrator/dispatch.py:40-57 | With one orchestrator a stamped row always has `next_due_at <= dispatched_at` |
| `HarvestSolo.RedispatchesAreDue` | orchestrator/src/harvest_orchestrator/dispatch.py:40-57 | With any number of orchestrators a winning stamp that replaces an earlier stamp is of a due row |
| `HarvestReread.WhenAWinIsDue` | orchestrator/src/harvest_orchestrator/dispatch.py:40-57 | With any number of orchestrators, a winning stamp is of a due row if and only if the row was read stamped, or the last clearing of the row since the orchestrator read its due list, if there is one, is a parking that is due again by the cycle's own time |
| `HarvestReread.WhenASweepWinIsDue` | orchestrator/src/harvest_orchestrator/dispatch.py:81-86 | A sweep row read unstamped and then won is due if and only if no finalization of it came between the read and the win |
| `HarvestReread.EveryStampWasRead` | orchestrator/src/harvest_orchestrator/dispatch.py:40-57 | Every run that ends before a stamp splits at the due-list read that the stamping orchestrator still works through, so the two conditions cover every stamp of every run |
| `HarvestSolo.TwoOrchestratorsStampARowNotDue` | orchestrator/src/harvest_orchestrator/dispatch.py:40-101 | A run in which a second orchestrator stamps a row that was swept and finalized after it was read, and is no longer due |
| `HarvestRecovery.NoSweepTargetIsWedged` | orchestrator/src/harvest_orchestrator/dispatch.py:30-101 | From any reachable state: wait out the timeout, run one cycle in which generation succeeds, deliver its messages once each in any order and with any outcomes; the row ends unstamped, with a result, and due only later |
| `HarvestRecovery.NoCrawlTargetIsWedged` | orchestrator/src/harvest_orchestrator/dispatch.py:104-136 | The same for a crawl target and one crawl that is not cut short by a transient portal failure |
| `HarvestRecovery.DueAfterTimeout` | core/src/harvest_core/fakes/datastore.py:134-152 | Every reachable row whose due time passes within the wait is on the list the next cycle reads |
| `HarvestRecovery.DeliveriesSettle` | harvester/src/harvest_harvester/sweep.py:194-257 | Delivering all messages of a fresh dispatch once, in any order, settles its row |
| `HarvestRecovery.CycleDispatches` | orchestrator/src/harvest_orchestrator/dispatch.py:40-57 | An undisturbed cycle stamps each row it plans to dispatch and queues all its messages |
| `HarvestWorld.InvariantIsClosed` | harvester/src/harvest_harvester/sweep.py:229-257 | The protocol invariant is a set of states no step leaves, so every sequence of calls on the object keeps it |
| `HarvestWorld.World.constructor` | core/src/harvest_core/fakes/datastore.py:29-40 | The object starts in the protocol's initial state over the given rows |
| `HarvestWorld.World.StampTarget` | core/src/harvest_core/fakes/datastore.py:154-170 | Stamps the row if and only if it still carries the stamp the caller saw |
| `HarvestWorld.World.FinalizeTarget` | core/src/harvest_core/fakes/datastore.py:172-188 | Clears the stamp and sets result and due time if and only if the row carries the caller's dispatch |
| `HarvestWorld.World.InsertHistoryRow` | core/src/harvest_core/fakes/datastore.py:279-314 | Inserts the row if and only if its (dispatch, sequence) key is new |
| `HarvestWorld.World.HistoryHas` | harvester/src/harvest_harvester/consumer.py:70-74 | Finds whether the jurisdiction's history has the key |
| `HarvestWorld.World.Hincrby` | core/src/harvest_core/fakes/kv.py:35-41 | Adds to the three fields, missing ones from zero, and returns the totals |
| `HarvestWorld.World.SetRunState` | core/src/harvest_core/fakes/datastore.py:375-378 | Sets the switch of one corpus, and nothing else |
| `HarvestWorld.World.LoseCounter` | core/src/harvest_core/fakes/kv.py:20-25 | Takes one counter away, and nothing else |
| `FanIn.Aggregate` | harvester/src/harvest_harvester/fanin.py:51-62 | An error if and only if every query failed and nothing was staged, then due 86400 seconds later; candidates if and only if there are any, else not found, due 86400 times the resweep days later |
| `FanIn.FinishDispatch` | harvester/src/harvest_harvester/fanin.py:48-66 | Finalizes exactly when the count is full and the row still carries the dispatch |
| `FanIn.Count` | harvester/src/harvest_harvester/fanin.py:39-47 | One increment, as protocol steps |
| `FanIn.RecordQueryDone` | harvester/src/harvest_harvester/fanin.py:25-66 | The counter's three fields move by this query; the target ends, with the result and due time of the aggregated counts in its own columns, if and only if the new count equals `query_count` and it still carries the dispatch; otherwise no target changes |
| `Sweeping.GateSweep` | harvester/src/harvest_harvester/consumer.py:63-75 | Lets a message through if and only if the switch of its corpus says running, the target carries its dispatch id, and no row of its jurisdiction has its dispatch and sequence; changes nothing |
| `Sweeping.WriteBack` | harvester/src/harvest_harvester/sweep.py:209-257 | A known key changes nothing; a new one adds one row, ERROR if and only if the query failed, else CANDIDATES if and only if it staged some, moves its counter, and ends the dispatch when the counter is full and the target still carries it |
| `Sweeping.RecordRow` | harvester/src/harvest_harvester/sweep.py:225-241 | The history insert as a protocol step |
| `SweepBatch.HandleBatch` | harvester/src/harvest_harvester/sweep.py:74-139 | A message stays in the queue if and only if it passes the gate and its search was rate limited or triage did not answer for it; triage is asked about every gated message with results; the new rows are exactly those of completed messages with a new key, each ERROR if and only if its search or extraction failed, else CANDIDATES if and only if it staged some, with as many candidates as it added artifacts; every counter moves by its new rows, their candidates and their errors |
| `SweepBatch.CompletedHaveRows` | harvester/src/harvest_harvester/sweep.py:194-257 | Completing items leaves a row for each, adds no row of any other message, and keeps earlier rows |
| `SweepBatch.CountersFollowRows` | harvester/src/harvest_harvester/sweep.py:242-256 | Each dispatch's counter moves by the number of its new rows, the sum of their candidates and the number of their errors |
| `SweepBatch.RowsOfItems` | harvester/src/harvest_harvester/sweep.py:213-242 | The new rows are exactly those of the completed messages that are the first of their query, each with its own failure flag, result and count |
| `SweepBatch.AddedIsAll` | harvester/src/harvest_harvester/sweep.py:199-212 | The candidates counted for the messages sum to the artifacts added, and a failed search adds none |
| `SweepBatch.Plan` | harvester/src/harvest_harvester/sweep.py:76-135 | Which messages are completed and which are turned away by the gate |
| `SweepBatch.GateAll` | harvester/src/harvest_harvester/sweep.py:76-94 | Gates every message once; the rest are deleted unworked |
| `SweepBatch.SearchAll` | harvester/src/harvest_harvester/sweep.py:96-110 | Rate-limited items are left out, failed searches become errored items |
| `SweepBatch.TriageAll` | harvester/src/harvest_harvester/sweep.py:112-134 | The triaged items are exactly those of the chunks whose call did not fail |
| `SweepBatch.CompleteOne` | harvester/src/harvest_harvester/sweep.py:194-257 | One item: its candidates are staged up to an exception if there is one; a new key gets a row with the number of artifacts added, ERROR if and only if search or extraction failed, else CANDIDATES if and only if that number is positive; counter and target follow |
| `SweepBatch.CompleteEach` | harvester/src/harvest_harvester/sweep.py:137-139 | All completed items in order |
| `Crawling.HandleOne` | harvester/src/harvest_harvester/code.py:62-161 | A stopped corpus or stale dispatch id deletes the message unworked; a transient failure keeps what was staged and leaves the message; otherwise one row: CANDIDATES if and only if artifacts were added, ERROR if and only if none were and the crawl was cut short or a portal failed; the target that still carries the dispatch is due in a day if the crawl was cut short, or a portal failed with nothing staged, else at the resweep |
| `Crawling.CrawlPortals` | harvester/src/harvest_harvester/code.py:93-120 | Visits the groups up to the first deadline or transient failure, adding up what they stage |
| `Crawling.VisitsStage` | harvester/src/harvest_harvester/code.py:93-120 | A crawl stages the candidates of the groups it visits, in order |
| `Crawling.VisitsFlag` | harvester/src/harvest_harvester/code.py:93-120 | It is incomplete if and only if a visited group was cut short, and has errors if and only if one failed |
| `Crawling.Conclude` | harvester/src/harvest_harvester/code.py:122-141 | Candidates if and only if something was staged; error if and only if nothing was and the crawl was cut short or a portal failed; due in a day if cut short, or failed with nothing staged, else at the resweep |
| `Crawling.WriteBack` | harvester/src/harvest_harvester/code.py:143-161 | First insert finalizes with the crawl's own result |
| `Crawling.GateCode` | harvester/src/harvest_harvester/consumer.py:78-82 | Switch and dispatch id only |
| `Dispatching.DispatchCycle` | orchestrator/src/harvest_orchestrator/dispatch.py:30-57 | Picks due rows by lowest priority, then due time, then id, leaving out none that precedes a picked one; each picked row ends stamped afresh with all its messages queued, parked as an error until the resweep, or untouched, as planned; every other row stays; returns how many were dispatched |
| `Dispatching.CycleFollowsPlans` | orchestrator/src/harvest_orchestrator/dispatch.py:59-136 | Each handled row is stamped afresh with all its messages queued, parked, or untouched, as planned; other rows stay; every new message carries its row's current stamp and query count |
| `Dispatching.SelectDue` | core/src/harvest_core/fakes/datastore.py:134-152 | Rows of the corpus that are due and unstamped for 1800 seconds (sweeps) or 7200 (crawls), by priority, then due time, then id; a row left out comes after all of a full batch |
| `Dispatching.AloneWins` | orchestrator/src/harvest_orchestrator/dispatch.py:81-86 | With no other orchestrator between select and stamp every compare-and-set wins |
| `Dispatching.StampAndSend` | orchestrator/src/harvest_orchestrator/dispatch.py:81-101 | Stamp, then one message per query; a lost compare-and-set sends nothing |
| `Dispatching.Stamp` | core/src/harvest_core/fakes/datastore.py:154-170 | The compare-and-set as a protocol step |
| `Dispatching.SendTasks` | orchestrator/src/harvest_orchestrator/dispatch.py:87-100 | Sends queries 0..n-1 |
| `Dispatching.ParkTarget` | core/src/harvest_core/fakes/datastore.py:190-200 | Clears the row until the resweep |
| `Dispatching.DispatchTarget` | orchestrator/src/harvest_orchestrator/dispatch.py:45-56 | One row by its plan |
| `KeyValues.KeyValue.TrySet` | core/src/harvest_core/fakes/kv.py:27-33 | Sets the key if and only if it is absent or its deadline has come; every other key keeps its value or is gone once its deadline came |
| `KeyValues.KeyValue.Increment` | core/src/harvest_core/fakes/kv.py:35-41 | Every named field of the live hash grows by its increment, missing ones from zero; the whole hash is returned, and other keys stay or expire |
| `KeyValues.KeyValue.Lookup` | core/src/harvest_core/fakes/kv.py:48-51 | The value while the deadline has not come, else nothing |
| `KeyValues.KeyValue.PurgeExpired` | core/src/harvest_core/fakes/kv.py:20-25 | Removes exactly the expired keys from all three maps |
| `KeyValues.KeyValue.SetExpiry` | core/src/harvest_core/fakes/kv.py:43-46 | Sets the deadline of a present key only |
| `KeyValues.KeyValue.Flush` | core/src/harvest_core/fakes/kv.py:64-69 | Loses every key |
| `KeyValues.SetOnce` | core/src/harvest_core/fakes/kv.py:27-33 | A key without expiry answers every later lookup and no later set replaces it |
| `KeyValues.CounterHoldsStreak` | harvester/src/harvest_harvester/fanin.py:39-47 | With a fresh expiry set after each increment, the count is the number of increments since the last gap of an expiry or more |
| `KeyValues.CounterCompletes` | harvester/src/harvest_harvester/fanin.py:39-49 | The last of n increments counts to n if and only if no two consecutive ones are an expiry apart |
| `TaskQueues.DeliveriesAreBounded` | core/src/harvest_core/fakes/queue.py:48-66 | In every run a message is delivered at most the limit, dead-lettered at most once and exactly after that many deliveries; deliveries of a message whose visibility nobody changed are a visibility timeout apart |
| `TaskQueues.DeletedStaysDeleted` | core/src/harvest_core/fakes/queue.py:48-73 | A deleted or dead-lettered message is never delivered again |
| `TaskQueues.TaskQueue.Receive` | core/src/harvest_core/fakes/queue.py:48-66 | Visits messages in order until enough are out: a deleted or hidden one is skipped, one delivered as often as allowed is dead-lettered, any other is handed out, counted and hidden for the visibility timeout; messages not visited stay |
| `TaskQueues.TaskQueue.Remove` | core/src/harvest_core/fakes/queue.py:68-73 | Marks the message deleted |
| `TaskQueues.TaskQueue.Extend` | core/src/harvest_core/fakes/queue.py:75-81 | Moves the deadline of an undeleted message |
| `TaskQueues.TaskQueue.Add` | core/src/harvest_core/fakes/queue.py:42-46 | Appends a visible message |
| `FetchTheorems.AttemptsAreBounded` | harvester/src/harvest_harvester/fetch.py:182-193 | Pending rows have fewer than 3 attempts and no digest; failed rows have used them all |
| `FetchTheorems.FetchedOnce` | harvester/src/harvest_harvester/fetch.py:143-158 | In a corpus no two fetched rows have the same digest and no two rows the same URL, after any crashes and key losses |
| `FetchTheorems.NothingIsSkippedForNothing` | harvester/src/harvest_harvester/fetch.py:146-158 | Every duplicate row and every doc key has a fetched row of its corpus with that digest |
| `FetchTheorems.FetchedObjectHasPrefix` | harvester/src/harvest_harvester/fetch.py:160-180 | A fetched row's path always holds bytes with the row's eight-character digest prefix |
| `FetchTheorems.FetchedObjectHoldsItsBytes` | harvester/src/harvest_harvester/fetch.py:160-180 | It holds the row's own bytes unless two digests ever served share that prefix |
| `FetchTheorems.CollidingDigestsShareAnObject` | core/src/harvest_core/storage.py:49-53 | For any two digests with one prefix, a run in which the first row's path ends with the second's bytes |
| `FetchTheorems.RowsMoveAsAllowed` | core/src/harvest_core/domain.py:37-58 | A step moves a row only along the transition table, by one attempt, or in its stamp; only pending rows are deleted |
| `FetchTheorems.TerminalRowsStay` | core/src/harvest_core/domain.py:37-58 | A row out of pending keeps everything but its stamp for the rest of the run |
| `FetchOverlap.WhenACommitFetchesTwice` | harvester/src/harvest_harvester/fetch.py:143-180 | With no assumption on overlaps: a handler whose duplicate check missed, committing any number of steps later, makes a second fetched row for its bytes if and only if its own row is still there and some other row of the corpus was last written, since the check, by a handler that stored the same bytes |
| `FetchOverlap.RunWrites` | core/src/harvest_core/fakes/datastore.py:232-239 | After any run a row is fetched with a digest if and only if the last handler to write it stored that digest, or none wrote it and it held the digest before |
| `FetchTheorems.OverlapFetchesTwice` | core/src/harvest_core/fakes/datastore.py:232-235 | For any digest, a run in which overlapping handlers of one corpus fetch the same bytes twice |
| `FetchSafety.StepKeepsInv` | harvester/src/harvest_harvester/fetch.py:97-193 | Every effect, crash, key loss and re-stamping keeps the artifact invariant |
| `FetchSafety.RunKeepsInv` | harvester/src/harvest_harvester/fetch.py:97-193 | Every run without overlapping handlers of one corpus keeps it |
| `Fetching.HandleOne` | harvester/src/harvest_harvester/fetch.py:97-180 | A stopped corpus, a row not pending or a superseded dispatch changes nothing; an unresolved host and the statuses 400, 401, 403, 404 and 410 remove the row; any other failure counts an attempt, the third one failing the row; unknown bytes end it; known bytes make it a duplicate and set the key; new bytes are stored under corpus, jurisdiction, digest prefix and name, then row, then key |
| `Fetching.FindDuplicate` | harvester/src/harvest_harvester/fetch.py:143-152 | Duplicate if and only if the key or another row of the corpus has the digest; the key is healed |
| `Fetching.StoreDocument` | harvester/src/harvest_harvester/fetch.py:160-180 | Object, then row, then key |
| `Fetching.RecordAttempt` | harvester/src/harvest_harvester/fetch.py:182-193 | The third attempt fails the row, earlier ones clear its stamp |
| `Fetching.SupersededStaysOut` | harvester/src/harvest_harvester/consumer.py:85-94 | A task the gate turns away for its row never passes later in any run in which the row is not stamped with its dispatch id again |
| `Fetching.OneDispatchPasses` | harvester/src/harvest_harvester/consumer.py:85-94 | Of two tasks for one artifact, when one passes the gate the other passes if and only if it carries the same dispatch id |
| `Fetching.GateFetch` | harvester/src/harvest_harvester/consumer.py:85-94 | Running corpus, pending row, this very dispatch id |
| `Fetching.DeleteArtifact` | core/src/harvest_core/fakes/datastore.py:237-239 | A dead link leaves no row |
| `Fetching.MarkNotDocument` | harvester/src/harvest_harvester/fetch.py:135-141 | Bytes of no known type end the row |
| `Fetching.MarkDuplicate` | harvester/src/harvest_harvester/fetch.py:153-158 | The duplicate keeps its digest |
| `Fetching.HealKey` | harvester/src/harvest_harvester/fetch.py:150-152 | The lost key comes back |
| `ArtifactStore.InvariantIsClosed` | harvester/src/harvest_harvester/fetch.py:97-193 | The artifact invariant is a set of states no step leaves, so every sequence of staging, reconciling and fetching calls keeps it |
| `ArtifactStore.Store.constructor` | core/src/harvest_core/fakes/datastore.py:29-40 | The object starts empty, in the protocol's initial state |
| `ArtifactStore.Store.InsertArtifact` | core/src/harvest_core/fakes/datastore.py:202-225 | Refuses a second row for a corpus and URL prefix, otherwise adds one under a new id |
| `ArtifactStore.Store.StampArtifact` | core/src/harvest_core/fakes/datastore.py:269-276 | Overwrites the stamp of an existing row |
| `ArtifactStore.Store.UpdateArtifact` | core/src/harvest_core/fakes/datastore.py:232-235 | Overwrites the row if it is still there |
| `ArtifactStore.Store.CorpusHasSha256` | core/src/harvest_core/fakes/datastore.py:241-248 | Whether another row of the corpus has the digest |
| `ArtifactStore.Store.LoseKeys` | core/src/harvest_core/fakes/kv.py:64-69 | Takes any keys away, and nothing else |
| `ArtifactStore.StageCandidate` | harvester/src/harvest_harvester/staging.py:39-85 | A URL whose key is set, or whose first 600 characters the corpus has a row for, is refused; any other gets a pending row, its key, a stamp and its message |
| `ArtifactStore.StageAll` | harvester/src/harvest_harvester/code.py:163-178 | Stages each candidate and counts the new ones |
| `Staging.CacheAgreesWithTable` | harvester/src/harvest_harvester/staging.py:55-85 | While no row is deleted, every run with the cache, under any interleaving, crashes and lost keys, is a run without it: same artifacts, published messages and answers |
| `Staging.TableAgreesWithCache` | harvester/src/harvest_harvester/staging.py:55-85 | Conversely every run without the cache is a run with it whose keys were lost |
| `Staging.SkipsWereInserted` | harvester/src/harvest_harvester/staging.py:55-72 | At most one row per corpus and URL prefix; every key, so every cached skip, names a prefix inserted before, deletions included |
| `Staging.WhenASkipIsWrong` | harvester/src/harvest_harvester/staging.py:55-72 | Cache and table answer a call differently if and only if its key is there and its row is not |
| `Staging.KeyStaysUntilLost` | harvester/src/harvest_harvester/fetch.py:111-114 | So a URL whose row was deleted is not staged again until its key is lost |
| `Staging.DeadLinkIsNotStagedAgain` | harvester/src/harvest_harvester/fetch.py:111-114 | For any URL, a run in which its row is deleted as a dead link and the next call skips it |
| `Staging.AloneIsStageOne` | harvester/src/harvest_harvester/staging.py:55-85 | An undisturbed call is the sequential staging function |
| `Staging.StagedIsAdded` | harvester/src/harvest_harvester/staging.py:55-85 | The number returned is the number of rows added and of messages published |
| `Reconciling.PassesCover` | orchestrator/src/harvest_orchestrator/reconcile.py:22-47 | For N stale artifacts and cap C, k passes within the timeout stamp exactly the first min(N, kC), in id order, none twice |
| `Reconciling.OthersUntouched` | orchestrator/src/harvest_orchestrator/reconcile.py:22-47 | Rows not chosen keep their stamp |
| `Reconciling.LeftOver` | core/src/harvest_core/fakes/datastore.py:250-267 | Before pass j the stale list is what the first j passes left over |
| `Reconciling.ReconcileFetch` | orchestrator/src/harvest_orchestrator/reconcile.py:22-47 | Stamps the lowest ids of pending artifacts without a stamp from the last 1800 seconds, up to the limit, and publishes one message with the new stamp for exactly those whose send does not fail |
| `Reconciling.SelectPendingStale` | core/src/harvest_core/fakes/datastore.py:250-267 | The lowest stale ids, up to the limit |
| `Reconciling.TakenAreLowest` | core/src/harvest_core/fakes/datastore.py:250-267 | What is selected are the lowest ids of rows without a stamp from the last 1800 seconds |
| `Reconciling.StaleIdsAre` | core/src/harvest_core/fakes/datastore.py:250-267 | Exactly the stale ids, ascending |
| `RecordsTheorems.MailReactsOnce` | records/src/public_records/receiver.py:40-82 | With any number of receivers, crashes and redeliveries: one inbound row per campaign and message id, and each row causes each effect at most once |
| `RecordsTheorems.LedgerIsSound` | records/src/public_records/fees.py:35-84 | Every entry was booked for the largest amount in a payment demand of its thread and campaign, and no demand twice |
| `RecordsTheorems.BudgetHolds` | records/src/public_records/fakes/store.py:559-587 | What a campaign committed never exceeds its budget |
| `RecordsTheorems.AgreementJobsAreBooked` | records/src/public_records/fees.py:58-84 | Every agreement ever queued has an entry of its thread and amount |
| `RecordsTheorems.AgreementsMatchEntries` | records/src/public_records/sender.py:241-306 | Agreement emails map one to one to ledger entries of their own thread |
| `RecordsTheorems.AgreementAnswersAnEntry` | records/src/public_records/sender.py:241-306 | Every agreement email answers a ledger entry of its own thread |
| `RecordsTheorems.FollowUpsAreBounded` | records/src/public_records/fakes/store.py:454-495 | A thread's follow-up rows equal its counter and never exceed the campaign's limit |
| `RecordsTheorems.JobsDoNotRunAhead` | records/src/public_records/orchestrator.py:268-296 | Every queued follow-up index is at most its thread's counter |
| `RecordsTheorems.OneReplyPerKind` | records/src/public_records/sender.py:251-262 | An inbound mail is answered at most once per kind, whatever the thread |
| `RecordsTheorems.DailyCapHolds` | records/src/public_records/sender.py:107-112 | The initial requests of a campaign on a UTC day never exceed its cap |
| `RecordsTheorems.CooldownHolds` | records/src/public_records/sender.py:114-118 | A non-bypass initial request comes at least its campaign's cooldown after every earlier real request to the same office, across campaigns |
| `RecordsTheorems.WhenARescheduleMovesAThread` | records/src/public_records/orchestrator.py:287-295 | A scan's reschedule changes a status if and only if the thread went one state back while the scan held it |
| `RecordsTheorems.StepKeepsInv` | records/src/public_records/receiver.py:40-148 | Every step of every handler, scan, human and fault keeps the invariant |
| `RecordsTheorems.ReachableInv` | records/src/public_records/receiver.py:40-148 | The invariant holds in every reachable state |
| `RecordsLifecycle.StepMovesAutomatically` | records/src/public_records/domain.py:49-81 | Every step but a human resolution moves threads only along the transition table |
| `RecordsLifecycle.FinalStays` | records/src/public_records/domain.py:46-71 | Without a human, fulfilled, referred, parked and failed threads never move again and no thread becomes failed |
| `RecordsLifecycle.DueImpliesWaiting` | records/src/public_records/fakes/store.py:260-272 | A thread has a next action time only in REQUEST_SENT or AWAITING_REPLY, human resolutions included |
| `RecordsTables.MovesAreThese` | records/src/public_records/domain.py:46-71 | The allowed moves as a table of status pairs |
| `RecordsTables.MidnightStartsTheDay` | records/src/public_records/sender.py:107-112 | The cap counts from the last multiple of 86400 seconds |
| `RecordsTables.CountOfParts` | records/src/public_records/fakes/store.py:102-111 | The count of outbound rows is additive over any split of the log |
| `RecordsTables.CountOfOne` | records/src/public_records/fakes/store.py:102-111 | One row counts if and only if it is an outbound row of the campaign from that time on |
| `RecordsTables.CommittedOfParts` | records/src/public_records/fakes/store.py:583-587 | So is the committed total of the ledger |
| `RecordsTables.CommittedOfOne` | records/src/public_records/fakes/store.py:583-587 | One entry commits its amount for its own campaign only |
| `RecordsMail.StepKeepsMail` | records/src/public_records/receiver.py:40-82 | Unique inbound rows, one handler per row, effects at most once |
| `RecordsAnswers.StepKeepsAnswers` | records/src/public_records/receiver.py:130-141 | Every reply, queued or sent, stays on the thread of the mail it answers |
| `RecordsMoney.StepKeepsMoney` | records/src/public_records/fees.py:58-84 | Ledger entries, budget, queued and sent agreements stay consistent |
| `RecordsFollowups.StepKeepsFollow` | records/src/public_records/sender.py:193-238 | Counter, rows, queued indices and replies stay consistent |
| `RecordsSends.StepKeepsSends` | records/src/public_records/sender.py:103-170 | Caps, office stamps and cooldowns stay consistent |
| `RecordsSends.CountCoversDay` | records/src/public_records/fakes/store.py:102-111 | The count since UTC midnight covers the initial requests of the day |
| `RecordsRematch.WhenADeliveryAddsARow` | records/src/public_records/receiver.py:46-78 | In every reachable state a receiver about to log adds a row if and only if the campaign it matched, or none, has no row of the message id |
| `RecordsRematch.TokenMailIsLoggedOnce` | records/src/public_records/receiver.py:30-46 | A mail whose token names a thread when it first arrives is logged at most once overall, on that thread |
| `RecordsRematch.SenderMailIsLoggedOnce` | records/src/public_records/receiver.py:30-46 | So is one whose sender always has a waiting thread, all of them in one campaign, while its token names no thread elsewhere |
| `RecordsRematch.UnnamedMailIsLoggedTwice` | records/src/public_records/receiver.py:30-46 | For any mail from the sender whose token names no thread, a run in which it is delivered twice, logged in two campaigns, and fulfils a thread of each |
| `RecordsWorld.WorldIsSafe` | records/src/public_records/fakes/store.py:36-56 | After any sequence of handler calls, clock advances and campaign starts and stops, the object satisfies the invariant every run of the protocol keeps |
| `RecordsWorld.World.constructor` | records/src/public_records/fakes/store.py:37-55 | Registered campaigns, none active, every table and queue empty and no handler at work |
| `RecordsWorld.World.SetActive` | records/src/public_records/ops.py:22-29 | Starts or stops a campaign, and nothing else |
| `RecordsWorld.World.SetThreadStatus` | records/src/public_records/fakes/store.py:260-272 | Sets status and due time if and only if the transition check allows it or a human asks |
| `RecordsWorld.World.GetThreadByToken` | records/src/public_records/fakes/store.py:230-235 | The first thread with the token |
| `RecordsWorld.World.FindOpenThreadByContact` | records/src/public_records/fakes/store.py:250-258 | The first waiting thread to the address |
| `RecordsWorld.World.FindThread` | records/src/public_records/fakes/store.py:237-248 | The first thread of campaign, office and address |
| `RecordsWorld.World.HasMessageId` | records/src/public_records/fakes/store.py:295-300 | Whether the campaign has the message id |
| `RecordsWorld.World.OutboundReplyExists` | records/src/public_records/fakes/store.py:363-373 | Whether the mail was answered in this kind |
| `RecordsWorld.World.CountOutboundSince` | records/src/public_records/fakes/store.py:102-111 | The campaign's outbound rows since a time |
| `RecordsWorld.World.CommittedTotalCents` | records/src/public_records/fakes/store.py:583-587 | The campaign's committed total |
| `RecordsWorld.World.BookFee` | records/src/public_records/fakes/store.py:559-581 | Adds the entry if and only if it fits the budget |
| `RecordsWorld.World.InsertInbound` | records/src/public_records/fakes/store.py:302-343 | Adds the row if and only if the campaign lacks the message id |
| `Receiving.HandleInbound` | records/src/public_records/receiver.py:40-82 | The thread of the mail's token, else the first waiting thread of its sender; nothing when its campaign has the message id or it cannot be classified; otherwise one row, and on a thread the status, due time, ledger entry, job and referral contact its category calls for; done if and only if logged before, unmatched, or the status change was allowed |
| `Receiving.FinishedMailIsLogged` | records/src/public_records/receiver.py:46-78 | A delivery that says done leaves the mail logged in the campaign it matched |
| `Receiving.React` | records/src/public_records/receiver.py:85-148 | Exactly the ledger entry, job, referral contact and status each category calls for, and whether the status change was refused |
| `Receiving.MatchThread` | records/src/public_records/receiver.py:30-37 | Token first, else the first open thread of the sender |
| `Receiving.HandlePaymentRequired` | records/src/public_records/fees.py:35-84 | Books, queues the agreement and waits if and only if an amount parses, a budget exists and it fits; otherwise parks the thread |
| `Receiving.Book` | records/src/public_records/fees.py:38-66 | Parse, check, book |
| `Receiving.Dedupe` | records/src/public_records/receiver.py:47-48 | Drops a message its campaign already has |
| `Receiving.Log` | records/src/public_records/receiver.py:50-78 | The row is written before any reaction |
| `Receiving.SettleThread` | records/src/public_records/world.py:92-94 | Status with the next follow-up time when the thread waits |
| `Receiving.EscalateThread` | records/src/public_records/world.py:66-89 | Parks the thread unless it is already closed |
| `Receiving.SendJob` | records/src/public_records/fees.py:72-80 | Queues the reaction's job |
| `Receiving.FileAttachments` | records/src/public_records/receiver.py:94-111 | Fulfilled by data or a newly stored attachment, else waiting |
| `Sending.HandleContact` | records/src/public_records/sender.py:83-170 | An unknown or stopped campaign or a thread not pending drops the message; a full day or a cooling office keeps it; the anonymous guard hands the thread to a human; otherwise it is sent, with thread, email and office stamp together, unless sending fails or its new token is taken |
| `Sending.PassGates` | records/src/public_records/sender.py:84-118 | Activity, existing thread, daily cap, cooldown: drop, later or go |
| `Sending.CapAndCooldown` | records/src/public_records/sender.py:107-118 | Cap, then cooldown |
| `Sending.RecordInitialSend` | records/src/public_records/fakes/store.py:388-452 | Thread, email and office stamp together, or nothing on an illegal move or a taken token |
| `Sending.Refuse` | records/src/public_records/sender.py:120-132 | The anonymous guard parks an existing thread |
| `Sending.HandleFollowupJob` | records/src/public_records/sender.py:177-306 | Sends a job whose thread waits and whose index or answer is still open, with the row, status, due time and counter it leaves; keeps it for later when sending fails; drops it otherwise |
| `Sending.Check` | records/src/public_records/sender.py:177-258 | Due if and only if the thread waits and the job's index or answer is still open |
| `Sending.RecordThreadSend` | records/src/public_records/fakes/store.py:454-495 | Row, status, due time and counter together |
| `Sending.SentJobIsNotDue` | records/src/public_records/sender.py:197-258 | The same job delivered again finds nothing left to do |
| `RecordsApprovals.WhenAScanDropsAnApproval` | records/src/public_records/orchestrator.py:268-296 | In every reachable state a scan step makes the sender drop an approved request if and only if it acts on that thread with a snapshot at the follow-up limit, or reschedules it from a snapshot in REQUEST_SENT |
| `RecordsApprovals.StaleScanSwallowsApproval` | records/src/public_records/orchestrator.py:287-295 | A run in which the reschedule marks a thread as sent after a human put it back to pending, and the approved request is dropped |
| `FollowupScan.ScanPass` | records/src/public_records/orchestrator.py:268-296 | Handles exactly the first due threads by due time and id: out of follow-ups a human takes over, otherwise one follow-up is queued and the thread is due `interval_days` days from now; nothing else changes |
| `FollowupScan.SelectDueFollowups` | records/src/public_records/fakes/store.py:274-284 | The due threads by due time and id, cut at the limit |
| `FollowupScan.ScanOne` | records/src/public_records/orchestrator.py:272-295 | One due thread |
| `FollowupScan.ResolveEscalation` | records/src/public_records/ops.py:32-61 | Any status by hand; back to pending also approves a bypassing request |
| `TriageBatching.TriageChunks` | harvester/src/harvest_harvester/sweep.py:141-155 | Chunks concatenate to the input, any chunk of two or more fits the cap, and no other valid contiguous split is shorter |
| `TriageBatching.GreedyIsShortest` | harvester/src/harvest_harvester/sweep.py:141-155 | Greedy splitting uses the fewest chunks of all valid splits |
| `TriageBatching.GreedyStaysAhead` | harvester/src/harvest_harvester/sweep.py:141-155 | Its first k chunks hold at least as many items as any valid split's |
| `TriageBatching.SizeConcat` | harvester/src/harvest_harvester/sweep.py:146-152 | The size of a chunk is additive over its parts |
| `TriageBatching.SizeOfOne` | harvester/src/harvest_harvester/sweep.py:146-152 | One item weighs as much as it has results |
| `TriageBatching.Triage` | core/src/harvest_core/adapters/llm.py:106-149 | Results are numbered 0, 1, 2 and on across the requests; the call succeeds if and only if the answer covers exactly those numbers, and each result's verdict is then the last one given for its number |
| `TriageBatching.Regroup` | core/src/harvest_core/adapters/llm.py:130-149 | Verdicts are handed back by running index |
| `TriageBatching.ByIndexIsLast` | core/src/harvest_core/adapters/llm.py:130-134 | A number has a verdict if and only if the answer carries it, and the last one counts |
| `TriageBatching.NumberedIsConsecutive` | core/src/harvest_core/adapters/llm.py:107-122 | The numbers of the prompt run through 0, 1, 2 and on, across the requests |
| `HostThrottle.GrantsAreSpaced` | harvester/src/harvest_harvester/fetch.py:55-65 | Over any interleaving, two grants to one host are at least the spacing apart |
| `HostThrottle.WindowBound` | harvester/src/harvest_harvester/fetch.py:55-65 | Any window of length w holds at most floor(w / spacing) + 1 grants to one host |
| `HostThrottle.Throttle.Wait` | harvester/src/harvest_harvester/fetch.py:55-65 | The wait loop ends for a lone caller whose sleep advances the clock, not before the host is allowed, and books the next slot; its passes are looks and ticks of the step system, so the two bounds above cover it |
| `HostThrottle.RunKeepsInv` | harvester/src/harvest_harvester/fetch.py:46-65 | The next-allowed map stays ahead of every grant |
| `Amounts.ParseLargestAmountCents` | records/src/public_records/fees.py:21-32 | The maximum over all greedy matches of the expression in the text with at most six dollar digits, one digit of cents counting tens; none if there is none; below 10^8 |
| `Amounts.MatchIsGreedy` | records/src/public_records/fees.py:18 | The scan finds a match wherever the expression has one, and the greedy one |
| `Amounts.MatchIsMatch` | records/src/public_records/fees.py:18 | What the scan finds is a match of the expression |
| `Amounts.LargestIsSmall` | records/src/public_records/fees.py:21-32 | Every parsed amount is below 10^8 cents |
| `Amounts.FoldIsLargest` | records/src/public_records/fees.py:23-32 | The fold over the matches is their maximum |
| `Amounts.LargestInText` | records/src/public_records/fees.py:21-32 | The fold is the maximum over the greedy matches of the expression anywhere in the text |
| `Amounts.MatchesAre` | records/src/public_records/fees.py:18-23 | Resuming each search where the last match ended loses no match: those found are the greedy ones at every dollar sign |
| `SeveralAmounts.LargestOfParts` | records/src/public_records/fees.py:21-32 | Any text cut at any of its dollar signs: the largest amount is the larger of the two parts' |
| `SeveralAmounts.TwoAmounts` | records/src/public_records/fees.py:21-32 | Of two printed amounts, whatever stands around them, the larger one is read |
| `SeveralAmounts.OneDigitOfCents` | records/src/public_records/fees.py:18-32 | One digit of cents counts tens |
| `SeveralAmounts.OneCharBetween` | records/src/public_records/fees.py:18 | A character between dollar sign and digits is skipped if and only if it is white space |
| `PrintedAmounts.PlainRoundTrip` | records/src/public_records/fees.py:18-32 | Printing dollars with two decimals and reading back gives the amount if and only if it is below 10^8 cents |
| `PrintedAmounts.CommasRoundTrip` | records/src/public_records/fees.py:18-32 | The same with thousands commas |
| `PrintedAmounts.MillionsWithCommasReadAsATenth` | records/src/public_records/fees.py:18-32 | Any amount of one to ten million dollars with commas reads back as a tenth of its dollars |
| `StorageKeys.DocumentKeyParts` | records/src/public_records/domain.py:322-328 | The digest prefix parses back out of any document key, and the slugs with it |
| `StorageKeys.KeyParts` | core/src/harvest_core/storage.py:49-53 | The same for any object key |
| `StorageKeys.SameKeySamePrefix` | core/src/harvest_core/storage.py:49-53 | Objects at one key share their digest prefix |
| `StorageKeys.SlugChars` | core/src/harvest_core/storage.py:17-19 | Slugs are short and of slug characters |
| `StorageKeys.FilenameChars` | records/src/public_records/domain.py:317-319 | Sanitized names are non-empty and of safe characters |
| `SlugLaws.SlugIsCut` | core/src/harvest_core/storage.py:17-19 | A slug is the joined words of the name, cut at 60 characters |
| `SlugLaws.WordThenMore` | core/src/harvest_core/storage.py:17-19 | A word, a gap and the rest of a name become the word, one dash and the slug of the rest |
| `SlugLaws.LoneWord` | core/src/harvest_core/storage.py:17-19 | A lone word is its own slug, whatever surrounds it that is no word |
| `SlugLaws.GapFirst` | core/src/harvest_core/storage.py:17-19 | What stands before the first word leaves no trace |
| `SlugLaws.NoWord` | core/src/harvest_core/storage.py:17-19 | A name without a word has an empty slug |
| `SlugLaws.SafeNameStays` | records/src/public_records/domain.py:317-319 | A clean file name stays as it is |
| `SlugLaws.GapInName` | records/src/public_records/domain.py:317-319 | A gap inside a file name becomes one underscore |
| `SlugLaws.NothingSafe` | records/src/public_records/domain.py:317-319 | A file name with nothing safe in it becomes `attachment` |
| `DedupeIndex.RebuildKeepsVerdicts` | records/src/public_records/attachments.py:114-128 | After a full cache loss the rebuilt index gives every later batch of the campaign the same stored, duplicate or rejected verdicts |
| `DedupeIndex.RebuildIsExact` | records/src/public_records/attachments.py:114-128 | The rebuilt index has exactly the digests of the stored documents |
| `DedupeIndex.StoreKeepsExact` | records/src/public_records/attachments.py:40-105 | Storing keeps the index exact |
| `DedupeIndex.WhenAVerdictSurvives` | records/src/public_records/attachments.py:114-128 | In any vault, the verdict on a digest is the same after loss and rebuild if and only if the lost index had claimed it exactly when a listed document outside the spool carries it |
| `DedupeIndex.SpoolNamedJurisdictionIsForgotten` | records/src/public_records/attachments.py:120-122 | Documents of a jurisdiction named like the spool are forgotten |
| `DedupeIndex.EntryNameInjective` | records/src/public_records/attachments.py:28-29 | Index entries of different campaigns or digests have different names |
| `DedupeIndex.DigestOfKey` | records/src/public_records/attachments.py:114-128 | Any key of three parts gives its digest prefix to the rebuild if and only if its first part is the campaign slug, its second not the spool directory, and the prefix eight characters long |
| `DedupeIndex.AttachmentStore.StoreAttachment` | records/src/public_records/attachments.py:40-105 | One attachment: refused, a duplicate of the object its campaign and prefix are filed under, which is uploaded again if missing, or stored under a key of campaign, jurisdiction, prefix and name with a new entry |
| `DedupeIndex.AttachmentStore.StoreAttachments` | records/src/public_records/attachments.py:40-105 | References, stored count, index and objects after the loop are those of storing each attachment in turn |
| `DedupeIndex.AttachmentStore.RebuildDedupe` | records/src/public_records/attachments.py:114-128 | The index after the loop is the rebuilt one, and the number returned its new entries |

## Left out

- SweepBatch.HandleBatch: the clock stands still within a batch, and the store and queue calls of the write-back do not raise; the step system covers a worker that stops anywhere.
- SweepBatch.CompleteOne: an extraction that raises keeps what it staged before; what the raising call itself left half done is covered by the steps of `Staging`, not here.
- Crawling.HandleOne: the grouping of portal URLs by publisher and the heartbeat's visibility extensions are not modelled; the deadline is an outcome of a group.
- Dispatching.DispatchCycle: a send that raises is covered by the step system (a stamped row left behind), not by this method.
- Fetching.HandleOne: throttling and type sniffing are separate or arbitrary; text extraction and the descriptive columns of an artifact are left out.
- HarvestWorld.World.Hincrby: counters have the three fan-in fields; expiry is a step of its own in the protocol, and exact in `KeyValues`.
- KeyValues.KeyValue.Increment: a string and a hash under one key are not told apart, as in the fake store.
- Receiving.HandleInbound: attachments are an outcome (something new was stored or not); `DedupeIndex` models storing them.
- Sending.HandleContact: drafting, delivery and the anonymous-state guard are outcomes; subjects, bodies and signatures are not modelled.
- FollowupScan.ResolveEscalation: escalation rows, their lookup and their notification digest are not modelled, only what they do to threads.
- Receiving.EscalateThread: nor is the escalation row it writes; the same holds for `Sending.Refuse`, `Receiving.HandlePaymentRequired` and `FollowupScan.ScanOne`.
- Receiving.FileAttachments: storing the attachments and their references is reduced to whether anything was new.
- Sending.PassGates: consent and activity are one flag.
- RecordsTheorems.BudgetHolds: the budget is an integer number of cents; its conversion from a float is not modelled.
- The text of an email counts only as far as amounts are read from it.
- Adapters for SQL, S3, Redis, SQS, HTTP, email and language models: foreign calls.
- Portal spiders, link extraction, type sniffing, text extraction and MIME parsing: library-driven parsing.
- Seeding, contact search and mail polling: contact messages and mails may arrive at any time instead.
- Purge and kill: they race with handlers in flight and break the cache invariants.
- Exactly-once delivery of physical emails: the code accepts a second send after a crash between delivery and commit; the properties are about rows.
- A booked fee need not get its agreement email (a crash between booking and queueing drops it), and a target whose generation keeps failing is retried but never swept: neither is promised.
- Configuration validation, message serialization, health checks, logging and the command line.
