# Verified model of the worker's durable transaction workflow

Several worker processes share one Postgres schema: transaction outbox rows, nonce cursors, executor
jobs, DVN jobs, packets, a ledger of failing transaction hashes, and pause flags on chains and
pathways. Every store call is one transaction. This project models those tables as one value, `Db`,
each store call as a function from `Db` to `Db` and a reply, and each worker schedule as a `Run`: any
finite sequence of committed calls with any arguments, so crashes, replays and all interleavings are
runs. The class `StoreModule.Store` performs the calls in place, step by step, and every method is
proved to commit exactly what its function says. For each call a lemma says, on
the stored fields alone, exactly when it goes ahead and what it leaves. The main results are statements about
all runs.

| file | content |
|---|---|
| `Tables.dfy`, `SendScope.dfy` | tables, requests, pause gates |
| `Outbox.dfy`, `Receipts.dfy`, `Jobs.dfy`, `ConfigSync.dfy` | the committed effect of each store call |
| `Store.dfy` | the store as an object that updates its tables in place |
| `Runs.dfy` | steps, runs, and which tables a step can touch |
| `OutboxEffects.dfy`, `JobEffects.dfy` | what any step can do to a row or to a job; all run properties build on these |
| `Lineage.dfy`, `Nonces.dfy`, `Pinned.dfy`, `Leases.dfy`, `Verdicts.dfy`, `Retries.dfy`, `Enqueues.dfy` | transactions over all runs: lineages, nonces, signing leases, receipts, retries, where rows come from |
| `Workflow.dfy`, `Budget.dfy`, `PauseSafety.dfy`, `ReorgGate.dfy`, `VerifyClaims.dfy`, `Records.dfy` | jobs, packets and gates over all runs |
| `Deliverers.dfy` | deliverers that look first and enqueue later, and how far they can overrun the budget |
| `Locks.dfy`, `LockCover.dfy`, `Deadlock.dfy` | lock programs of the transactions; that they cover every write and every gate; a lock manager and its freedom from deadlock |
| `Fees.dfy` | fee aggregation |
| `UiLock.dfy` | stdout redirection behind a promise chain |
| `ConfigGraph.dfy`, `PricingTiming.dfy`, `Uln.dfy`, `ConfigDiff.dfy`, `Sorting.dfy` | config validation, ULN comparison, config diff |

Three documented expectations do not hold of the code as it is. For each, the model keeps the code, shows
where it fails, and says when it holds or what holds instead:

- The retry budget is said to cap lzReceive deliveries whichever driver acts. The deliverer compares the
  budget with a retry count it read earlier (`go/internal/executor/executor.go:412`), and the enqueue
  compares only the status, so one more re-send can commit after the other driver used the budget up
  (`Budget.StaleDelivererExceedsCap`). The cap holds exactly when every deliverer enqueue commits at a
  retry count below the cap (`Budget.CapIffFresh`), and it is overrun by at most one re-send per worker
  process (`Deliverers.OverrunBoundedByWorkers`).
- A DVN job past the confirmation gate should have passed it for the stored source block. The depth check
  uses an earlier read and the mark compares only the status (`go/internal/dvn/dvn.go:223-237`), so a mark can
  commit on a block that was not checked (`ReorgGate.SplitGateReadSkipsGate`); and re-indexing a packet rewrites
  its block without looking at the job (`ReorgGate.ReindexingCanSkipGate`). The property holds exactly when
  neither happens (`ReorgGate.GateHoldsIff`).
- The lock order advisory, outbox and job rows, chains, pathway is stated for the whole code base. Resolving
  an external nonce by retry locks the job after the pathway, and nonce reconciliation locks outbox rows
  after the cursor (`Locks.ProgramsAscend`). Neither leads to a deadlock (`Deadlock.NeverDeadlocks`):
  reconciliations of a lane share its advisory key with every claim of that lane, and a retry waits for a job
  whose holders want nothing that the retry has not merely shared. The one exception would be a park of
  the same DVN job (`Deadlock.SharedParkWouldDeadlock`), and it needs a park from VERIFY_TX_ENQUEUED
  (`VerifyClaims.ParkOfVerifyingJobWouldMatch`). No caller makes one: workers park from ASSIGNED,
  WAITING_CONFIRMATIONS (`go/internal/dvn/dvn.go:200`) or READY_TO_VERIFY (`go/internal/dvn/dvn.go:366`), and
  once a packet has a verification transaction such a park matches no row
  (`VerifyClaims.ParkRefusedOnceVerifying`) and stops before it asks for the pathway. Deadlock freedom also
  uses that a shared row lock is granted past a waiting writer, as Postgres does.

## Model

| member | source | states |
|---|---|---|
| `SendScope.SelectorAgreesWithGate` | go/internal/db/send_scope.go:70-206 | for a row without a nonce the selector's filter and the locking gate give the same answer, given that packets reference stored chains |
| `SendScope.ActiveIffNothingShut` | go/internal/db/send_scope.go:73-206 | the gate is active iff the request names what it spends for and none of the chains and the pathway in front of it is missing, disabled or paused; malformed iff it does not name it |
| `StoreModule.AutoRetryDelay` | go/internal/db/outbox.go:1225-1237 | the loop returns one minute doubled per attempt, capped at thirty minutes, for every attempt count |
| `StoreModule.Store.EnqueueTx` | go/internal/db/outbox.go:136-179 | a complete request behind an active scope adds one queued row under a new id; anything else changes nothing and returns its error |
| `StoreModule.Store.PeekSendableTx` | go/internal/db/outbox.go:181-262 | the row returned is sendable and no sendable row precedes it in the selection order; none is returned only when none is sendable |
| `StoreModule.Store.LocalNextNonce` | go/internal/db/outbox.go:927-946 | the result is one past the largest recorded nonce of the lane, or zero; past the column's limit it is an overflow error |
| `StoreModule.Store.BootstrapTxNonceCursor` | go/internal/db/outbox.go:264-306 | the first call sets the cursor to the larger of the RPC nonce and the local next nonce; an existing cursor is never changed (meaning: `Nonces.BootstrapStartsAt`) |
| `StoreModule.Store.MarkQueuedTxEstimateRevertFailed` | go/internal/db/outbox.go:383-435 | only a queued row without nonce, attempt or live lease fails in place, with a retry window if it has attempts left and is not a pricing row |
| `StoreModule.Store.DeferFailedTxRetry` | go/internal/db/outbox.go:744-753 | a failed row's next retry moves by the deferral delay and nothing else changes; for any other id nothing changes |
| `StoreModule.Store.RequeueFailedTx` | go/internal/db/outbox.go:755-778 | an unpinned failed row becomes queued with one more attempt; any other row, and an absent one, is refused |
| `StoreModule.Store.CloneFailedTxRetry` | go/internal/db/outbox.go:780-814 | a failed row with a nonce and no clone gets exactly one clone; otherwise, absent rows included, nothing changes |
| `StoreModule.Store.PrepareReceiptRetryWorkflow` | go/internal/db/outbox.go:816-920 | restore, finalize or park the executor job that the failed lzReceive row serves |
| `StoreModule.Store.RetryFailedTx` | go/internal/db/outbox.go:437-610 | the operator's retry in place or by clone, with all refusals and roll-backs |
| `StoreModule.Store.PrepareNextFailedTxRetry` | go/internal/db/outbox.go:612-742 | the automatic retry of the row the query selects (meaning: `Retries.PromotedIff`) |
| `StoreModule.Store.SelectDueRetry` | go/internal/db/outbox.go:635-671 | the pick is due, not locked, and earliest by retry time and then id; no pick only when nothing unlocked is due |
| `StoreModule.Store.ClaimCursorNonce` | go/internal/db/outbox.go:948-977 | the cursor's nonce is handed out and the cursor moves by one, unless missing or at its limit |
| `StoreModule.Store.ClaimOutboxForSigning` | go/internal/db/tx_attempts.go:151-260 | a claimable row is leased; a queued row without a nonce takes the cursor's in the same commit behind the scope gate (meaning: `Leases.ClaimSucceedsIff`, `Leases.ClaimGrants`) |
| `StoreModule.Store.PrepareReceiptResolution` | go/internal/db/tx_attempts.go:735-803 | a terminal outcome is pinned once per row and replays return it (meaning: `Verdicts.PinSucceedsIff`, `Verdicts.PinAgrees`) |
| `StoreModule.Store.FinalizeAttemptReceipt` | go/internal/db/tx_attempts.go:805-921 | only the pinned attempt is applied, with the pinned outcome |
| `StoreModule.Store.ResolveExternalNonceRetry` | go/internal/db/tx_cancel_reconcile.go:660-729 | the held row fails for good and one clone is queued, behind scope and workflow checks |
| `StoreModule.Store.ResolveExternalNonceAbandon` | go/internal/db/tx_cancel_reconcile.go:731-824 | the held row fails and the job that waits on it is parked together with its packet |
| `StoreModule.Store.UpsertPacket` | go/internal/db/packets.go:36-65 | re-indexing rewrites a packet and keeps its status |
| `StoreModule.Store.UpsertExecutorJob` | go/internal/db/executor_jobs.go:43-70 | re-indexing an assignment rewrites the fee only |
| `StoreModule.Store.EnqueueExecutorTx` | go/internal/db/executor_jobs.go:196-284 | job, packet and queued row move together when the status matches and the scope is active |
| `StoreModule.Store.UpdateExecutorStatus` | go/internal/db/executor_jobs.go:441-511 | a compare-and-set transition of job and packet; a failing hash is counted once |
| `StoreModule.Store.UpsertDvnJob` | go/internal/db/dvn_jobs.go:26-53 | re-indexing rewrites fee and confirmations only |
| `StoreModule.Store.UpdateDvnStatus` | go/internal/db/dvn_jobs.go:434-469 | a compare-and-set on the status alone |
| `StoreModule.Store.EnqueueDvnVerifyTx` | go/internal/db/dvn_jobs.go:212-297 | job and queued row move together when the status matches and the scope is active |
| `StoreModule.Store.MarkDvnReorgDetectedWithCoordinates` | go/internal/db/dvn_jobs.go:471-520 | the transition and the compare-and-set of the coordinates land in one commit |
| `StoreModule.Store.MarkDvnManualReviewAndPausePathway` | go/internal/db/dvn_jobs.go:370-423 | job parked and pathway paused together or not at all |
| `StoreModule.Store.PauseChain` | go/internal/db/pause.go:12-28 | sets the flag of a stored chain |
| `StoreModule.Store.PausePathwayForPacket` | go/internal/db/pause.go:31-53 | sets the flag of the packet's pathway |
| `StoreModule.Store.SyncConfig` | go/internal/db/db.go:75-147 | for every iteration order of the registry the two loops reach the set-level result, or roll back when a new pathway names an unknown chain |
| `ConfigSync.SyncMeaning` | go/internal/db/db.go:75-147 | afterwards a chain is enabled iff configured and a pathway iff configured and enabled; pause flags of existing rows and every table other than chains and pathways are untouched |
| `ConfigSync.SyncSucceedsIff` | go/internal/db/db.go:120-145 | a sync succeeds iff every new pathway joins stored or configured chains, and otherwise changes nothing |
| `ConfigSync.SyncIdempotent` | go/internal/db/db.go:75-147 | a second sync with the same config changes nothing |
| `ConfigSync.LastSyncDecides` | go/internal/db/db.go:103-145 | after two syncs the enablement of chains and of pathways follows the second and pauses survive both |
| `OutboxEffects.StepEffect` | go/internal/db/outbox.go:442-814 | every step changes at most its target row along allowed edges and inserts at most one row, new work or the first clone of a consumed row, only behind an active scope |
| `OutboxEffects.WellFormedRun` | go/internal/db/outbox.go:780-814 | in every run only consumed rows have a clone, at most one each, older and with fewer attempts |
| `Lineage.RunLineagesAreChains` | go/internal/db/outbox.go:755-814 | of two rows of one lineage the older has failed for good with strictly fewer attempts, so at most the newest is not failed |
| `Lineage.AtMostFiveAutomaticRetries` | go/internal/db/outbox.go:612-742 | in any run, operator retries and clones mixed in, a lineage is retried automatically at most five times |
| `Nonces.CursorEdge` | go/internal/db/outbox.go:948-977 | a cursor appears by bootstrap above all recorded nonces, moves by one with the claim that stores its value, jumps forward by reconciliation, and moves in no other way |
| `Nonces.NonceAllocation` | go/internal/db/outbox.go:922-977 | in every run no two rows of a lane share a nonce, the cursor stays within 2^63-1, and from the bootstrap value on each nonce below the cursor is owned by a row or was stepped over by reconciliation, never both |
| `Nonces.EarlierNoncesBelowBase` | go/internal/db/outbox.go:264-306 | nonces recorded before a lane had a cursor are kept and lie below its bootstrap value |
| `Nonces.BootstrapStartsAt` | go/internal/db/outbox.go:264-306 | a bootstrap creates a cursor iff its arguments fit and there is none; the cursor is at least the RPC nonce, above all recorded nonces, and equal to the RPC nonce or one past a recorded one |
| `Nonces.BaseReachesChain` | go/internal/db/outbox.go:264-306 | in every run a lane's first cursor value reaches the RPC nonce of its bootstrap, and is that or one past a recorded nonce |
| `Nonces.FreshNoncesAboveChain` | go/internal/db/outbox.go:948-977 | in every run no first nonce handed out on a lane lies below the RPC nonce of its bootstrap |
| `Nonces.ForwardReaches` | go/internal/db/tx_cancel_reconcile.go:558-650 | reconciliation raises an existing cursor to the confirmed nonce and never lowers it |
| `Nonces.NoNonceBelowConfirmed` | go/internal/db/tx_cancel_reconcile.go:558-650 | after a reconciliation no first nonce below the confirmed one is handed out in any continuation |
| `Pinned.SpentForever` | go/internal/db/outbox.go:755-778 | a row whose nonce is spent keeps nonce and pin in every continuation; a failed one stays failed with its attempts |
| `Pinned.SpentNonceNeverSignedAgain` | go/internal/db/outbox.go:208-222 | in every continuation no claim of any row hands out a spent nonce and the spent row is never sendable |
| `Pinned.InsertedRowsAreBlank` | go/internal/db/outbox.go:780-800 | every inserted row, clones included, starts queued without nonce, receipt or cost |
| `Leases.LeaseExcludes` | go/internal/db/tx_attempts.go:172-253 | after a claim at t for ttl, in every continuation without progress or resolution of the row, each claim before t + ttl is refused with a lost lease, the row is not offered, and no estimate revert fails it |
| `Leases.ClaimSucceedsIff` | go/internal/db/tx_attempts.go:151-260 | a claim succeeds iff the row is of the lane, signable, unleased, uncanceled and unpinned, no row of the lane has to be broadcast first, and a row without a nonce has nothing shut in front of it and a cursor below the limit |
| `Leases.ClaimGrants` | go/internal/db/tx_attempts.go:205-253 | the claimed row carries the returned nonce and a lease of ttl and is otherwise unchanged; a held nonce stays, a first one is the cursor's, which moves by one |
| `Leases.SignedInOrder` | go/internal/db/tx_attempts.go:196-247 | in every run, when a claim hands out a nonce no other row of the lane has it and none with a lower one is still short of its broadcast |
| `Leases.OfferedIff` | go/internal/db/outbox.go:208-222 | the selector offers a row iff it is signable and due, unleased, uncanceled, unpinned, and holds a nonce or has nothing shut in front of it |
| `Leases.OfferedCanBeClaimed` | go/internal/db/outbox.go:181-262 | an offered row can be claimed at once unless its lane is blocked or its cursor cannot serve it |
| `Leases.SelectedIsNotBlockedByCandidates` | go/internal/db/outbox.go:221 | the row the selection order puts first is never blocked by another row that could have been offered |
| `Verdicts.EndsFollowReceipts` | go/internal/db/tx_attempts.go:771-800 | in every run a row is pinned iff a receipt was, and confirmed, failed on chain or canceled as the receipt's success, the attempt's kind and the cancel request say, both ways |
| `Verdicts.FinalizedAsJudged` | go/internal/db/tx_attempts.go:856-912 | applying a receipt confirms, fails or cancels the row iff the evidence it was pinned on says so |
| `Verdicts.PinSucceedsIff` | go/internal/db/tx_attempts.go:735-803 | a receipt is accepted iff the row holds a nonce and is live, or is pinned to the same attempt; a replay is told the pinned outcome and nothing but the pin changes |
| `Verdicts.PinAgrees` | go/internal/db/tx_attempts.go:785-793 | confirmed iff success without a cancel attempt, failed iff a revert nobody asked to cancel, canceled otherwise |
| `Verdicts.FinalizeApplies` | go/internal/db/tx_attempts.go:805-921 | only the pinned attempt is applied; the row ends as pinned with its cost recorded, leases, holds and cancel requests cleared, and a retry window iff it failed on chain with attempts left and carries no price |
| `Verdicts.FinalizedComesDue` | go/internal/db/outbox.go:635-671 | a finalized row is due exactly if it failed on chain, from the end of its delay on, with attempts left and no price |
| `Retries.PromotedIff` | go/internal/db/outbox.go:673-742 | the picked row is promoted iff nothing in front of it is shut and a failed delivery's job waits for another below the cap; an estimate failure is queued again with one more attempt, a failure on chain gets one queued clone and its job goes back to waiting |
| `Retries.RetriedIff` | go/internal/db/outbox.go:437-610 | an operator's retry succeeds iff the row failed repeatably, nothing in front of it is shut, a failed delivery's job waits for another, a clone has none yet, and every snapshot of a feed still under way is a later one of the same signer |
| `Retries.RetriedLeaves` | go/internal/db/outbox.go:537-610 | what a successful operator's retry leaves, in place or by clone |
| `Retries.DeliveryNotRepeated` | go/internal/db/outbox.go:816-920 | a failed delivery that is not repeated is parked with its packet once exhausted, closed when moot or shut, and left alone when the tables contradict each other |
| `Retries.QueueMovesIff` | go/internal/db/outbox.go:612-742 | each automatic retry takes exactly its pick out of the due rows, unless no retry can resolve the pick: then nothing changes and the same row is picked at every later time |
| `Retries.QueueDrains` | go/internal/db/outbox.go:612-742 | as long as no due row is of that kind, repeating the call empties the due rows in at most as many calls as there are |
| `Retries.EstimateRevertIff` | go/internal/db/outbox.go:383-435 | which rows fail their estimate, and with which retry window |
| `Retries.RetryDelays` | go/internal/db/outbox.go:1225-1237 | the delays are 1, 2, 4, 8, 16 and then always 30 minutes |
| `Retries.EstimateFailureComesDue` | go/internal/db/outbox.go:635-671 | a row that failed its estimate is due in its own lane exactly from the end of its delay on, if it has attempts left and carries no price |
| `Retries.PutOffComesBack` | go/internal/db/outbox.go:744-753 | a row put off behind a shut gate is due again exactly one minute later |
| `Retries.NobodyOvertaken` | go/internal/db/outbox.go:631-655 | the query has one answer, and no due unlocked row is passed over for a later one |
| `Enqueues.RowsAreOrders` | go/internal/db/outbox.go:136-179 | in every run each row asks for what the start, exactly one accepted enqueue or the row it repeats asked for, and each accepted enqueue has its row with the caller's whole request |
| `Enqueues.EnqueueIff` | go/internal/db/outbox.go:136-179 | new work is accepted iff it is complete and nothing in front of it is shut, and then adds one blank row with that request |
| `Enqueues.ExecutorEnqueueIff` | go/internal/db/executor_jobs.go:196-284 | accepted iff moreover the job is in the expected status; the row has the caller's request for that packet, and job and packet arrive together |
| `Enqueues.DvnEnqueueIff` | go/internal/db/dvn_jobs.go:212-297 | the same for a DVN job |
| `Enqueues.ExternalRetryIff` | go/internal/db/tx_cancel_reconcile.go:664-729 | a transaction whose nonce was lost is repeated iff nothing in front of it is shut and its job still waits for it; the lost row fails for good and one clone is queued |
| `Enqueues.AbandonIff` | go/internal/db/tx_cancel_reconcile.go:734-824 | giving one up succeeds iff its nonce was lost, fails the row for good, and parks the job that waited, so that none waits for it afterwards |
| `JobEffects.JobEdge` | go/internal/db/executor_jobs.go:441-511 | every step leaves a job alone, creates it, moves it together with its packet, or counts one new failing hash |
| `Workflow.JobsOkRun` | go/internal/db/executor_jobs.go:467-509 | in every run the retry count equals the number of distinct failing hashes and job and packet agree |
| `Workflow.LockstepForever` | go/internal/db/executor_jobs.go:266-279 | once a job has left ASSIGNED its packet carries the same status in all later states; retry counts and recorded hashes never shrink |
| `Workflow.ReindexNeverRewinds` | go/internal/db/executor_jobs.go:61-69 | indexing again keeps status, retry count and ledger of an existing job |
| `Workflow.ReplayedFailureChangesNothing` | go/internal/db/executor_jobs.go:467-485 | after a failure was counted, any later report of its hash leaves the whole state unchanged whatever statuses it names |
| `Records.FeeIsLastIndexed` | go/internal/db/executor_jobs.go:43-70 | in every run a job's fee is the one of its last accepted assignment |
| `Records.TermsAreLastIndexed` | go/internal/db/dvn_jobs.go:26-53 | in every run a DVN job's fee and confirmations are those of its last accepted assignment |
| `Records.SourceIsLastReported` | go/internal/db/packets.go:36-65 | in every run a packet's pathway, block and log are those indexed last or moved last by a reorg mark that read the stored ones |
| `Records.PacketIndexedIff` | go/internal/db/packets.go:36-65 | which packets are stored, and that a known one keeps only its status |
| `Records.JobIndexedIff` | go/internal/db/executor_jobs.go:43-70 | which assignments are stored, and that a known one takes only the fee |
| `Records.DvnIndexedIff` | go/internal/db/dvn_jobs.go:26-53 | the same for DVN assignments |
| `Records.ExecutorMarkIff` | go/internal/db/executor_jobs.go:441-511 | a transition commits iff the job is in the expected status and a counted hash is new; hashes not reported are kept, and job, packet, count and ledger move together |
| `Records.DvnMarkIff` | go/internal/db/dvn_jobs.go:434-469 | a transition commits iff the job is in the expected status, and changes that status only |
| `Records.ReorgIff` | go/internal/db/dvn_jobs.go:471-520 | the mark moves the stored source iff it is the one the caller read |
| `Records.ParkIff` | go/internal/db/dvn_jobs.go:370-423 | park and pause commit together iff the job is in the expected status and its pathway is stored |
| `Records.PauseIff` | go/internal/db/pause.go:12-53 | a pause commits iff its row is stored, and sets that row's flag only |
| `Records.KeysHoldRun` | go/internal/db/packets.go:36-65 | in every run packets and pathways name stored chains |
| `Budget.ResendQueues` | go/internal/db/outbox.go:887-918 | each re-send queues a transaction for the packet at an unchanged retry count, a clone only below the cap |
| `Budget.ResendsArePaidFor` | go/internal/db/outbox.go:816-920 | re-sends plus one while the job is LZ_RECEIVE_FAILED never exceed the retry count, no two share a retry count, and clones happen at 1 to 4 only |
| `Budget.CapIffFresh` | go/internal/executor/executor.go:412-419 | all re-sends stay below the cap iff every deliverer enqueue committed below it |
| `Budget.FreshDelivererKeepsBudget` | go/internal/db/executor_jobs.go:17-22 | with a fresh deliverer check there are at most four re-sends in any run |
| `Budget.StaleDelivererExceedsCap` | go/internal/executor/executor.go:412-419 | from any state one failure short of the cap with a cloneable row, a legal run re-sends at the cap although the check had passed |
| `Budget.FourFailuresLeaveOne` | go/internal/db/executor_jobs.go:17-22 | such states exist: four counted failures and a failed lzReceive row |
| `Deliverers.OverrunBoundedByWorkers` | go/internal/executor/executor.go:412-419 | with any number of looks and delayed enqueues by `workers` deliverers, a packet is re-sent at most 4 + `workers` times in any run |
| `PauseSafety.NothingSpendsWhileShut` | go/internal/db/send_scope.go:58-206 | while a chain or pathway is missing, disabled or paused and no sync enables it again, rows behind it already existed, keep attempts and nonce, and are queued only if they were, in every continuation |
| `PauseSafety.NothingSpendsWhilePaused` | go/internal/db/send_scope.go:58-150 | a pause is never undone, syncs included, so the same holds in every continuation |
| `PauseSafety.OmittedIsRefused` | go/internal/db/db.go:103-145 | after a sync that leaves a chain or pathway out, every enqueue behind it is refused until a sync enables it |
| `PauseSafety.RefusedRetryChargesNothing` | go/internal/db/outbox.go:537-593 | a retry behind a shut gate is refused and charges no attempt |
| `PauseSafety.PausesCloseGates` | go/internal/db/pause.go:12-53 | each of the three pausing calls closes the gate it names |
| `PauseSafety.NamesStay` | go/internal/db/packets.go:36-65 | in every continuation a stored packet keeps its pathway and a stored row its lane |
| `ReorgGate.GateHoldsIff` | go/internal/dvn/dvn.go:220-239 | with check and mark apart, in all runs a job past the gate passed it, at sufficient depth, for the block now stored, iff no mark commits on another block or demand than was checked and no re-indexing moves the block of a job past the gate |
| `ReorgGate.AtomicGateAlwaysHolds` | go/internal/db/dvn_jobs.go:187-202 | if each mark commits on the rows its check read, only re-indexing can break the gate |
| `ReorgGate.DepthCounts` | go/internal/dvn/dvn.go:855-863 | deep enough iff at least the required number of blocks runs from the block to the head; kept as the head grows |
| `ReorgGate.DepthIsExactIff` | go/internal/dvn/dvn.go:855-863 | on 64-bit numbers the check is exact except for block 0 under head 2^64-1 |
| `ReorgGate.SplitReorgWriteSkipsGate` | go/internal/db/dvn_jobs.go:471-480 | with status and coordinates in two commits, for every re-included shallow block another worker's round trip leaves the job past the gate |
| `ReorgGate.OneReorgCommitGatesAgain` | go/internal/db/dvn_jobs.go:471-520 | with one commit the same schedule leaves the job waiting at the gate of the new block |
| `ReorgGate.SplitGateReadSkipsGate` | go/internal/dvn/dvn.go:220-239 | a depth check made on an earlier read is not protected by the status compare |
| `ReorgGate.ReindexingCanSkipGate` | go/internal/db/packets.go:36-65 | a legal run in which re-indexing leaves a job past the gate with a shallow block |
| `Locks.ProgramsAscend` | go/internal/db/send_scope.go:58-71 | a transaction takes its locks in ascending order iff it is neither a scoped external-nonce retry nor a reconciliation with rows |
| `Locks.ProgramShape` | go/internal/db/tx_cancel_reconcile.go:558-729 | what every lock list has in common: after a job only its own packet's pause carriers, shared, or a packet, unless it parks; a packet comes last; a cursor comes after its lane's advisory key; the two unordered kinds ascend up to their last part |
| `LockCover.WritesAreLocked` | go/internal/db/send_scope.go:58-71 | every stored row that a step changes, in any table, is locked for writing by the transaction it runs as |
| `LockCover.GatesAreLocked` | go/internal/db/send_scope.go:100-206 | no row is added, queued again or given its first nonce except under locks on the flags of every chain and pathway in front of it |
| `LockCover.SyncCovered` | go/internal/db/db.go:85-102 | a sync locks every stored chain and pathway before rewriting them |
| `LockCover.StepsAreConsistent` | go/internal/db/send_scope.go:58-71 | every step runs as a transaction that the lock manager's results apply to |
| `Deadlock.LocksExclude` | go/internal/db/db.go:85-102 | in every schedule no two transactions hold conflicting locks |
| `Deadlock.NeverDeadlocks` | go/internal/db/tx_cancel_reconcile.go:558-729 | no schedule of any number of transactions, external-nonce retries, reconciliations and price enqueues included, reaches a set of tasks that wait for each other, unless a running park shares its job with a running retry |
| `Deadlock.NoWaitCycle` | go/internal/db/db.go:85-102 | under the same condition no chain of waits of any length closes |
| `Deadlock.SomethingGoesOn` | go/internal/db/db.go:85-102 | under the same condition, as long as a transaction runs, one can finish or be granted its next lock at once |
| `Deadlock.SharedParkWouldDeadlock` | go/internal/db/tx_cancel_reconcile.go:675-713 | the condition is needed: a retry and a matching park of its job would wait for each other |
| `VerifyClaims.AlwaysSettled` | go/internal/db/dvn_jobs.go:212-297 | in every run with the transitions the workers ask for, a packet with a verification transaction has a job in VERIFY_TX_ENQUEUED, VERIFIED or MANUAL_REVIEW |
| `VerifyClaims.ParkRefusedOnceVerifying` | go/internal/db/dvn_jobs.go:370-423 | then a worker's park of that job matches no row, is refused and changes nothing |
| `VerifyClaims.ParkOfVerifyingJobWouldMatch` | go/internal/db/tx_cancel_reconcile.go:664-729 | where a retry of a held verification succeeds, a park succeeds from VERIFY_TX_ENQUEUED and from no other status |
| `Fees.GroupMatches` | go/internal/db/fee_accounting.go:145-165 | grouping receipts yields one record per job that has any, with their summed price and unpriced count |
| `Fees.JoinHasNoFanOut` | go/internal/db/fee_accounting.go:166-181 | the left join equals one row per job with its own receipts summed directly |
| `Fees.ReportMeaning` | go/internal/db/fee_accounting.go:182-194 | revenue counts each job once, margin is revenue minus cost, cost is the sum of priced receipts that have a job of that role, losing jobs and unpriced receipts are counted per job |
| `Fees.ListUnpriced` | go/internal/db/fee_accounting.go:35-99 | the earliest unpriced receipts by time of observation and then id, at most the limit, none earlier omitted; a limit that is not positive is an error |
| `Fees.UnpricedListAgrees` | go/internal/db/fee_accounting.go:35-194 | the report's unpriced count is the number of entries of the complete unpriced list whose job exists |
| `Fees.ReportInAnyOrder` | go/internal/db/fee_accounting.go:145-194 | no figure of a line depends on the order of receipts |
| `Fees.DatabaseReport` | go/internal/db/fee_accounting.go:125-194 | over the tables of any state: revenue is the sum of the fees of the line's jobs, cost the sum of the priced costs of the transactions mined for them by purpose, margin the difference, and losing jobs and unpriced transactions are counted |
| `UiLock.Redirector.Begin` | contracts/scripts/ignition-ui-output.ts:13-17 | a call queues behind the promise of the previous one |
| `UiLock.Redirector.EnterCall` | contracts/scripts/ignition-ui-output.ts:18-23 | a call saves the current writer and redirects once its predecessor is released |
| `UiLock.Redirector.LeaveCall` | contracts/scripts/ignition-ui-output.ts:24-29 | returning or throwing restores the saved writer and releases the next call |
| `UiLock.RedirectionIsExclusive` | contracts/scripts/ignition-ui-output.ts:8-30 | at most one call is inside, it saved the original writer, and the original is back when nobody is inside |
| `UiLock.EntersInCallOrder` | contracts/scripts/ignition-ui-output.ts:8-30 | calls enter exactly in the order they were made |
| `UiLock.FirstInLineCanEnter` | contracts/scripts/ignition-ui-output.ts:18-30 | when all earlier calls are done, thrown or not, the next can enter |
| `ConfigGraph.Validate` | go/internal/config/config.go:483-663 | the loops accept exactly the configs that the declarative predicate accepts |
| `ConfigGraph.ConfirmationsListed` | go/internal/config/config.go:560-571 | in an accepted config looking a chain up by its id finds the confirmations it lists |
| `ConfigGraph.ConfirmationsNeverIncrease` | go/internal/config/config.go:576-597 | in an accepted config confirmations never increase along a chain of pathways of any length |
| `ConfigGraph.CycleConfirmationsEqual` | go/internal/config/config.go:576-597 | all chains on a pathway cycle have equal confirmations |
| `ConfigGraph.ReciprocalConfirmationsEqual` | go/internal/config/config.go:588-597 | a pair of opposite pathways joins chains with equal confirmations |
| `ConfigGraph.AcceptedIntervalsFit` | go/internal/chain/registry.go:107 | accepted poll and replacement intervals are exact in int64 nanoseconds |
| `PricingTiming.AcceptedIffSound` | go/internal/config/config.go:823-882 | for all uint64 inputs, wrap-around included, accepted iff heartbeat + interval + 600 <= stale_after <= 86400 and the other bounds hold over the integers |
| `PricingTiming.DurationExactIffOk` | go/internal/config/config.go:1208-1213 | a seconds value keeps its meaning as a Duration iff it passes the check |
| `PricingTiming.AcceptedDurationsFit` | go/internal/app/app.go:400-405 | every pricing duration built from an accepted config is exact and positive |
| `Uln.ValidateRequiredDvnSet` | go/internal/config/config.go:930-952 | accepts exactly lists of two or more distinct non-zero members that contain the OpenDVN |
| `Uln.EqualAddressSets` | go/internal/configcheck/check.go:510-521 | sort-and-compare decides multiset equality |
| `Uln.Checker.CheckUln` | go/internal/configcheck/check.go:367-386 | appends exactly the issues of both sides and of the confirmations relation |
| `Uln.IssuesSayWhatIsOff` | go/internal/configcheck/check.go:487-508 | each kind of issue is reported for a side iff that part of its config is off |
| `Uln.PathwayIssuesSayWhatIsOff` | go/internal/configcheck/check.go:367-386 | over both sides each issue is reported for the side it is about, and the confirmations relation iff it is off |
| `Uln.IssueFreeIff` | go/internal/configcheck/check.go:487-508 | no issue iff both sides match their approval and send confirmations reach the receive side's |
| `Uln.IssueFreeMeansApproved` | go/internal/configcheck/check.go:367-386 | for a validated config no issue means both on-chain sets are the approved ones, duplicate-free, with the OpenDVN and another member |
| `ConfigDiff.DiffMapsProjected` | go/internal/configdiff/diff.go:44-70 | the loops list exactly the keys on which the maps disagree, in ascending order, each under its path with the projection of both stored values; the list is empty iff the maps are equal, whatever the projection |
| `ConfigDiff.DiffMaps` | go/internal/configdiff/diff.go:86-112 | the listed changes, values unprojected, applied to the old map give the new one; the list is empty iff the maps are equal |
| `ConfigDiff.ChangesListed` | go/internal/configdiff/diff.go:44-70 | exactly one change per differing key, in strictly ascending key order, with both values |
| `ConfigDiff.DiffIsPatch` | go/internal/configdiff/diff.go:86-112 | applying the changes to the old map yields the new map |
| `ConfigDiff.DiffEmptyIffEqual` | go/internal/configdiff/diff.go:86-119 | the diff is empty iff the maps are equal |
| `ConfigDiff.RedactionHidesNothing` | go/internal/configdiff/diff.go:37-70 | projected output has the same paths in the same order and the same absences |
| `ConfigDiff.PathsTellKeysApart` | go/internal/configdiff/diff.go:60 | different keys are shown under different paths |

## Left out

- Postgres itself, SQL text, row scanning, byte lengths, the database connection and wall-clock time: tables are maps, a call is one atomic step, times are integers that are only compared.
- Starting states: run properties start from any state that satisfies the stated invariants (unique nonces per lane, one clone per row, packets and jobs in step), all of which an empty database satisfies.
- Nonce columns cannot be negative here, so the checks for negative nonces have no counterpart.
- The table of signed attempts: a receipt call takes the attempt's id and kind as arguments, and signing, broadcast, replacement, cancel requests and holds are one step that may move a live row among the in-flight statuses with any lease and hold data.
- Nonce reconciliation: only its locks and its forward move of the cursor; releases and external marks are covered by the same in-flight step.
- Deferring jobs, pricing receipts afterwards, enqueueing price snapshots by the bot beyond its locks, work-listing queries: they add no transition to the modelled invariants.
- Re-indexing keeps a packet's pathway: the GUID commits to sender, receiver and chains, so an upsert of a known GUID is only allowed with the same pathway.
- StoreModule.Store.MarkQueuedTxEstimateRevertFailed: the row id and error text are not validated, because ids are naturals and texts decide nothing.
- StoreModule.Store.PrepareReceiptResolution: the attempt's row is not read; its id, owner and kind are arguments, because attempts are not a table here.
- StoreModule.Store.FinalizeAttemptReceipt: the attempt's own status and receipt columns are not updated, for the same reason.
- StoreModule.Store.UpsertPacket: header, payload, addresses and hashes of a packet are not stored, so only its pathway, source coordinates and status are promised.
- StoreModule.Store.EnqueueDvnVerifyTx: the quorum payload is not stored, so its presence is not checked.
- Budget.CapIffFresh: says nothing about how many stale enqueues there can be; Deliverers.OverrunBoundedByWorkers bounds them.
- Deadlock.NeverDeadlocks: covers the explicit row, key and advisory locks; locks taken implicitly by foreign keys, on rows a transaction has just inserted, and hash collisions of advisory keys are not modelled. That a park shares no job with a retry is proved on committed states in VerifyClaims and is a condition here.
- VerifyClaims.AlwaysSettled: the transitions and the statuses parked from are those the repository's own callers pass, not every argument the store accepts.
- LockCover.WritesAreLocked: the in-flight step that stands for signing, broadcasting and holding has no lock program, and rows inserted by a transaction are not counted as locked.
- Retries.QueueDrains: calls at one point in time without locked rows; what other workers do in between is not part of it.
- ConfigGraph.Validate: error texts and the order among errors are not modelled, and URL, signer, secret-reference, transaction-role, pathway-pricing and pricing-source checks are boolean inputs.
- ConfigDiff.DiffMapsProjected: scalar comparisons outside the maps, text rendering and the redaction functions themselves are not modelled.
- Uln.Checker.CheckUln: issue texts are reduced to side and kind; reading and decoding the on-chain config is not modelled.
- RPC quorum, worker loops, price sources, key stores, metrics, migrations, drain checks and deployment scripts other than the stdout lock.
