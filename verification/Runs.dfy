/** Runs: every interleaving of committed transactions issued by any number of workers.

A step is one committed store call with the arguments a caller passed it. A run is any finite
sequence of permitted steps from a starting state, so a statement about all runs is a statement
about all schedules of all workers, crashes and replays included.
*/
module Runs {
  import opened Tables
  import opened SendScope
  import opened Outbox
  import opened Receipts
  import opened Jobs
  import ConfigSync

  datatype Step =
    | DoEnqueueTx(req: TxRequest)
    | DoEstimateRevert(id: nat, now: int)
    | DoRetry(id: nat, now: int)
    | DoAutoRetry(chain: Eid, signer: string, now: int, locked: set<nat>, pick: Option<nat>)
    | DoBootstrap(lane: Lane, rpcPending: nat, local: nat)
    | DoClaim(id: nat, lane: Lane, now: int, ttl: nat)
    | DoSendProgress(id: nat, status: TxStatus, held: Option<HeldReason>, signing: Signing)
    | DoPinReceipt(id: nat, attempt: nat, cancelAttempt: bool, success: bool)
    | DoFinalize(id: nat, attempt: nat, costDst: nat, now: int)
    | DoExternalRetry(id: nat)
    | DoExternalAbandon(id: nat)
    | DoForwardCursor(lane: Lane, confirmed: nat)
    | DoUpsertPacket(g: Guid, packet: Packet)
    | DoUpsertExecutorJob(g: Guid, fee: Option<nat>)
    | DoUpsertDvnJob(g: Guid, fee: Option<nat>, confirmations: nat)
    | DoEnqueueExecutor(g: Guid, expected: ExecutorStatus, next: ExecutorStatus, req: TxRequest)
    | DoExecutorMark(u: ExecutorUpdate)
    | DoConfirmationMark(g: Guid, from: DvnStatus, seen: nat, required: nat, head: nat)
    | DoDvnMark(g: Guid, from: DvnStatus, to: DvnStatus)
    | DoEnqueueDvn(g: Guid, req: TxRequest)
    | DoDvnReorg(g: Guid, block: nat, log: nat, oldBlock: nat, oldLog: nat)
    | DoDvnParkAndPause(g: Guid, from: DvnStatus)
    | DoPauseChain(eid: Eid)
    | DoPausePathway(g: Guid)
    | DoSyncConfig(registry: ConfigSync.Registry)

  /** The transitions that the Mark methods of the executor store can express: only the two failure
      marks count a failure, and both of them move the job to LZ_RECEIVE_FAILED. */
  predicate ExecutorMark(u: ExecutorUpdate) {
    || (u.next in {WaitingDvnVerification, Verifiable, Committed, Delivered, ManualReview} && !u.countFailure)
    || (u.next == Executable && u.expected == Committed && !u.countFailure)
    || (u.next == LzReceiveFailed && u.countFailure)
  }

  /** The executor's two enqueue calls: commitVerification once verifiable, lzReceive once executable
      and again after a failure. */
  predicate ExecutorEnqueue(expected: ExecutorStatus, next: ExecutorStatus, req: TxRequest) {
    || (expected == Verifiable && next == CommitTxEnqueued && req.purpose == CommitVerification)
    || (expected in {Executable, LzReceiveFailed} && next == LzReceiveTxEnqueued && req.purpose == LzReceive)
  }

  /** DVN marks other than the confirmation mark; READY_TO_VERIFY is reached from quorum checking only. */
  predicate DvnMark(from: DvnStatus, to: DvnStatus) {
    || to in {WaitingConfirmations, WouldVerify, DvnVerified, QuorumConflict, ReorgDetected, DvnManualReview}
    || (to == ReadyToVerify && from == QuorumChecking)
  }

  /** What a caller may pass in state `db`. Selections must be the ones the queries return, and
      re-indexing a packet must keep the identity that its GUID commits to. */
  ghost predicate Permitted(db: Db, step: Step) {
    match step
    case DoAutoRetry(chain, signer, now, locked, pick) =>
      if pick.None? then forall id :: id !in locked ==> !AutoRetryDue(db, chain, signer, now, id)
      else AutoRetryPick(db, chain, signer, now, locked, pick.value)
    case DoBootstrap(lane, rpcPending, local) => LocalNext(db, lane, local)
    case DoUpsertPacket(g, packet) =>
      if g in db.packets then packet.key == db.packets[g].key else packet.status in {NewPacket, Assigned}
    case DoEnqueueExecutor(g, expected, next, req) => ExecutorEnqueue(expected, next, req)
    case DoExecutorMark(u) => ExecutorMark(u)
    case DoConfirmationMark(g, from, seen, required, head) =>
      from in {DvnAssigned, WaitingConfirmations} && HasRequiredConfirmations(seen, required, head)
    case DoDvnMark(g, from, to) => DvnMark(from, to)
    case _ => true
  }

  predicate TouchesOutbox(step: Step) {
    || step.DoEnqueueTx? || step.DoEstimateRevert? || step.DoRetry? || step.DoAutoRetry? || step.DoClaim?
    || step.DoSendProgress? || step.DoPinReceipt? || step.DoFinalize? || step.DoExternalRetry? || step.DoExternalAbandon?
    || step.DoEnqueueExecutor? || step.DoEnqueueDvn?
  }

  predicate TouchesCursors(step: Step) {
    step.DoBootstrap? || step.DoClaim? || step.DoForwardCursor?
  }

  predicate TouchesJobs(step: Step) {
    || step.DoRetry? || step.DoAutoRetry? || step.DoExternalAbandon? || step.DoUpsertExecutorJob?
    || step.DoEnqueueExecutor? || step.DoExecutorMark?
  }

  predicate TouchesDvn(step: Step) {
    || step.DoExternalAbandon? || step.DoUpsertDvnJob? || step.DoConfirmationMark? || step.DoDvnMark?
    || step.DoEnqueueDvn? || step.DoDvnReorg? || step.DoDvnParkAndPause?
  }

  predicate TouchesPackets(step: Step) {
    step.DoUpsertPacket? || step.DoDvnReorg? || (TouchesJobs(step) && !step.DoUpsertExecutorJob?)
  }

  predicate TouchesFlags(step: Step) {
    step.DoPauseChain? || step.DoPausePathway? || step.DoDvnParkAndPause? || step.DoSyncConfig?
  }

  /** Which tables a step can change; executor steps change packet statuses only. */
  ghost predicate Frame(db: Db, step: Step, db': Db) {
    && (TouchesOutbox(step) || (db'.outbox == db.outbox && db'.nextId == db.nextId))
    && (TouchesCursors(step) || db'.cursors == db.cursors)
    && (TouchesJobs(step) || db'.jobs == db.jobs)
    && (step.DoExecutorMark? || db'.ledger == db.ledger)
    && (TouchesDvn(step) || db'.dvn == db.dvn)
    && (TouchesPackets(step) || db'.packets == db.packets)
    && (step.DoUpsertPacket? || step.DoDvnReorg? || SameSources(db.packets, db'.packets))
    && (step.DoUpsertPacket? || SamePaths(db.packets, db'.packets))
    && (TouchesFlags(step) || (db'.chains == db.chains && db'.pathways == db.pathways))
  }

  predicate SendingStep(step: Step) {
    TouchesCursors(step) || (TouchesOutbox(step) && !step.DoEnqueueExecutor? && !step.DoEnqueueDvn?)
  }

  /** Steps of the transaction sender and of the operator's transaction commands. */
  ghost function SendingNext(db: Db, step: Step): Db
    requires Permitted(db, step) && SendingStep(step)
  {
    match step
    case DoEnqueueTx(req) => EnqueueTx(db, req).db
    case DoEstimateRevert(id, now) => MarkQueuedTxEstimateRevertFailed(db, id, now).db
    case DoRetry(id, now) => RetryFailedTx(db, id, now).db
    case DoAutoRetry(_, _, now, _, pick) => PrepareNextFailedTxRetry(db, pick, now).db
    case DoBootstrap(lane, rpcPending, local) => BootstrapTxNonceCursor(db, lane, rpcPending, local).db
    case DoClaim(id, lane, now, ttl) => ClaimOutboxForSigning(db, id, lane, now, ttl).db
    case DoSendProgress(id, status, held, signing) => SendProgress(db, id, status, held, signing).db
    case DoPinReceipt(id, attempt, cancelAttempt, success) =>
      PrepareReceiptResolution(db, id, attempt, cancelAttempt, success).db
    case DoFinalize(id, attempt, costDst, now) => FinalizeAttemptReceipt(db, id, attempt, costDst, now).db
    case DoExternalRetry(id) => ResolveExternalNonceRetry(db, id).db
    case DoExternalAbandon(id) => ResolveExternalNonceAbandon(db, id).db
    case DoForwardCursor(lane, confirmed) => ForwardCursor(db, lane, confirmed).db
  }

  /** Steps of the indexer, the executor and the DVN worker, pauses and config syncs. */
  ghost function WorkerNext(db: Db, step: Step): Db
    requires Permitted(db, step) && !SendingStep(step)
  {
    match step
    case DoUpsertPacket(g, packet) => UpsertPacket(db, g, packet).db
    case DoUpsertExecutorJob(g, fee) => UpsertExecutorJob(db, g, fee, Assigned).db
    case DoUpsertDvnJob(g, fee, confirmations) => UpsertDvnJob(db, g, fee, confirmations, DvnAssigned).db
    case DoEnqueueExecutor(g, expected, next, req) => EnqueueExecutorTx(db, g, expected, next, req).db
    case DoExecutorMark(u) => UpdateExecutorStatus(db, u).db
    case DoConfirmationMark(g, from, _, _, _) => UpdateDvnStatus(db, g, from, QuorumChecking).db
    case DoDvnMark(g, from, to) => UpdateDvnStatus(db, g, from, to).db
    case DoEnqueueDvn(g, req) => EnqueueDvnVerifyTx(db, g, ReadyToVerify, VerifyTxEnqueued, req).db
    case DoDvnReorg(g, block, log, oldBlock, oldLog) =>
      MarkDvnReorgDetectedWithCoordinates(db, g, QuorumChecking, block, log, oldBlock, oldLog).db
    case DoDvnParkAndPause(g, from) => MarkDvnManualReviewAndPausePathway(db, g, from).db
    case DoPauseChain(eid) => PauseChain(db, eid).db
    case DoPausePathway(g) => PausePathwayForPacket(db, g).db
    case DoSyncConfig(registry) => ConfigSync.SyncConfig(db, registry).db
  }

  /** The state after a committed step. */
  ghost function Next(db: Db, step: Step): Db
    requires Permitted(db, step)
  {
    if SendingStep(step) then SendingNext(db, step) else WorkerNext(db, step)
  }

  lemma RetryFrame(db: Db, step: Step)
    requires Permitted(db, step) && (step.DoRetry? || step.DoAutoRetry?)
    ensures Frame(db, step, SendingNext(db, step))
  {
  }

  lemma PipelineFrame(db: Db, step: Step)
    requires Permitted(db, step) && (step.DoEnqueueTx? || step.DoEstimateRevert? || step.DoSendProgress? || step.DoPinReceipt? || step.DoFinalize?)
    ensures Frame(db, step, SendingNext(db, step))
  {
  }

  lemma NonceFrame(db: Db, step: Step)
    requires Permitted(db, step)
    requires step.DoBootstrap? || step.DoClaim? || step.DoForwardCursor? || step.DoExternalRetry? || step.DoExternalAbandon?
    ensures Frame(db, step, SendingNext(db, step))
  {
  }

  lemma SendingFrame(db: Db, step: Step)
    requires Permitted(db, step) && SendingStep(step)
    ensures Frame(db, step, SendingNext(db, step))
  {
    if step.DoRetry? || step.DoAutoRetry? {
      RetryFrame(db, step);
    } else if step.DoEnqueueTx? || step.DoEstimateRevert? || step.DoSendProgress? || step.DoPinReceipt? || step.DoFinalize? {
      PipelineFrame(db, step);
    } else {
      NonceFrame(db, step);
    }
  }

  predicate IndexingStep(step: Step) {
    step.DoUpsertPacket? || step.DoUpsertExecutorJob? || step.DoUpsertDvnJob?
  }

  predicate ExecutorStep(step: Step) {
    step.DoEnqueueExecutor? || step.DoExecutorMark?
  }

  predicate DvnStep(step: Step) {
    step.DoConfirmationMark? || step.DoDvnMark? || step.DoEnqueueDvn? || step.DoDvnReorg? || step.DoDvnParkAndPause?
  }

  lemma IndexingFrame(db: Db, step: Step)
    requires Permitted(db, step) && IndexingStep(step)
    ensures Frame(db, step, WorkerNext(db, step))
  {
  }

  lemma ExecutorFrame(db: Db, step: Step)
    requires Permitted(db, step) && ExecutorStep(step)
    ensures Frame(db, step, WorkerNext(db, step))
  {
  }

  lemma DvnFrame(db: Db, step: Step)
    requires Permitted(db, step) && DvnStep(step)
    ensures Frame(db, step, WorkerNext(db, step))
  {
  }

  lemma PauseFrame(db: Db, step: Step)
    requires Permitted(db, step) && (step.DoPauseChain? || step.DoPausePathway?)
    ensures Frame(db, step, WorkerNext(db, step))
  {
  }

  lemma SyncFrame(db: Db, step: Step)
    requires Permitted(db, step) && step.DoSyncConfig?
    ensures Frame(db, step, WorkerNext(db, step))
  {
  }

  lemma WorkerFrame(db: Db, step: Step)
    requires Permitted(db, step) && !SendingStep(step)
    ensures Frame(db, step, WorkerNext(db, step))
  {
    if IndexingStep(step) {
      IndexingFrame(db, step);
    } else if ExecutorStep(step) {
      ExecutorFrame(db, step);
    } else if DvnStep(step) {
      DvnFrame(db, step);
    } else if step.DoSyncConfig? {
      SyncFrame(db, step);
    } else {
      PauseFrame(db, step);
    }
  }

  lemma StepFrame(db: Db, step: Step)
    requires Permitted(db, step)
    ensures Frame(db, step, Next(db, step))
  {
    if SendingStep(step) { SendingFrame(db, step); } else { WorkerFrame(db, step); }
  }

  datatype Run = Start(db: Db) | Then(before: Run, step: Step)

  /** The state a run ends in; `Legal` says that every step of it was permitted. */
  ghost function End(run: Run): Db
    requires Legal(run)
    decreases run, 1
  {
    match run
    case Start(db) => db
    case Then(before, step) => Next(End(before), step)
  }

  ghost predicate Legal(run: Run)
    decreases run, 0
  {
    match run
    case Start(db) => true
    case Then(before, step) => Legal(before) && Permitted(End(before), step)
  }

  ghost function Initial(run: Run): Db {
    match run
    case Start(db) => db
    case Then(before, step) => Initial(before)
  }

  lemma Extended(run: Run, step: Step)
    requires Legal(run) && Permitted(End(run), step)
    ensures Legal(Then(run, step)) && End(Then(run, step)) == Next(End(run), step) && Initial(Then(run, step)) == Initial(run)
  {
  }

  /** `later` continues `earlier` by zero or more steps. */
  ghost predicate Continues(earlier: Run, later: Run) {
    later == earlier || (later.Then? && Continues(earlier, later.before))
  }
}
