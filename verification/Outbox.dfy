/** The transaction outbox: enqueue, retry in place, retry by clone, and nonce allocation
    (go/internal/db/outbox.go). Each function is the committed effect of one store call. */
module Outbox {
  import opened Tables
  import opened SendScope

  function Pow2(n: nat): nat {
    if n == 0 then 1 else 2 * Pow2(n - 1)
  }

  /** The retry backoff: one minute doubled per attempt, capped at thirty minutes. */
  function RetryDelay(attempts: nat): nat {
    var doubled := TX_AUTO_RETRY_BASE_DELAY * Pow2(attempts);
    if doubled <= TX_AUTO_RETRY_MAX_DELAY then doubled else TX_AUTO_RETRY_MAX_DELAY
  }

  predicate RequestComplete(req: TxRequest) {
    req.chain != 0 && req.purpose != OtherPurpose("") && req.to != 0 && req.signer != ""
  }

  function GateError(scope: ScopeState): StoreError {
    if scope.Inactive? then ScopeInactive else ScopeMalformed
  }

  function EnqueueTx(db: Db, req: TxRequest): (out: Outcome<nat>)
    ensures out.db == db.(outbox := out.db.outbox, nextId := out.db.nextId)
  {
    if !RequestComplete(req) then Unchanged(db, InvalidArgument)
    else
      var scope := ScopeOf(db, req);
      if !scope.Active? then Unchanged(db, GateError(scope))
      else Outcome(InsertRow(db, FreshRow(req)), Ok(db.nextId))
  }

  /** When an estimate reverts before any nonce is reserved, the row fails in place. */
  predicate PristineQueued(row: Row, now: int) {
    row.status == Queued && row.nonce.None? && !row.signing.hasAttempt && LeaseFree(row, now)
  }

  predicate LeaseFree(row: Row, now: int) {
    row.signing.leaseUntil.None? || row.signing.leaseUntil.value <= now
  }

  function RetryWindow(row: Row, now: int): Option<int> {
    if row.attempts < TX_AUTO_RETRY_MAX_ATTEMPTS && !row.req.purpose.PricingSnapshot?
    then Some(now + RetryDelay(row.attempts)) else None
  }

  function MarkQueuedTxEstimateRevertFailed(db: Db, id: nat, now: int): (out: Outcome<bool>)
    ensures out.db == db.(outbox := out.db.outbox)
  {
    if id !in db.outbox || !PristineQueued(db.outbox[id], now) then Outcome(db, Ok(false))
    else
      var row := db.outbox[id];
      Outcome(
        SetRow(db, id, row.(status := Failed, failure := Some(EstimateGasRevert), nextRetryAt := RetryWindow(row, now))),
        Ok(true))
  }

  // ----- retrying a failed row -----

  /** A failed row on a paused scope only has its next retry pushed back. */
  function Deferred(row: Row, now: int): Row {
    row.(nextRetryAt := Some(now + TX_RETRY_SCOPE_DEFER_DELAY))
  }

  /** UPDATE ... WHERE the row has failed; nothing otherwise. */
  function DeferFailedTxRetry(db: Db, id: nat, now: int): Db {
    if id in db.outbox && db.outbox[id].status == Failed then SetRow(db, id, Deferred(db.outbox[id], now)) else db
  }

  function Requeued(row: Row): Row {
    row.(status := Queued, attempts := row.attempts + 1, failure := None, nextRetryAt := None)
  }

  /** UPDATE ... WHERE the row has failed and has no pinned receipt; anything else is an error. */
  function RequeueFailedTx(db: Db, id: nat): Outcome<nat> {
    if id !in db.outbox || db.outbox[id].status != Failed || db.outbox[id].pin.Some? then Unchanged(db, NotRequeueable)
    else Outcome(SetRow(db, id, Requeued(db.outbox[id])), Ok(id))
  }

  /** Requeue in place behind the scope gate. */
  function GatedRequeue(db: Db, id: nat, now: int, refusal: StoreError): (out: Outcome<nat>)
    requires id in db.outbox && db.outbox[id].status == Failed
    ensures out.db == db.(outbox := out.db.outbox)
  {
    var scope := ScopeOf(db, db.outbox[id].req);
    if scope.Malformed? then Unchanged(db, ScopeMalformed)
    else if scope.Inactive? then Outcome(SetRow(db, id, Deferred(db.outbox[id], now)), Err(refusal))
    else RequeueFailedTx(db, id)
  }

  function CloneFailedTxRetry(db: Db, id: nat): (out: Outcome<nat>)
    ensures out.db == db.(outbox := out.db.outbox, nextId := out.db.nextId)
  {
    if id !in db.outbox || db.outbox[id].status != Failed || db.outbox[id].nonce.None? || HasChild(db.outbox, id) then
      Unchanged(db, NotCloneable)
    else
      var row := db.outbox[id];
      var cloned := InsertRow(db, CloneRow(row, id));
      Outcome(SetRow(cloned, id, row.(nextRetryAt := None)), Ok(db.nextId))
  }

  function Finalized(row: Row): Row {
    if row.status == Failed then row.(failure := None, nextRetryAt := None) else row
  }

  datatype Workflow = Prepared(db: Db) | NotPrepared(db: Db) | WorkflowError(error: StoreError)

  /** The two tables hold the same packets from the same source logs; only statuses may differ. */
  predicate SameSources(packets: map<Guid, Packet>, moved: map<Guid, Packet>) {
    moved.Keys == packets.Keys && forall g :: g in packets ==> moved[g] == packets[g].(status := moved[g].status)
  }

  /** UPDATE packets ... WHERE guid = g AND status = expected. */
  function MovePacket(packets: map<Guid, Packet>, g: Guid, expected: ExecutorStatus, next: ExecutorStatus): (moved: map<Guid, Packet>)
    ensures SameSources(packets, moved)
  {
    if g in packets && packets[g].status == expected then packets[g := packets[g].(status := next)] else packets
  }

  /** Whether a receipt-failed row may be cloned, and what that does to the job it serves. */
  function PrepareReceiptRetryWorkflow(db: Db, id: nat): (work: Workflow)
    requires id in db.outbox
    ensures work.Prepared? ==> work.db == db.(jobs := work.db.jobs, packets := work.db.packets)
    ensures work.NotPrepared? ==> work.db == db.(outbox := work.db.outbox, jobs := work.db.jobs, packets := work.db.packets)
    ensures !work.WorkflowError? ==> SameSources(db.packets, work.db.packets)
  {
    var row := db.outbox[id];
    if !row.req.purpose.LzReceive? || row.req.guid.None? then Prepared(db)
    else
      var g := row.req.guid.value;
      if g !in db.jobs then WorkflowError(JobNotFound)
      else
        var job := db.jobs[g];
        if job.status in {LzReceiveTxEnqueued, Delivered, ManualReview} then
          NotPrepared(SetRow(db, id, Finalized(row)))
        else if job.status != LzReceiveFailed then WorkflowError(WrongStatus)
        else if job.retryCount >= MAX_LZ_RECEIVE_DELIVERY_ATTEMPTS then
          NotPrepared(SetRow(db, id, Finalized(row)).(
                      jobs := db.jobs[g := job.(status := ManualReview)],
                      packets := MovePacket(db.packets, g, LzReceiveFailed, ManualReview)))
        else
          var scope := LockTxSendScope(db, row.req.chain, LzReceive, row.req.guid);
          if scope.Malformed? then WorkflowError(ScopeMalformed)
          else if scope.Inactive? then NotPrepared(SetRow(db, id, Finalized(row)))
          else Prepared(db.(
                        jobs := db.jobs[g := job.(status := LzReceiveTxEnqueued)],
                        packets := MovePacket(db.packets, g, LzReceiveFailed, LzReceiveTxEnqueued)))
  }

  /** Prepare the workflow and clone, in one transaction. */
  function PreparedClone(db: Db, id: nat): (out: Outcome<nat>)
    requires id in db.outbox
    ensures out.db == db.(outbox := out.db.outbox, nextId := out.db.nextId, jobs := out.db.jobs, packets := out.db.packets)
    ensures SameSources(db.packets, out.db.packets)
  {
    match PrepareReceiptRetryWorkflow(db, id)
    case WorkflowError(e) => Unchanged(db, e)
    case NotPrepared(db1) => Outcome(db1, Err(NoFailedTxRetry))
    case Prepared(db1) =>
      var cloned := CloneFailedTxRetry(db1, id);
      // A refused clone rolls the whole transaction back, the restored job included.
      if cloned.reply.Err? then Unchanged(db, cloned.reply.error) else cloned
  }

  /** Clone a receipt-failed row; lzReceive rows are gated inside their workflow step. */
  function GatedClone(db: Db, id: nat, now: int, refusal: StoreError): (out: Outcome<nat>)
    requires id in db.outbox
    ensures out.db == db.(outbox := out.db.outbox, nextId := out.db.nextId, jobs := out.db.jobs, packets := out.db.packets)
    ensures SameSources(db.packets, out.db.packets)
  {
    var row := db.outbox[id];
    var scope := if row.req.purpose.LzReceive? then Active else ScopeOf(db, row.req);
    if scope.Malformed? then Unchanged(db, ScopeMalformed)
    else if scope.Inactive? then Outcome(SetRow(db, id, Deferred(row, now)), Err(refusal))
    else PreparedClone(db, id)
  }

  /** Statuses in which a pricing snapshot can still land on chain. */
  predicate PricingPending(status: TxStatus) {
    status in {Queued, NonceAssigned, Signed, Broadcast, Held}
  }

  /** Another snapshot for the same feed is in flight and could mine before this row's nonce. */
  predicate FeedHasRival(outbox: map<nat, Row>, row: Row)
    requires row.nonce.Some?
  {
    exists o :: o in outbox
      && outbox[o].req.chain == row.req.chain && outbox[o].req.purpose == row.req.purpose
      && outbox[o].req.to == row.req.to && PricingPending(outbox[o].status)
      && !(outbox[o].req.signer == row.req.signer && outbox[o].nonce.Some? && outbox[o].nonce.value > row.nonce.value)
  }

  predicate ClonePath(row: Row) {
    row.nonce.Some? && row.failure == Some(ReceiptFailed)
  }

  /** The operator's retry of one failed row. */
  function RetryFailedTx(db: Db, id: nat, now: int): (out: Outcome<nat>)
    ensures out.db == db.(outbox := out.db.outbox, nextId := out.db.nextId, jobs := out.db.jobs, packets := out.db.packets)
    ensures SameSources(db.packets, out.db.packets)
  {
    if id !in db.outbox || db.outbox[id].status != Failed then Unchanged(db, NotFailed)
    else
      var row := db.outbox[id];
      if row.failure == Some(Canceled) || row.failure == Some(NonceConsumedExternally) then Unchanged(db, NotRetryable)
      else if row.pin.Some? && row.failure != Some(ReceiptFailed) then Unchanged(db, PinnedReceipt)
      else if row.req.purpose.PricingSnapshot? && (row.nonce.None? || row.failure == Some(ReceiptFailed)) then
        Unchanged(db, PricingNotRetryable)
      else if row.req.purpose.PricingSnapshot? && FeedHasRival(db.outbox, row) then Unchanged(db, FeedBusy)
      else if !ClonePath(row) then GatedRequeue(db, id, now, ScopeInactive)
      else GatedClone(db, id, now, ScopeInactive)
  }

  /** A failed row that the automatic retry loop may promote at time `now`. */
  predicate AutoRetryDue(db: Db, chain: Eid, signer: string, now: int, id: nat) {
    && id in db.outbox
    && var row := db.outbox[id];
       && row.req.chain == chain && row.req.signer == signer
       && row.status == Failed
       && row.attempts < TX_AUTO_RETRY_MAX_ATTEMPTS
       && row.nextRetryAt.Some? && row.nextRetryAt.value <= now
       && (row.failure == Some(EstimateGasRevert) || row.failure == Some(ReceiptFailed))
       && !row.req.purpose.PricingSnapshot?
       && !HasChild(db.outbox, id)
  }

  /** The due row the query returns: earliest retry time, then lowest id, skipping rows that
      other transactions hold locked. */
  predicate AutoRetryPick(db: Db, chain: Eid, signer: string, now: int, locked: set<nat>, id: nat) {
    && AutoRetryDue(db, chain, signer, now, id) && id !in locked
    && forall o :: o in db.outbox && o !in locked && AutoRetryDue(db, chain, signer, now, o) ==>
         var (a, b) := (db.outbox[id].nextRetryAt.value, db.outbox[o].nextRetryAt.value);
         a < b || (a == b && id <= o)
  }

  /** The automatic retry of the row `pick` that the query selected. */
  function PrepareNextFailedTxRetry(db: Db, pick: Option<nat>, now: int): (out: Outcome<nat>)
    requires pick.Some? ==> pick.value in db.outbox && db.outbox[pick.value].status == Failed
    ensures out.db == db.(outbox := out.db.outbox, nextId := out.db.nextId, jobs := out.db.jobs, packets := out.db.packets)
    ensures SameSources(db.packets, out.db.packets)
  {
    if pick.None? then Unchanged(db, NoFailedTxRetry)
    else
      var row := db.outbox[pick.value];
      if row.nonce.None? || row.failure == Some(EstimateGasRevert) then
        GatedRequeue(db, pick.value, now, NoFailedTxRetry)
      else if row.failure == Some(ReceiptFailed) then GatedClone(db, pick.value, now, NoFailedTxRetry)
      else Unchanged(db, NoFailedTxRetry)
  }

  // ----- nonces -----

  /** Rows of the lane that hold a nonce. */
  predicate Holds(db: Db, lane: Lane, id: nat) {
    id in db.outbox && LaneOf(db.outbox[id]) == lane && db.outbox[id].nonce.Some?
  }

  /** `n` is one past the largest recorded nonce of the lane, or zero when there is none. */
  ghost predicate LocalNext(db: Db, lane: Lane, n: nat) {
    && (forall id :: Holds(db, lane, id) ==> db.outbox[id].nonce.value < n)
    && (n != 0 ==> exists id :: Holds(db, lane, id) && db.outbox[id].nonce.value == n - 1)
  }

  function Max(a: nat, b: nat): nat {
    if a < b then b else a
  }

  /** First-use bootstrap; `local` is the result of scanning the recorded nonces. */
  function BootstrapTxNonceCursor(db: Db, lane: Lane, rpcPending: nat, local: nat): (out: Outcome<bool>)
    ensures out.db == db.(cursors := out.db.cursors)
  {
    if lane.chain == 0 || lane.signer == "" || rpcPending > MAX_DB_NONCE then Unchanged(db, InvalidArgument)
    else if local > MAX_DB_NONCE then Unchanged(db, NonceOverflow)
    else if lane in db.cursors then Outcome(db, Ok(false))
    else Outcome(db.(cursors := db.cursors[lane := Max(local, rpcPending)]), Ok(true))
  }

  function ClaimCursorNonce(db: Db, lane: Lane): Outcome<nat> {
    if lane !in db.cursors then Unchanged(db, NonceCursorMissing)
    else if db.cursors[lane] >= MAX_DB_NONCE then Unchanged(db, NonceOverflow)
    else Outcome(db.(cursors := db.cursors[lane := db.cursors[lane] + 1]), Ok(db.cursors[lane]))
  }

  /** A row the signer may pick up next. */
  predicate Sendable(db: Db, lane: Lane, now: int, id: nat) {
    && id in db.outbox
    && var row := db.outbox[id];
       && LaneOf(row) == lane
       && (row.status == Queued || row.status == NonceAssigned)
       && (row.signing.nextSignAt.None? || row.signing.nextSignAt.value <= now)
       && LeaseFree(row, now)
       && !row.signing.cancelRequested
       && row.pin.None?
       && SendScopeActiveSql(db, row)
  }

  /** Selection order: nonce-assigned rows first, then by nonce (rows without one last), then by id. */
  predicate SendsBefore(a: Row, aId: nat, b: Row, bId: nat) {
    if a.status != b.status then a.status == NonceAssigned
    else if a.nonce.Some? && b.nonce.Some? && a.nonce.value != b.nonce.value then a.nonce.value < b.nonce.value
    else if a.nonce.Some? != b.nonce.Some? then a.nonce.Some?
    else aId <= bId
  }
}
