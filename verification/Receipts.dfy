/** Signing claims, receipt resolution and external-nonce resolution: the parts of
    go/internal/db/tx_attempts.go and go/internal/db/tx_cancel_reconcile.go that decide who may
    hold a nonce and when a row becomes terminal. */
module Receipts {
  import opened Tables
  import opened SendScope
  import opened Outbox

  predicate Terminal(status: TxStatus) {
    status == Confirmed || status == Failed
  }

  predicate ShortOfBroadcast(status: TxStatus) {
    status in {NonceAssigned, Signed, Held}
  }

  predicate LaneBusy(db: Db, lane: Lane) {
    exists o :: o in db.outbox && LaneOf(db.outbox[o]) == lane && ShortOfBroadcast(db.outbox[o].status)
  }

  predicate LowerNonceBusy(db: Db, lane: Lane, nonce: nat) {
    exists o :: o in db.outbox && LaneOf(db.outbox[o]) == lane && ShortOfBroadcast(db.outbox[o].status)
      && db.outbox[o].nonce.Some? && db.outbox[o].nonce.value < nonce
  }

  predicate Claimable(row: Row, lane: Lane, now: int) {
    LaneOf(row) == lane && LeaseFree(row, now) && !row.signing.cancelRequested && row.pin.None?
  }

  function Leased(row: Row, until: int): Row {
    row.(signing := row.signing.(leaseUntil := Some(until)))
  }

  /** A queued row without a nonce passes the scope gate and takes the cursor's nonce. */
  function ClaimFresh(db: Db, id: nat, lane: Lane, until: int): Outcome<nat>
    requires id in db.outbox
  {
    var scope := ScopeOf(db, db.outbox[id].req);
    if !scope.Active? then Unchanged(db, GateError(scope))
    else if LaneBusy(db, lane) then Unchanged(db, SignerLaneBlocked)
    else
      var claim := ClaimCursorNonce(db, lane);
      if claim.reply.Err? then Unchanged(db, claim.reply.error)
      else
        var row := db.outbox[id].(nonce := Some(claim.reply.value), status := NonceAssigned);
        Outcome(SetRow(claim.db, id, Leased(row, until)), Ok(claim.reply.value))
  }

  /** A row that holds a nonce waits for the lower nonces of its lane. */
  function ClaimAgain(db: Db, id: nat, lane: Lane, until: int): Outcome<nat>
    requires id in db.outbox
  {
    var row := db.outbox[id];
    if row.nonce.None? || (row.status != Queued && row.status != NonceAssigned) then Unchanged(db, WrongStatus)
    else if LowerNonceBusy(db, lane, row.nonce.value) then Unchanged(db, SignerLaneBlocked)
    else Outcome(SetRow(db, id, Leased(row.(status := NonceAssigned), until)), Ok(row.nonce.value))
  }

  /** Reserve a row for signing; nonce and reservation land in the same step. */
  function ClaimOutboxForSigning(db: Db, id: nat, lane: Lane, now: int, ttl: nat): (out: Outcome<nat>)
    ensures out.db == db.(outbox := out.db.outbox, cursors := out.db.cursors)
  {
    if lane.chain == 0 || lane.signer == "" || ttl == 0 then Unchanged(db, InvalidArgument)
    else if id !in db.outbox || !Claimable(db.outbox[id], lane, now) then Unchanged(db, LeaseLost)
    else if db.outbox[id].status == Queued && db.outbox[id].nonce.None? then ClaimFresh(db, id, lane, now + ttl)
    else ClaimAgain(db, id, lane, now + ttl)
  }

  /** Everything the send pipeline (attempt inserts, broadcasts, replacements, cancels, holds) may
      do to one row: it moves a live nonce-holding row among the in-flight statuses. */
  function SendProgress(db: Db, id: nat, status: TxStatus, held: Option<HeldReason>, signing: Signing): (out: Outcome<bool>)
    ensures out.db == db.(outbox := out.db.outbox)
  {
    if id !in db.outbox || db.outbox[id].nonce.None? || Terminal(db.outbox[id].status) then Outcome(db, Ok(false))
    else
      var row := db.outbox[id];
      var next := if status in {NonceAssigned, Signed, Broadcast, Held} then status else row.status;
      Outcome(SetRow(db, id, row.(status := next, held := held, signing := signing)), Ok(true))
  }

  /** Pin the terminal outcome of a confirmation-deep receipt, once. */
  function PrepareReceiptResolution(db: Db, id: nat, attempt: nat, cancelAttempt: bool, success: bool): (out: Outcome<ReceiptOutcome>)
    ensures out.db == db.(outbox := out.db.outbox)
  {
    // Attempts exist only for rows that hold a nonce.
    if id !in db.outbox || db.outbox[id].nonce.None? then Unchanged(db, RowNotFound)
    else
      var row := db.outbox[id];
      if row.pin.Some? then
        if row.pin.value.attempt == attempt then Outcome(db, Ok(row.pin.value.outcome)) else Unchanged(db, PinnedReceipt)
      else if Terminal(row.status) then Unchanged(db, WrongStatus)
      else
        var outcome :=
          if cancelAttempt || (row.signing.cancelRequested && !success) then OutcomeCanceled
          else if !success then OutcomeReceiptFailed else OutcomeConfirmed;
        Outcome(SetRow(db, id, row.(pin := Some(Pin(outcome, attempt)))), Ok(outcome))
  }

  /** Apply the pinned outcome; replays are allowed and re-apply the same outcome. */
  function FinalizeAttemptReceipt(db: Db, id: nat, attempt: nat, costDst: nat, now: int): (out: Outcome<ReceiptOutcome>)
    ensures out.db == db.(outbox := out.db.outbox)
  {
    if id !in db.outbox then Unchanged(db, RowNotFound)
    else
      var row := db.outbox[id];
      if row.pin.None? || row.pin.value.attempt != attempt then Unchanged(db, PinnedReceipt)
      else
        var done := row.(held := None, signing := Signing(None, None, false, true),
                         cost := ReceiptCost(Some(costDst), row.cost.src, now));
        var outcome := row.pin.value.outcome;
        Outcome(SetRow(db, id, Settled(done, outcome, now)), Ok(outcome))
  }

  function Settled(row: Row, outcome: ReceiptOutcome, now: int): Row {
    match outcome
    case OutcomeConfirmed => row.(status := Confirmed, failure := None, nextRetryAt := None)
    case OutcomeCanceled => row.(status := Failed, failure := Some(Canceled), nextRetryAt := None)
    case OutcomeReceiptFailed => row.(status := Failed, failure := Some(ReceiptFailed), nextRetryAt := RetryWindow(row, now))
  }

  predicate HeldExternally(row: Row) {
    row.status == Held && row.held == Some(ConsumedExternally) && row.pin.None?
  }

  function TerminalizedExternally(row: Row): Row {
    row.(status := Failed, held := None, failure := Some(NonceConsumedExternally), nextRetryAt := None,
         signing := row.signing.(cancelRequested := false, leaseUntil := None))
  }

  /** The job a packet transaction serves still waits on it. */
  function WorkflowEnqueued(db: Db, req: TxRequest): Reply<()> {
    if req.guid.None? then Ok(())
    else
      var g := req.guid.value;
      match req.purpose
      case CommitVerification =>
        if g !in db.jobs then Err(JobNotFound) else if db.jobs[g].status == CommitTxEnqueued then Ok(()) else Err(WrongStatus)
      case LzReceive =>
        if g !in db.jobs then Err(JobNotFound) else if db.jobs[g].status == LzReceiveTxEnqueued then Ok(()) else Err(WrongStatus)
      case DvnVerify =>
        if g !in db.dvn then Err(JobNotFound) else if db.dvn[g].status == VerifyTxEnqueued then Ok(()) else Err(WrongStatus)
      case _ => Ok(())
  }

  /** The operator re-executes a task whose nonce was consumed outside this system. */
  function ResolveExternalNonceRetry(db: Db, id: nat): (out: Outcome<nat>)
    ensures out.db == db.(outbox := out.db.outbox, nextId := out.db.nextId)
  {
    if id !in db.outbox then Unchanged(db, RowNotFound)
    else
      var row := db.outbox[id];
      var scope := ScopeOf(db, row.req);
      if row.req.purpose.PricingSnapshot? then Unchanged(db, PricingNotRetryable)
      else if !scope.Active? then Unchanged(db, GateError(scope))
      else if WorkflowEnqueued(db, row.req).Err? then Unchanged(db, WorkflowEnqueued(db, row.req).error)
      else if !HeldExternally(row) then Unchanged(db, NotHeldExternally)
      else Outcome(InsertRow(SetRow(db, id, TerminalizedExternally(row)), CloneRow(row, id)), Ok(db.nextId))
  }

  /** The executor statuses that wait on a packet transaction, if any. */
  function AwaitedStatus(p: Purpose): Option<ExecutorStatus> {
    match p
    case CommitVerification => Some(CommitTxEnqueued)
    case LzReceive => Some(LzReceiveTxEnqueued)
    case _ => None
  }

  /** The operator gives the transaction up: its row fails and the job it serves is parked. */
  function ResolveExternalNonceAbandon(db: Db, id: nat): (out: Outcome<bool>)
    ensures out.db == db.(outbox := out.db.outbox, jobs := out.db.jobs, packets := out.db.packets, dvn := out.db.dvn)
    ensures SameSources(db.packets, out.db.packets)
  {
    if id !in db.outbox then Unchanged(db, RowNotFound)
    else if !HeldExternally(db.outbox[id]) then Unchanged(db, NotHeldExternally)
    else
      var row := db.outbox[id];
      var closed := SetRow(db, id, TerminalizedExternally(row));
      var awaited := AwaitedStatus(row.req.purpose);
      if row.req.guid.None? then Outcome(closed, Ok(true))
      else
        var g := row.req.guid.value;
        if awaited.Some? && g in db.jobs && db.jobs[g].status == awaited.value then
          // A half-parked job and packet pair is refused.
          if g !in db.packets || db.packets[g].status != awaited.value then Unchanged(db, WrongStatus)
          else Outcome(closed.(jobs := db.jobs[g := db.jobs[g].(status := ManualReview)],
                               packets := MovePacket(db.packets, g, awaited.value, ManualReview)), Ok(true))
        else if row.req.purpose.DvnVerify? && g in db.dvn && db.dvn[g].status == VerifyTxEnqueued then
          Outcome(closed.(dvn := db.dvn[g := db.dvn[g].(status := DvnManualReview)]), Ok(true))
        else Outcome(closed, Ok(true))
  }

  /** Nonce reconciliation moves a cursor forward to the chain's confirmed nonce, never back. */
  function ForwardCursor(db: Db, lane: Lane, confirmed: nat): (out: Outcome<bool>)
    ensures out.db == db.(cursors := out.db.cursors)
  {
    if confirmed > MAX_DB_NONCE then Unchanged(db, InvalidArgument)
    else if lane !in db.cursors then Unchanged(db, NonceCursorMissing)
    else if confirmed <= db.cursors[lane] then Outcome(db, Ok(false))
    else Outcome(db.(cursors := db.cursors[lane := confirmed]), Ok(true))
  }
}
