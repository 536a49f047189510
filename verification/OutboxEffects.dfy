/** What one step of any kind can do to the outbox. Every later property of rows, nonces and
    lineages is proved from this summary instead of from the twenty-five step bodies. */
module OutboxEffects {
  import opened Tables
  import opened SendScope
  import opened Outbox
  import opened Receipts
  import opened Jobs
  import opened Runs

  /** The nonce of a failed row is spent for good: it mined, or the chain consumed it elsewhere. */
  predicate Consumed(row: Row) {
    && row.status == Failed
    && ((row.pin.Some? && !row.pin.value.outcome.OutcomeConfirmed?) || row.failure == Some(NonceConsumedExternally))
  }

  /** Facts that hold of every stored row on its own. */
  predicate RowOk(row: Row) {
    && (row.pin.Some? ==> row.nonce.Some?)
    && (row.pin.Some? && row.status == Failed ==> !row.pin.value.outcome.OutcomeConfirmed?)
    && (row.failure == Some(ReceiptFailed) ==> row.pin.Some?)
    && (row.failure.Some? ==> row.status == Failed)
    && (row.failure == Some(EstimateGasRevert) ==> row.pin.None?)
    && (row.nonce.None? ==> row.status == Queued || row.status == Failed)
    && (PacketPurpose(row.req.purpose) ==> row.req.guid.Some?)
  }

  /** A retry in place. */
  ghost predicate IsRequeue(db: Db, row: Row, after: Row) {
    && row.status == Failed && row.pin.None? && !Consumed(row)
    && ScopeOf(db, row.req).Active?
    && after.status == Queued && after.attempts == row.attempts + 1 && after.failure.None?
  }

  /** A fresh nonce taken from the lane's cursor. */
  ghost predicate IsClaim(db: Db, db': Db, row: Row, after: Row) {
    var lane := LaneOf(row);
    && row.nonce.None? && row.status == Queued && ScopeOf(db, row.req).Active?
    && lane in db.cursors && db.cursors[lane] < MAX_DB_NONCE
    && after.nonce == Some(db.cursors[lane])
    && db'.cursors == db.cursors[lane := db.cursors[lane] + 1]
  }

  /** How an existing row may change. */
  ghost predicate RowEdge(db: Db, db': Db, row: Row, after: Row) {
    && after.req == row.req && after.retryOf == row.retryOf
    && (after.nonce == row.nonce || IsClaim(db, db', row, after))
    && (after.attempts == row.attempts || IsRequeue(db, row, after))
    && (after.status == Queued && row.status != Queued ==> IsRequeue(db, row, after))
    && (row.pin.Some? ==> after.pin == row.pin)
    && (Consumed(row) ==> Consumed(after))
    && (RowOk(row) ==> RowOk(after))
  }

  /** Queued, and without a nonce, a receipt or a cost of its own yet. */
  predicate Blank(row: Row) {
    && row.status == Queued && row.nonce.None? && row.pin.None? && row.failure.None?
    && row.cost.dst.None? && row.cost.src.None? && !row.signing.hasAttempt
  }

  /** Row `row` repeats the request of row `parent`, charged with one more attempt. */
  ghost predicate CloneOf(db: Db, row: Row, parent: nat) {
    && parent in db.outbox && row.retryOf == Some(parent)
    && row.req == db.outbox[parent].req && row.attempts == db.outbox[parent].attempts + 1
  }

  /** A row inserted by a step: new work, or the clone of a consumed row that had no clone yet. */
  ghost predicate NewRow(db: Db, db': Db, row: Row, target: Option<nat>) {
    && Blank(row) && ScopeOf(db, row.req).Active?
    && (PacketPurpose(row.req.purpose) ==> row.req.guid.Some?)
    && (if row.retryOf.None? then target.None? && row.attempts == 0
        else
          && target == row.retryOf && CloneOf(db, row, row.retryOf.value) && !HasChild(db.outbox, row.retryOf.value)
          && row.retryOf.value in db'.outbox && Consumed(db'.outbox[row.retryOf.value]))
  }

  /** The row a step addresses, if any. */
  function Target(step: Step): Option<nat> {
    match step
    case DoEstimateRevert(id, _) => Some(id)
    case DoRetry(id, _) => Some(id)
    case DoAutoRetry(_, _, _, _, pick) => pick
    case DoClaim(id, _, _, _) => Some(id)
    case DoSendProgress(id, _, _, _) => Some(id)
    case DoPinReceipt(id, _, _, _) => Some(id)
    case DoFinalize(id, _, _, _) => Some(id)
    case DoExternalRetry(id) => Some(id)
    case DoExternalAbandon(id) => Some(id)
    case _ => None
  }

  ghost predicate Kept(db: Db, db': Db) {
    db'.outbox.Keys == db.outbox.Keys && db'.nextId == db.nextId
  }

  ghost predicate Grown(db: Db, db': Db, target: Option<nat>) {
    && db'.outbox.Keys == db.outbox.Keys + {db.nextId} && db'.nextId == db.nextId + 1
    && db'.cursors == db.cursors
    && NewRow(db, db', db'.outbox[db.nextId], target)
  }

  ghost predicate Effect(db: Db, db': Db, target: Option<nat>) {
    && (Kept(db, db') || Grown(db, db', target))
    && forall id :: id in db.outbox ==>
         && (Some(id) != target ==> db'.outbox[id] == db.outbox[id])
         && RowEdge(db, db', db.outbox[id], db'.outbox[id])
  }

  ghost predicate RowsOk(db: Db) {
    forall id :: id in db.outbox ==> id < db.nextId && RowOk(db.outbox[id])
  }

  /** A retried row is consumed, older than its clone, and was charged fewer attempts. */
  ghost predicate ParentOk(db: Db, id: nat, parent: nat)
    requires id in db.outbox
  {
    && parent in db.outbox && parent < id
    && Consumed(db.outbox[parent]) && db.outbox[parent].attempts < db.outbox[id].attempts
  }

  ghost predicate ParentsOk(db: Db) {
    forall id :: id in db.outbox && db.outbox[id].retryOf.Some? ==> ParentOk(db, id, db.outbox[id].retryOf.value)
  }

  ghost predicate OneChildEach(db: Db) {
    forall a, b ::
      (a in db.outbox && b in db.outbox && db.outbox[a].retryOf.Some? && db.outbox[a].retryOf == db.outbox[b].retryOf)
      ==> a == b
  }

  /** Ids come from a sequence, rows are sound one by one, and only consumed rows have a clone, at
      most one each. */
  ghost predicate WellFormed(db: Db) {
    RowsOk(db) && ParentsOk(db) && OneChildEach(db)
  }

  // ----- assembling the summary -----

  lemma SameRow(db: Db, db': Db, row: Row)
    ensures RowEdge(db, db', row, row)
  {
  }

  lemma NoEffect(db: Db, db': Db, target: Option<nat>)
    requires db'.outbox == db.outbox && db'.nextId == db.nextId
    ensures Effect(db, db', target)
  {
    forall id | id in db.outbox ensures RowEdge(db, db', db.outbox[id], db'.outbox[id]) {
      SameRow(db, db', db.outbox[id]);
    }
  }

  lemma EditEffect(db: Db, db': Db, id: nat, after: Row)
    requires id in db.outbox && db'.outbox == db.outbox[id := after] && db'.nextId == db.nextId
    requires RowEdge(db, db', db.outbox[id], after)
    ensures Effect(db, db', Some(id))
  {
    assert Kept(db, db');
    forall o | o in db.outbox ensures RowEdge(db, db', db.outbox[o], db'.outbox[o]) {
      if o != id { SameRow(db, db', db.outbox[o]); }
    }
  }

  lemma InsertEffect(db: Db, db': Db, row: Row)
    requires db.nextId !in db.outbox && db'.outbox == db.outbox[db.nextId := row] && db'.nextId == db.nextId + 1
    requires db'.cursors == db.cursors && ScopeOf(db, row.req).Active? && row == FreshRow(row.req)
    ensures Effect(db, db', None)
  {
    assert Grown(db, db', None);
    forall o | o in db.outbox ensures RowEdge(db, db', db.outbox[o], db'.outbox[o]) {
      SameRow(db, db', db.outbox[o]);
    }
  }

  lemma ReplaceEffect(db: Db, db': Db, id: nat, after: Row)
    requires id in db.outbox && db.nextId !in db.outbox
    requires db'.outbox == db.outbox[id := after][db.nextId := CloneRow(db.outbox[id], id)]
    requires db'.nextId == db.nextId + 1 && db'.cursors == db.cursors
    requires ScopeOf(db, db.outbox[id].req).Active? && !HasChild(db.outbox, id) && Consumed(after)
    requires RowEdge(db, db', db.outbox[id], after)
    ensures Effect(db, db', Some(id))
  {
    assert db'.outbox[db.nextId].retryOf == Some(id);
    assert Grown(db, db', Some(id));
    forall o | o in db.outbox ensures RowEdge(db, db', db.outbox[o], db'.outbox[o]) {
      if o != id { SameRow(db, db', db.outbox[o]); }
    }
  }

  // ----- the steps that touch the outbox -----

  lemma RequeuedEffect(db: Db, id: nat)
    requires id in db.outbox && db.outbox[id].status == Failed && db.outbox[id].failure != Some(NonceConsumedExternally)
    requires db.outbox[id].pin.None? && ScopeOf(db, db.outbox[id].req).Active?
    ensures Effect(db, SetRow(db, id, Requeued(db.outbox[id])), Some(id))
  {
    EditEffect(db, SetRow(db, id, Requeued(db.outbox[id])), id, Requeued(db.outbox[id]));
  }

  /** How a gated requeue can end: refused, deferred or carried out. */
  lemma RequeueEnds(db: Db, id: nat, now: int, refusal: StoreError)
    requires id in db.outbox && db.outbox[id].status == Failed
    ensures var (row, db') := (db.outbox[id], GatedRequeue(db, id, now, refusal).db);
      || db' == db
      || db' == SetRow(db, id, Deferred(row, now))
      || (row.pin.None? && ScopeOf(db, row.req).Active? && db' == SetRow(db, id, Requeued(row)))
  {
  }

  lemma RequeueEffect(db: Db, id: nat, now: int, refusal: StoreError)
    requires id in db.outbox && db.outbox[id].status == Failed && RowOk(db.outbox[id])
    requires db.outbox[id].failure != Some(NonceConsumedExternally)
    ensures Effect(db, GatedRequeue(db, id, now, refusal).db, Some(id))
  {
    RequeueEnds(db, id, now, refusal);
    RequeueEndedEffect(db, id, now, GatedRequeue(db, id, now, refusal).db);
  }

  lemma RequeueEndedEffect(db: Db, id: nat, now: int, db': Db)
    requires id in db.outbox && db.outbox[id].status == Failed && db.outbox[id].failure != Some(NonceConsumedExternally)
    requires
      || db' == db
      || db' == SetRow(db, id, Deferred(db.outbox[id], now))
      || (db.outbox[id].pin.None? && ScopeOf(db, db.outbox[id].req).Active? && db' == SetRow(db, id, Requeued(db.outbox[id])))
    ensures Effect(db, db', Some(id))
  {
    if db' == db {
      NoEffect(db, db, Some(id));
    } else if db' == SetRow(db, id, Deferred(db.outbox[id], now)) {
      DeferEffect(db, id, now);
    } else {
      RequeuedEffect(db, id);
    }
  }

  lemma WorkflowEffect(db: Db, id: nat)
    requires id in db.outbox && db.outbox[id].status == Failed && RowOk(db.outbox[id])
    ensures match PrepareReceiptRetryWorkflow(db, id)
            case WorkflowError(_) => true
            case NotPrepared(db1) =>
              db1.outbox == db.outbox[id := Finalized(db.outbox[id])] && db1.nextId == db.nextId && db1.cursors == db.cursors
            case Prepared(db1) =>
              && db1.outbox == db.outbox && db1.nextId == db.nextId && db1.cursors == db.cursors
              && (db.outbox[id].req.purpose.LzReceive? ==> ScopeOf(db, db.outbox[id].req).Active?)
  {
  }

  /** How a gated clone can end: refused, deferred, finalized, or carried out. */
  lemma CloneEnds(db: Db, id: nat, now: int, refusal: StoreError)
    requires id in db.outbox
    ensures var (out, work) := (GatedClone(db, id, now, refusal), PrepareReceiptRetryWorkflow(db, id));
      || out.db == db
      || out.db == SetRow(db, id, Deferred(db.outbox[id], now))
      || (work.NotPrepared? && out.db == work.db)
      || (work.Prepared? && CloneFailedTxRetry(work.db, id).reply.Ok? && out.db == CloneFailedTxRetry(work.db, id).db
          && (db.outbox[id].req.purpose.LzReceive? || ScopeOf(db, db.outbox[id].req).Active?))
  {
  }

  lemma DeferEffect(db: Db, id: nat, now: int)
    requires id in db.outbox
    ensures Effect(db, SetRow(db, id, Deferred(db.outbox[id], now)), Some(id))
  {
    EditEffect(db, SetRow(db, id, Deferred(db.outbox[id], now)), id, Deferred(db.outbox[id], now));
  }

  lemma FinalizedEffect(db: Db, db': Db, id: nat)
    requires id in db.outbox && RowOk(db.outbox[id]) && ClonePath(db.outbox[id]) && db.outbox[id].status == Failed
    requires db'.outbox == db.outbox[id := Finalized(db.outbox[id])] && db'.nextId == db.nextId
    ensures Effect(db, db', Some(id))
  {
    EditEffect(db, db', id, Finalized(db.outbox[id]));
  }

  lemma CloneEffect(db: Db, id: nat, now: int, refusal: StoreError)
    requires id in db.outbox && RowOk(db.outbox[id]) && ClonePath(db.outbox[id]) && db.outbox[id].status == Failed
    requires db.nextId !in db.outbox
    ensures Effect(db, GatedClone(db, id, now, refusal).db, Some(id))
  {
    CloneEnds(db, id, now, refusal);
    WorkflowEffect(db, id);
    EndedEffect(db, id, now, PrepareReceiptRetryWorkflow(db, id), GatedClone(db, id, now, refusal).db);
  }

  lemma EndedEffect(db: Db, id: nat, now: int, work: Workflow, db': Db)
    requires id in db.outbox && RowOk(db.outbox[id]) && ClonePath(db.outbox[id]) && db.outbox[id].status == Failed
    requires db.nextId !in db.outbox
    requires work.NotPrepared? ==> work.db.outbox == db.outbox[id := Finalized(db.outbox[id])] && work.db.nextId == db.nextId
    requires work.Prepared? ==>
      && work.db.outbox == db.outbox && work.db.nextId == db.nextId && work.db.cursors == db.cursors
      && (db.outbox[id].req.purpose.LzReceive? ==> ScopeOf(db, db.outbox[id].req).Active?)
    requires
      || db' == db
      || db' == SetRow(db, id, Deferred(db.outbox[id], now))
      || (work.NotPrepared? && db' == work.db)
      || (work.Prepared? && CloneFailedTxRetry(work.db, id).reply.Ok? && db' == CloneFailedTxRetry(work.db, id).db
          && (db.outbox[id].req.purpose.LzReceive? || ScopeOf(db, db.outbox[id].req).Active?))
    ensures Effect(db, db', Some(id))
  {
    if db' == db {
      NoEffect(db, db, Some(id));
    } else if db' == SetRow(db, id, Deferred(db.outbox[id], now)) {
      DeferEffect(db, id, now);
    } else if work.NotPrepared? {
      FinalizedEffect(db, work.db, id);
    } else {
      CloneInsert(db, work.db, id);
    }
  }

  lemma CloneInsert(db: Db, db1: Db, id: nat)
    requires id in db.outbox && RowOk(db.outbox[id]) && ClonePath(db.outbox[id]) && db.outbox[id].status == Failed
    requires db.nextId !in db.outbox && ScopeOf(db, db.outbox[id].req).Active?
    requires db1.outbox == db.outbox && db1.nextId == db.nextId && db1.cursors == db.cursors
    requires CloneFailedTxRetry(db1, id).reply.Ok?
    ensures Effect(db, CloneFailedTxRetry(db1, id).db, Some(id))
  {
    var row := db.outbox[id];
    var after := row.(nextRetryAt := None);
    var db' := CloneFailedTxRetry(db1, id).db;
    assert db'.outbox == db.outbox[id := after][db.nextId := CloneRow(row, id)];
    ReplaceEffect(db, db', id, after);
  }

  // ----- what a retry does to its row -----

  /** A retry requeues the row, pushes its next try back, or clears what asks for a retry. */
  predicate Retried(row: Row, after: Row) {
    && after == row.(status := after.status, attempts := after.attempts, failure := after.failure, nextRetryAt := after.nextRetryAt)
    && (|| (after.status == Queued && after.failure.None?)
        || (after.status == row.status && (after.failure == row.failure || after.failure.None?)))
  }

  lemma RequeueRow(db: Db, id: nat, now: int, refusal: StoreError)
    requires id in db.outbox && db.outbox[id].status == Failed
    ensures var db' := GatedRequeue(db, id, now, refusal).db; id in db'.outbox && Retried(db.outbox[id], db'.outbox[id])
  {
    RequeueEnds(db, id, now, refusal);
  }

  lemma CloneRowEnds(db: Db, id: nat, now: int, work: Workflow, db': Db)
    requires id in db.outbox && db.nextId !in db.outbox
    requires work.NotPrepared? ==> work.db.outbox == db.outbox[id := Finalized(db.outbox[id])]
    requires work.Prepared? ==> work.db.outbox == db.outbox && work.db.nextId == db.nextId
    requires
      || db' == db
      || db' == SetRow(db, id, Deferred(db.outbox[id], now))
      || (work.NotPrepared? && db' == work.db)
      || (work.Prepared? && CloneFailedTxRetry(work.db, id).reply.Ok? && db' == CloneFailedTxRetry(work.db, id).db)
    ensures id in db'.outbox && Retried(db.outbox[id], db'.outbox[id])
  {
  }

  lemma ClonedRow(db: Db, id: nat, now: int, refusal: StoreError)
    requires id in db.outbox && db.outbox[id].status == Failed && RowOk(db.outbox[id]) && db.nextId !in db.outbox
    ensures var db' := GatedClone(db, id, now, refusal).db; id in db'.outbox && Retried(db.outbox[id], db'.outbox[id])
  {
    CloneEnds(db, id, now, refusal);
    WorkflowEffect(db, id);
    CloneRowEnds(db, id, now, PrepareReceiptRetryWorkflow(db, id), GatedClone(db, id, now, refusal).db);
  }

  /** The operator's retry changes nothing, requeues in place, or clones. */
  lemma RetryPaths(db: Db, id: nat, now: int)
    ensures var db' := RetryFailedTx(db, id, now).db;
      || db' == db
      || (&& id in db.outbox && db.outbox[id].status == Failed
          && (db' == GatedRequeue(db, id, now, ScopeInactive).db || db' == GatedClone(db, id, now, ScopeInactive).db))
  {
  }

  lemma AutoRetryPaths(db: Db, id: nat, now: int)
    requires id in db.outbox && db.outbox[id].status == Failed
    ensures var db' := PrepareNextFailedTxRetry(db, Some(id), now).db;
      db' == db || db' == GatedRequeue(db, id, now, NoFailedTxRetry).db || db' == GatedClone(db, id, now, NoFailedTxRetry).db
  {
  }

  lemma RetryRow(db: Db, id: nat, now: int)
    requires id in db.outbox && RowOk(db.outbox[id]) && db.nextId !in db.outbox
    ensures var db' := RetryFailedTx(db, id, now).db; id in db'.outbox && Retried(db.outbox[id], db'.outbox[id])
  {
    RetryPaths(db, id, now);
    if db.outbox[id].status == Failed {
      RequeueRow(db, id, now, ScopeInactive);
      ClonedRow(db, id, now, ScopeInactive);
    }
  }

  lemma AutoRetryRow(db: Db, id: nat, now: int)
    requires id in db.outbox && db.outbox[id].status == Failed && RowOk(db.outbox[id]) && db.nextId !in db.outbox
    ensures var db' := PrepareNextFailedTxRetry(db, Some(id), now).db;
      id in db'.outbox && Retried(db.outbox[id], db'.outbox[id])
  {
    AutoRetryPaths(db, id, now);
    RequeueRow(db, id, now, NoFailedTxRetry);
    ClonedRow(db, id, now, NoFailedTxRetry);
  }

  lemma OtherRowsStay(db: Db, db': Db, target: Option<nat>, id: nat)
    requires Effect(db, db', target) && id in db.outbox && target != Some(id)
    ensures id in db'.outbox && db'.outbox[id] == db.outbox[id]
  {
  }

  lemma EstimateEffect(db: Db, id: nat, now: int)
    ensures Effect(db, MarkQueuedTxEstimateRevertFailed(db, id, now).db, Some(id))
  {
    var db' := MarkQueuedTxEstimateRevertFailed(db, id, now).db;
    if db' == db { NoEffect(db, db', Some(id)); } else { EditEffect(db, db', id, db'.outbox[id]); }
  }

  lemma FreshClaim(db: Db, id: nat, lane: Lane, until: int)
    requires id in db.outbox && ClaimFresh(db, id, lane, until).reply.Ok? && db.outbox[id].status == Queued
    requires db.outbox[id].nonce.None? && db.outbox[id].pin.None? && LaneOf(db.outbox[id]) == lane
    ensures Effect(db, ClaimFresh(db, id, lane, until).db, Some(id))
  {
    var db' := ClaimFresh(db, id, lane, until).db;
    assert ClaimedFrom(db, db', db.outbox[id], db'.outbox[id]);
    EditEffect(db, db', id, db'.outbox[id]);
  }

  lemma RepeatClaim(db: Db, id: nat, lane: Lane, until: int)
    requires id in db.outbox && ClaimAgain(db, id, lane, until).reply.Ok? && db.outbox[id].pin.None?
    ensures Effect(db, ClaimAgain(db, id, lane, until).db, Some(id))
  {
    var db' := ClaimAgain(db, id, lane, until).db;
    assert ClaimedFrom(db, db', db.outbox[id], db'.outbox[id]);
    EditEffect(db, db', id, db'.outbox[id]);
  }

  lemma ClaimErr(db: Db, id: nat, lane: Lane, now: int, ttl: nat)
    requires ClaimOutboxForSigning(db, id, lane, now, ttl).reply.Err?
    ensures ClaimOutboxForSigning(db, id, lane, now, ttl).db == db
  {
  }

  predicate NeedsNonce(row: Row) {
    row.status == Queued && row.nonce.None?
  }

  lemma ClaimOk(db: Db, id: nat, lane: Lane, now: int, ttl: nat)
    requires ClaimOutboxForSigning(db, id, lane, now, ttl).reply.Ok?
    ensures id in db.outbox && db.outbox[id].pin.None? && LaneOf(db.outbox[id]) == lane
    ensures ClaimOutboxForSigning(db, id, lane, now, ttl)
         == if NeedsNonce(db.outbox[id]) then ClaimFresh(db, id, lane, now + ttl) else ClaimAgain(db, id, lane, now + ttl)
  {
  }

  lemma ClaimedEffect(db: Db, id: nat, lane: Lane, until: int, out: Outcome<nat>)
    requires id in db.outbox && db.outbox[id].pin.None? && LaneOf(db.outbox[id]) == lane && out.reply.Ok?
    requires out == if NeedsNonce(db.outbox[id]) then ClaimFresh(db, id, lane, until) else ClaimAgain(db, id, lane, until)
    ensures Effect(db, out.db, Some(id))
  {
    if NeedsNonce(db.outbox[id]) { FreshClaim(db, id, lane, until); } else { RepeatClaim(db, id, lane, until); }
  }

  lemma ClaimEffect(db: Db, id: nat, lane: Lane, now: int, ttl: nat)
    ensures Effect(db, ClaimOutboxForSigning(db, id, lane, now, ttl).db, Some(id))
  {
    var out := ClaimOutboxForSigning(db, id, lane, now, ttl);
    if out.reply.Err? {
      ClaimErr(db, id, lane, now, ttl);
      NoEffect(db, db, Some(id));
    } else {
      ClaimOk(db, id, lane, now, ttl);
      ClaimedEffect(db, id, lane, now + ttl, out);
    }
  }

  /** What a claim does to its row. */
  ghost predicate ClaimedFrom(db: Db, db': Db, row: Row, after: Row) {
    && after == row.(nonce := after.nonce, status := NonceAssigned, signing := after.signing)
    && row.pin.None? && (row.status == Queued || row.status == NonceAssigned)
    && (if row.nonce.None? then IsClaim(db, db', row, after) else after.nonce == row.nonce)
  }

  lemma ProgressEffect(db: Db, id: nat, status: TxStatus, held: Option<HeldReason>, signing: Signing)
    ensures Effect(db, SendProgress(db, id, status, held, signing).db, Some(id))
  {
    var db' := SendProgress(db, id, status, held, signing).db;
    if db' == db { NoEffect(db, db', Some(id)); } else { EditEffect(db, db', id, db'.outbox[id]); }
  }

  lemma PinEffect(db: Db, id: nat, attempt: nat, cancelAttempt: bool, success: bool)
    ensures Effect(db, PrepareReceiptResolution(db, id, attempt, cancelAttempt, success).db, Some(id))
  {
    var db' := PrepareReceiptResolution(db, id, attempt, cancelAttempt, success).db;
    if db' == db { NoEffect(db, db', Some(id)); } else { EditEffect(db, db', id, db'.outbox[id]); }
  }

  lemma FinalizeEffect(db: Db, id: nat, attempt: nat, costDst: nat, now: int)
    requires id in db.outbox ==> RowOk(db.outbox[id])
    ensures Effect(db, FinalizeAttemptReceipt(db, id, attempt, costDst, now).db, Some(id))
  {
    var out := FinalizeAttemptReceipt(db, id, attempt, costDst, now);
    if out.reply.Err? { NoEffect(db, out.db, Some(id)); } else { EditEffect(db, out.db, id, out.db.outbox[id]); }
  }

  lemma ExternalRetryEffect(db: Db, id: nat)
    requires db.nextId !in db.outbox
    requires id in db.outbox && db.outbox[id].status == Held ==> !HasChild(db.outbox, id)
    ensures Effect(db, ResolveExternalNonceRetry(db, id).db, Some(id))
  {
    var out := ResolveExternalNonceRetry(db, id);
    if out.reply.Err? { NoEffect(db, out.db, Some(id)); }
    else { ReplaceEffect(db, out.db, id, TerminalizedExternally(db.outbox[id])); }
  }

  lemma ExternalAbandonEffect(db: Db, id: nat)
    ensures Effect(db, ResolveExternalNonceAbandon(db, id).db, Some(id))
  {
    var out := ResolveExternalNonceAbandon(db, id);
    if out.reply.Err? { NoEffect(db, out.db, Some(id)); } else { EditEffect(db, out.db, id, out.db.outbox[id]); }
  }

  lemma RetryEffect(db: Db, id: nat, now: int)
    requires db.nextId !in db.outbox && (id in db.outbox ==> RowOk(db.outbox[id]))
    ensures Effect(db, RetryFailedTx(db, id, now).db, Some(id))
  {
    var db' := RetryFailedTx(db, id, now).db;
    if db' == db {
      NoEffect(db, db', Some(id));
    } else if ClonePath(db.outbox[id]) {
      CloneEffect(db, id, now, ScopeInactive);
    } else {
      RequeueEffect(db, id, now, ScopeInactive);
    }
  }

  lemma AutoRetryEffect(db: Db, pick: Option<nat>, now: int)
    requires db.nextId !in db.outbox
    requires pick.Some? ==> pick.value in db.outbox && RowOk(db.outbox[pick.value]) && db.outbox[pick.value].status == Failed
    requires pick.Some? ==> db.outbox[pick.value].failure != Some(NonceConsumedExternally)
    ensures Effect(db, PrepareNextFailedTxRetry(db, pick, now).db, pick)
  {
    var db' := PrepareNextFailedTxRetry(db, pick, now).db;
    if db' == db {
      NoEffect(db, db', pick);
    } else if ClonePath(db.outbox[pick.value]) {
      CloneEffect(db, pick.value, now, NoFailedTxRetry);
    } else {
      RequeueEffect(db, pick.value, now, NoFailedTxRetry);
    }
  }

  lemma SendingEffect(db: Db, step: Step)
    requires Permitted(db, step) && SendingStep(step) && db.nextId !in db.outbox
    requires Target(step).Some? && Target(step).value in db.outbox ==>
      && RowOk(db.outbox[Target(step).value])
      && (db.outbox[Target(step).value].status == Held ==> !HasChild(db.outbox, Target(step).value))
    ensures Effect(db, SendingNext(db, step), Target(step))
  {
    match step
    case DoEnqueueTx(req) => EnqueueEffect(db, req);
    case DoEstimateRevert(id, now) => EstimateEffect(db, id, now);
    case DoRetry(id, now) => RetryEffect(db, id, now);
    case DoAutoRetry(_, _, now, _, pick) => AutoRetryEffect(db, pick, now);
    case DoClaim(id, lane, now, ttl) => ClaimEffect(db, id, lane, now, ttl);
    case DoSendProgress(id, status, held, signing) => ProgressEffect(db, id, status, held, signing);
    case DoPinReceipt(id, attempt, cancelAttempt, success) => PinEffect(db, id, attempt, cancelAttempt, success);
    case DoFinalize(id, attempt, costDst, now) => FinalizeEffect(db, id, attempt, costDst, now);
    case DoExternalRetry(id) => ExternalRetryEffect(db, id);
    case DoExternalAbandon(id) => ExternalAbandonEffect(db, id);
    case DoBootstrap(lane, rpcPending, local) => NoEffect(db, BootstrapTxNonceCursor(db, lane, rpcPending, local).db, None);
    case DoForwardCursor(lane, confirmed) => NoEffect(db, ForwardCursor(db, lane, confirmed).db, None);
  }

  lemma EnqueueEffect(db: Db, req: TxRequest)
    requires db.nextId !in db.outbox
    ensures Effect(db, EnqueueTx(db, req).db, None)
  {
    var out := EnqueueTx(db, req);
    if out.reply.Err? { NoEffect(db, out.db, None); } else { InsertEffect(db, out.db, FreshRow(req)); }
  }

  lemma ExecutorEnqueueEffect(db: Db, g: Guid, expected: ExecutorStatus, next: ExecutorStatus, req: TxRequest)
    requires db.nextId !in db.outbox
    ensures Effect(db, EnqueueExecutorTx(db, g, expected, next, req).db, None)
  {
    var out := EnqueueExecutorTx(db, g, expected, next, req);
    if out.reply.Err? { NoEffect(db, out.db, None); } else { InsertEffect(db, out.db, out.db.outbox[db.nextId]); }
  }

  lemma DvnEnqueueEffect(db: Db, g: Guid, expected: DvnStatus, next: DvnStatus, req: TxRequest)
    requires db.nextId !in db.outbox
    ensures Effect(db, EnqueueDvnVerifyTx(db, g, expected, next, req).db, None)
  {
    var out := EnqueueDvnVerifyTx(db, g, expected, next, req);
    if out.reply.Err? { NoEffect(db, out.db, None); } else { InsertEffect(db, out.db, out.db.outbox[db.nextId]); }
  }

  lemma WorkerEffect(db: Db, step: Step)
    requires Permitted(db, step) && !SendingStep(step) && db.nextId !in db.outbox
    ensures Effect(db, WorkerNext(db, step), None)
  {
    if step.DoEnqueueExecutor? {
      ExecutorEnqueueEffect(db, step.g, step.expected, step.next, step.req);
    } else if step.DoEnqueueDvn? {
      DvnEnqueueEffect(db, step.g, ReadyToVerify, VerifyTxEnqueued, step.req);
    } else {
      WorkerFrame(db, step);
      NoEffect(db, WorkerNext(db, step), None);
    }
  }

  /** The summary holds of every permitted step. */
  lemma StepEffect(db: Db, step: Step)
    requires WellFormed(db) && Permitted(db, step)
    ensures Effect(db, Next(db, step), Target(step))
  {
    if SendingStep(step) {
      if Target(step).Some? { HeldHasNoChild(db, Target(step).value); }
      SendingEffect(db, step);
    } else {
      WorkerEffect(db, step);
    }
  }

  lemma AddressedIsSending(db: Db, step: Step)
    requires Permitted(db, step) && Target(step).Some?
    ensures SendingStep(step) && Next(db, step) == SendingNext(db, step)
  {
  }

  /** A step leaves every row alone but the one it addresses. */
  lemma UnaddressedStays(db: Db, step: Step, id: nat)
    requires WellFormed(db) && Permitted(db, step) && id in db.outbox && Target(step) != Some(id)
    ensures id in Next(db, step).outbox && Next(db, step).outbox[id] == db.outbox[id]
  {
    StepEffect(db, step);
    OtherRowsStay(db, Next(db, step), Target(step), id);
  }

  lemma HeldHasNoChild(db: Db, id: nat)
    requires WellFormed(db)
    ensures id in db.outbox && db.outbox[id].status != Failed ==> !HasChild(db.outbox, id)
  {
  }

  lemma WellFormedStep(db: Db, step: Step)
    requires WellFormed(db) && Permitted(db, step)
    ensures WellFormed(Next(db, step))
  {
    StepEffect(db, step);
    EffectKeepsWellFormed(db, Next(db, step), Target(step));
  }

  lemma EffectKeepsWellFormed(db: Db, db': Db, target: Option<nat>)
    requires WellFormed(db) && Effect(db, db', target)
    ensures WellFormed(db')
  {
    forall id | id in db'.outbox && db'.outbox[id].retryOf.Some?
      ensures ParentOk(db', id, db'.outbox[id].retryOf.value)
    {
      var parent := db'.outbox[id].retryOf.value;
      if id in db.outbox { assert ParentOk(db, id, parent); }
    }
    forall a, b | a in db'.outbox && b in db'.outbox && db'.outbox[a].retryOf.Some? && db'.outbox[a].retryOf == db'.outbox[b].retryOf
      ensures a == b
    {
      SiblingsEqual(db, db', target, a, b);
    }
  }

  lemma SiblingsEqual(db: Db, db': Db, target: Option<nat>, a: nat, b: nat)
    requires WellFormed(db) && Effect(db, db', target)
    requires a in db'.outbox && b in db'.outbox && db'.outbox[a].retryOf.Some? && db'.outbox[a].retryOf == db'.outbox[b].retryOf
    ensures a == b
  {
  }

  lemma {:induction false} WellFormedRun(run: Run)
    requires Legal(run) && WellFormed(Initial(run))
    ensures WellFormed(End(run))
  {
    if run.Then? {
      WellFormedRun(run.before);
      WellFormedStep(End(run.before), run.step);
    }
  }
}
