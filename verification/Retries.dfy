/** Exactly when a retry goes ahead, what it leaves behind, and that the automatic retry queue drains
    (go/internal/db/outbox.go). */
module Retries {
  import opened Tables
  import opened SendScope
  import opened Outbox
  import opened Runs
  import opened OutboxEffects

  /** Nothing in front of the request forbids spending. */
  ghost predicate ScopeOpen(db: Db, req: TxRequest) {
    Addressed(db, req) && NothingShut(db, req)
  }

  /** The packet's job is waiting to be delivered again and has deliveries left. */
  predicate AwaitsResend(db: Db, g: Guid) {
    g in db.jobs && db.jobs[g].status == LzReceiveFailed && db.jobs[g].retryCount < 5
  }

  predicate ServesPacket(row: Row) {
    row.req.purpose.LzReceive? && row.req.guid.Some?
  }

  // ----- retry in place -----

  /** The same row is queued again, charged one attempt; nothing else changes. */
  ghost predicate QueuedAgain(db: Db, out: Outcome<nat>, id: nat) {
    && id in db.outbox && out.reply == Ok(id)
    && out.db == db.(outbox := db.outbox[id := db.outbox[id].(
         status := Queued, attempts := db.outbox[id].attempts + 1, failure := None, nextRetryAt := None)])
  }

  /** Only the row's next try moves, to one minute from now. */
  ghost predicate PutOff(db: Db, out: Outcome<nat>, id: nat, now: int) {
    id in db.outbox && out.reply.Err? && out.db == db.(outbox := db.outbox[id := db.outbox[id].(nextRetryAt := Some(now + 60))])
  }

  lemma RequeueIff(db: Db, id: nat, now: int, refusal: StoreError)
    requires id in db.outbox && db.outbox[id].status == Failed && db.outbox[id].pin.None?
    ensures var (req, out) := (db.outbox[id].req, GatedRequeue(db, id, now, refusal));
      if ScopeOpen(db, req) then QueuedAgain(db, out, id)
      else if Addressed(db, req) then PutOff(db, out, id, now) && out.reply == Err(refusal)
      else out == Unchanged(db, ScopeMalformed)
  {
    ActiveIffNothingShut(db, db.outbox[id].req);
  }

  // ----- retry by clone -----

  /** A fresh row repeats the request under a new id with one more attempt; the failed row only stops
      asking for a retry. */
  ghost predicate RowCloned(db: Db, db': Db, id: nat) {
    && id in db.outbox && id in db'.outbox && db.nextId in db'.outbox && db'.nextId == db.nextId + 1
    && db'.outbox.Keys == db.outbox.Keys + {db.nextId}
    && (forall o :: o in db.outbox && o != id ==> db'.outbox[o] == db.outbox[o])
    && var (row, clone) := (db.outbox[id], db'.outbox[db.nextId]);
       && db'.outbox[id] == row.(nextRetryAt := None)
       && Blank(clone) && clone.req == row.req && clone.attempts == row.attempts + 1 && clone.retryOf == Some(id)
  }

  /** The job of a re-sent delivery goes back to waiting for it, its packet along with it. */
  ghost predicate JobResent(db: Db, db': Db, row: Row) {
    if !ServesPacket(row) then db'.jobs == db.jobs && db'.packets == db.packets
    else
      var g := row.req.guid.value;
      && g in db.jobs && db'.jobs == db.jobs[g := db.jobs[g].(status := LzReceiveTxEnqueued)]
      && (g in db.packets && db.packets[g].status == LzReceiveFailed ==>
            db'.packets == db.packets[g := db.packets[g].(status := LzReceiveTxEnqueued)])
  }

  ghost predicate Cloned(db: Db, out: Outcome<nat>, id: nat) {
    out.reply == Ok(db.nextId) && RowCloned(db, out.db, id) && JobResent(db, out.db, db.outbox[id])
  }

  /** The workflow step lets exactly the rows through whose job can take another delivery. */
  lemma PreparedIff(db: Db, id: nat)
    requires id in db.outbox
    ensures PrepareReceiptRetryWorkflow(db, id).Prepared? <==>
      (ServesPacket(db.outbox[id]) ==> AwaitsResend(db, db.outbox[id].req.guid.value) && ScopeOpen(db, db.outbox[id].req))
  {
    ActiveIffNothingShut(db, db.outbox[id].req);
  }

  lemma PreparedJobs(db: Db, id: nat)
    requires id in db.outbox && PrepareReceiptRetryWorkflow(db, id).Prepared?
    ensures JobResent(db, PrepareReceiptRetryWorkflow(db, id).db, db.outbox[id])
  {
  }

  predicate Cloneable(db: Db, id: nat) {
    id in db.outbox && db.outbox[id].status == Failed && db.outbox[id].nonce.Some? && !HasChild(db.outbox, id)
  }

  lemma ClonesIff(db: Db, id: nat)
    requires db.nextId !in db.outbox
    ensures CloneFailedTxRetry(db, id).reply.Ok? <==> Cloneable(db, id)
    ensures CloneFailedTxRetry(db, id).reply.Ok? ==>
      CloneFailedTxRetry(db, id).reply == Ok(db.nextId) && RowCloned(db, CloneFailedTxRetry(db, id).db, id)
  {
  }

  lemma PreparedCloneIff(db: Db, id: nat)
    requires id in db.outbox && db.nextId !in db.outbox
    ensures PreparedClone(db, id).reply.Ok? <==> PrepareReceiptRetryWorkflow(db, id).Prepared? && Cloneable(db, id)
    ensures PreparedClone(db, id).reply.Ok? ==> Cloned(db, PreparedClone(db, id), id)
  {
    var work := PrepareReceiptRetryWorkflow(db, id);
    if work.Prepared? {
      ClonesIff(work.db, id);
      PreparedJobs(db, id);
    }
  }

  ghost predicate MayClone(db: Db, id: nat) {
    && Cloneable(db, id) && ScopeOpen(db, db.outbox[id].req)
    && (ServesPacket(db.outbox[id]) ==> AwaitsResend(db, db.outbox[id].req.guid.value))
  }

  lemma DeliveryCloneIff(db: Db, id: nat)
    requires id in db.outbox && db.nextId !in db.outbox && ServesPacket(db.outbox[id])
    ensures PreparedClone(db, id).reply.Ok? <==> MayClone(db, id)
  {
    PreparedIff(db, id);
    PreparedCloneIff(db, id);
  }

  lemma OtherCloneIff(db: Db, id: nat, now: int, refusal: StoreError)
    requires id in db.outbox && db.nextId !in db.outbox && !db.outbox[id].req.purpose.LzReceive?
    ensures GatedClone(db, id, now, refusal).reply.Ok? <==> MayClone(db, id)
    ensures GatedClone(db, id, now, refusal).reply.Ok? ==> GatedClone(db, id, now, refusal) == PreparedClone(db, id)
  {
    ActiveIffNothingShut(db, db.outbox[id].req);
    PreparedIff(db, id);
    PreparedCloneIff(db, id);
  }

  lemma CloneIff(db: Db, id: nat, now: int, refusal: StoreError)
    requires id in db.outbox && db.nextId !in db.outbox && RowOk(db.outbox[id])
    ensures GatedClone(db, id, now, refusal).reply.Ok? <==> MayClone(db, id)
    ensures GatedClone(db, id, now, refusal).reply.Ok? ==> Cloned(db, GatedClone(db, id, now, refusal), id)
  {
    PreparedCloneIff(db, id);
    if db.outbox[id].req.purpose.LzReceive? {
      DeliveryCloneIff(db, id);
    } else {
      OtherCloneIff(db, id, now, refusal);
    }
  }

  // ----- the automatic retry -----

  ghost predicate MayPromote(db: Db, row: Row) {
    && ScopeOpen(db, row.req)
    && (row.failure == Some(ReceiptFailed) && row.req.purpose.LzReceive? ==>
          row.req.guid.Some? && AwaitsResend(db, row.req.guid.value))
  }

  /** The row the automatic retry picked is promoted exactly when nothing in front of it is shut and,
      if it is a delivery that failed on chain, its job still waits for another one. A row that failed
      its estimate is queued again; one that failed on chain is cloned. */
  lemma PromotedIff(db: Db, chain: Eid, signer: string, now: int, locked: set<nat>, id: nat)
    requires WellFormed(db) && AutoRetryPick(db, chain, signer, now, locked, id)
    ensures var (row, out) := (db.outbox[id], PrepareNextFailedTxRetry(db, Some(id), now));
      && (out.reply.Ok? <==> MayPromote(db, row))
      && (out.reply.Ok? ==> if row.failure == Some(EstimateGasRevert) then QueuedAgain(db, out, id) else Cloned(db, out, id))
  {
    var row := db.outbox[id];
    assert RowOk(row);
    if row.failure == Some(EstimateGasRevert) {
      RequeueIff(db, id, now, NoFailedTxRetry);
    } else {
      CloneIff(db, id, now, NoFailedTxRetry);
    }
  }

  // ----- the operator's retry -----

  /** Another snapshot of the same feed that is still under way, other than a later one of the same
      signer, which cannot mine first. */
  predicate RivalSnapshot(db: Db, row: Row, o: nat) {
    && o in db.outbox
    && var other := db.outbox[o];
       && other.req.chain == row.req.chain && other.req.purpose.PricingSnapshot? && other.req.to == row.req.to
       && other.status !in {Confirmed, Failed}
       && !(other.req.signer == row.req.signer && other.nonce.Some? && row.nonce.Some? && other.nonce.value > row.nonce.value)
  }

  ghost predicate MayRetry(db: Db, id: nat) {
    && id in db.outbox
    && var row := db.outbox[id];
       && row.status == Failed && row.failure != Some(Canceled) && row.failure != Some(NonceConsumedExternally)
       && (row.req.purpose.PricingSnapshot? ==>
             row.nonce.Some? && row.failure != Some(ReceiptFailed) && forall o :: !RivalSnapshot(db, row, o))
       && (if row.failure == Some(ReceiptFailed) then MayClone(db, id) else row.pin.None? && ScopeOpen(db, row.req))
  }

  lemma RivalIff(db: Db, row: Row)
    requires row.nonce.Some? && row.req.purpose.PricingSnapshot?
    ensures FeedHasRival(db.outbox, row) <==> exists o :: RivalSnapshot(db, row, o)
  {
    if FeedHasRival(db.outbox, row) {
      var o :| o in db.outbox
        && db.outbox[o].req.chain == row.req.chain && db.outbox[o].req.purpose == row.req.purpose
        && db.outbox[o].req.to == row.req.to && PricingPending(db.outbox[o].status)
        && !(db.outbox[o].req.signer == row.req.signer && db.outbox[o].nonce.Some? && db.outbox[o].nonce.value > row.nonce.value);
      assert RivalSnapshot(db, row, o);
    }
    if o :| RivalSnapshot(db, row, o) {
      assert PricingPending(db.outbox[o].status) by { StatusCases(db.outbox[o].status); }
    }
  }

  lemma StatusCases(status: TxStatus)
    ensures PricingPending(status) <==> status !in {Confirmed, Failed}
  {
    match status
    case Queued =>
    case NonceAssigned =>
    case Signed =>
    case Broadcast =>
    case Held =>
    case Confirmed =>
    case Failed =>
  }

  /** An operator's retry succeeds exactly when the row failed in a way that can be repeated, nothing in
      front of it is shut, a failed delivery's job waits for another, and, for a price snapshot, every
      snapshot of the feed still under way is a later one of the same signer. */
  lemma RetriedIff(db: Db, id: nat, now: int)
    requires WellFormed(db)
    ensures RetryFailedTx(db, id, now).reply.Ok? <==> MayRetry(db, id)
  {
    if id in db.outbox && db.outbox[id].status == Failed {
      var row := db.outbox[id];
      assert RowOk(row);
      if row.req.purpose.PricingSnapshot? && row.nonce.Some? { RivalIff(db, row); }
      if ClonePath(row) {
        CloneIff(db, id, now, ScopeInactive);
      } else if row.pin.None? {
        RequeueIff(db, id, now, ScopeInactive);
      }
    }
  }

  lemma RetriedLeaves(db: Db, id: nat, now: int)
    requires WellFormed(db) && RetryFailedTx(db, id, now).reply.Ok?
    ensures id in db.outbox
    ensures var out := RetryFailedTx(db, id, now);
      if db.outbox[id].failure == Some(ReceiptFailed) then Cloned(db, out, id) else QueuedAgain(db, out, id)
  {
    assert id in db.outbox && RowOk(db.outbox[id]);
    if ClonePath(db.outbox[id]) {
      CloneIff(db, id, now, ScopeInactive);
    } else if db.outbox[id].pin.None? {
      RequeueIff(db, id, now, ScopeInactive);
    }
  }

  // ----- when a clone does not go ahead -----

  /** The failed row is closed: it stays failed and never asks for a retry again. */
  ghost predicate RowClosed(db: Db, db': Db, id: nat) {
    && id in db.outbox && db'.nextId == db.nextId
    && db'.outbox == db.outbox[id := db.outbox[id].(failure := None, nextRetryAt := None)]
  }

  /** Somebody else is responsible for the delivery, or it is over. */
  predicate ResendMoot(db: Db, g: Guid) {
    g in db.jobs && db.jobs[g].status in {LzReceiveTxEnqueued, Delivered, ManualReview}
  }

  /** The packet used its deliveries up. */
  predicate Exhausted(db: Db, g: Guid) {
    g in db.jobs && db.jobs[g].status == LzReceiveFailed && db.jobs[g].retryCount >= 5
  }

  /** The job goes to manual review, and its packet along with it. */
  ghost predicate JobParked(db: Db, db': Db, g: Guid) {
    && g in db.jobs && db'.jobs == db.jobs[g := db.jobs[g].(status := ManualReview)]
    && (g in db.packets && db.packets[g].status == LzReceiveFailed ==>
          db'.packets == db.packets[g := db.packets[g].(status := ManualReview)])
  }

  /** What becomes of a failed delivery that cannot be repeated now: parked once exhausted, closed when it
      is moot or its scope is shut, since the deliverer resumes the job itself, and untouched when the
      tables contradict each other. */
  lemma DeliveryNotRepeated(db: Db, id: nat)
    requires id in db.outbox && db.outbox[id].status == Failed && ServesPacket(db.outbox[id])
    requires !PrepareReceiptRetryWorkflow(db, id).Prepared?
    ensures var (req, out) := (db.outbox[id].req, PreparedClone(db, id));
      var g := req.guid.value;
      if Exhausted(db, g) then RowClosed(db, out.db, id) && JobParked(db, out.db, g) && out.reply == Err(NoFailedTxRetry)
      else if ResendMoot(db, g) || (AwaitsResend(db, g) && Addressed(db, req))
      then RowClosed(db, out.db, id) && out.db.jobs == db.jobs && out.db.packets == db.packets && out.reply == Err(NoFailedTxRetry)
      else out.db == db && out.reply.Err? && out.reply.error != NoFailedTxRetry
  {
    ActiveIffNothingShut(db, db.outbox[id].req);
  }

  // ----- the queue drains -----

  /** Nothing the automatic retry may do resolves the row: its request names no packet of its chain, or
      its job is missing or in a status that no failed delivery has. */
  predicate Stuck(db: Db, row: Row) {
    if row.failure == Some(ReceiptFailed) && ServesPacket(row) then
      var g := row.req.guid.value;
      !ResendMoot(db, g) && !Exhausted(db, g) && !(AwaitsResend(db, g) && Addressed(db, row.req))
    else !Addressed(db, row.req)
  }

  /** The step took the row out of the queue and touched no other row. */
  ghost predicate Taken(db: Db, db': Db, id: nat, now: int) {
    && id in db.outbox && id in db'.outbox && db'.outbox.Keys >= db.outbox.Keys
    && (forall o :: o in db.outbox && o != id ==> db'.outbox[o] == db.outbox[o])
    && (forall o :: o in db'.outbox && o !in db.outbox ==> db'.outbox[o].status == Queued && db'.outbox[o].retryOf == Some(id))
    && db'.outbox[id].retryOf == db.outbox[id].retryOf
    && (db'.outbox[id].status != Failed || db'.outbox[id].nextRetryAt.None? || db'.outbox[id].nextRetryAt.value > now)
  }

  /** Jobs only moved to statuses that resolve a retry. */
  ghost predicate JobsResolve(db: Db, db': Db) {
    || db'.jobs == db.jobs
    || exists g :: g in db.jobs
         && (|| db'.jobs == db.jobs[g := db.jobs[g].(status := LzReceiveTxEnqueued)]
             || db'.jobs == db.jobs[g := db.jobs[g].(status := ManualReview)])
  }

  lemma RequeueTakes(db: Db, out: Outcome<nat>, id: nat, now: int)
    requires QueuedAgain(db, out, id) || PutOff(db, out, id, now)
    ensures Taken(db, out.db, id, now) && JobsResolve(db, out.db)
  {
  }

  lemma CloneTakes(db: Db, out: Outcome<nat>, id: nat, now: int)
    requires Cloned(db, out, id) && db.nextId !in db.outbox
    ensures Taken(db, out.db, id, now) && JobsResolve(db, out.db)
  {
  }

  lemma ClosingTakes(db: Db, db': Db, id: nat, now: int, g: Guid)
    requires RowClosed(db, db', id) && (JobParked(db, db', g) || db'.jobs == db.jobs)
    ensures Taken(db, db', id, now) && JobsResolve(db, db')
  {
  }

  lemma EstimateHandled(db: Db, id: nat, now: int)
    requires id in db.outbox && db.outbox[id].status == Failed && db.outbox[id].pin.None?
    requires Addressed(db, db.outbox[id].req)
    ensures var out := GatedRequeue(db, id, now, NoFailedTxRetry); Taken(db, out.db, id, now) && JobsResolve(db, out.db)
  {
    RequeueIff(db, id, now, NoFailedTxRetry);
    RequeueTakes(db, GatedRequeue(db, id, now, NoFailedTxRetry), id, now);
  }

  lemma DeliveryHandled(db: Db, id: nat, now: int)
    requires Cloneable(db, id) && db.nextId !in db.outbox && ServesPacket(db.outbox[id])
    requires db.outbox[id].failure == Some(ReceiptFailed) && !Stuck(db, db.outbox[id])
    ensures var out := PreparedClone(db, id); Taken(db, out.db, id, now) && JobsResolve(db, out.db)
  {
    if PrepareReceiptRetryWorkflow(db, id).Prepared? {
      PreparedCloneIff(db, id);
      CloneTakes(db, PreparedClone(db, id), id, now);
    } else {
      DeliveryNotRepeated(db, id);
      ClosingTakes(db, PreparedClone(db, id).db, id, now, db.outbox[id].req.guid.value);
    }
  }

  lemma OtherCloneHandled(db: Db, id: nat, now: int)
    requires Cloneable(db, id) && db.nextId !in db.outbox && RowOk(db.outbox[id])
    requires !db.outbox[id].req.purpose.LzReceive? && Addressed(db, db.outbox[id].req)
    ensures var out := GatedClone(db, id, now, NoFailedTxRetry); Taken(db, out.db, id, now) && JobsResolve(db, out.db)
  {
    CloneIff(db, id, now, NoFailedTxRetry);
    ActiveIffNothingShut(db, db.outbox[id].req);
    var out := GatedClone(db, id, now, NoFailedTxRetry);
    if ScopeOpen(db, db.outbox[id].req) {
      CloneTakes(db, out, id, now);
    } else {
      assert PutOff(db, out, id, now);
      RequeueTakes(db, out, id, now);
    }
  }

  /** A call of the automatic retry takes its pick out of the queue unless the pick is stuck. */
  lemma PickHandled(db: Db, chain: Eid, signer: string, now: int, locked: set<nat>, id: nat)
    requires WellFormed(db) && AutoRetryPick(db, chain, signer, now, locked, id) && !Stuck(db, db.outbox[id])
    ensures var db' := PrepareNextFailedTxRetry(db, Some(id), now).db; Taken(db, db', id, now) && JobsResolve(db, db')
  {
    var row := db.outbox[id];
    assert RowOk(row);
    if row.failure == Some(EstimateGasRevert) {
      EstimateHandled(db, id, now);
    } else if row.req.purpose.LzReceive? {
      DeliveryHandled(db, id, now);
    } else {
      OtherCloneHandled(db, id, now);
    }
  }

  lemma OthersStayDue(db: Db, db': Db, id: nat, now: int, chain: Eid, signer: string, o: nat)
    requires Taken(db, db', id, now)
    ensures AutoRetryDue(db', chain, signer, now, o) <==> o != id && AutoRetryDue(db, chain, signer, now, o)
  {
    if o in db.outbox && o != id {
      if HasChild(db.outbox, o) {
        var c :| c in db.outbox && db.outbox[c].retryOf == Some(o);
        assert c in db'.outbox && db'.outbox[c].retryOf == Some(o);
      }
    }
  }

  /** Each call either takes exactly its pick out of the due rows or, when the pick is stuck, changes
      nothing and reports an error, so that the same row is picked again at every later time. */
  lemma QueueMovesIff(db: Db, chain: Eid, signer: string, now: int, locked: set<nat>, id: nat)
    requires WellFormed(db) && AutoRetryPick(db, chain, signer, now, locked, id)
    ensures var out := PrepareNextFailedTxRetry(db, Some(id), now);
      if Stuck(db, db.outbox[id]) then
        out.db == db && out.reply.Err? && forall later :: later >= now ==> AutoRetryPick(out.db, chain, signer, later, locked, id)
      else forall o :: AutoRetryDue(out.db, chain, signer, now, o) <==> o != id && AutoRetryDue(db, chain, signer, now, o)
  {
    var db' := PrepareNextFailedTxRetry(db, Some(id), now).db;
    if Stuck(db, db.outbox[id]) {
      StuckRefused(db, id, now);
    } else {
      PickHandled(db, chain, signer, now, locked, id);
      forall o ensures AutoRetryDue(db', chain, signer, now, o) <==> o != id && AutoRetryDue(db, chain, signer, now, o) {
        OthersStayDue(db, db', id, now, chain, signer, o);
      }
    }
  }

  lemma StuckRefused(db: Db, id: nat, now: int)
    requires id in db.outbox && RowOk(db.outbox[id]) && db.outbox[id].status == Failed && Stuck(db, db.outbox[id])
    requires db.outbox[id].failure in {Some(EstimateGasRevert), Some(ReceiptFailed)}
    ensures PrepareNextFailedTxRetry(db, Some(id), now).db == db && PrepareNextFailedTxRetry(db, Some(id), now).reply.Err?
  {
    ActiveIffNothingShut(db, db.outbox[id].req);
    if db.outbox[id].failure == Some(EstimateGasRevert) { RequeueIff(db, id, now, NoFailedTxRetry); }
  }

  ghost function DueRows(db: Db, chain: Eid, signer: string, now: int): set<nat> {
    set id | id in db.outbox && AutoRetryDue(db, chain, signer, now, id)
  }

  ghost predicate NoneStuck(db: Db, chain: Eid, signer: string, now: int) {
    forall id :: AutoRetryDue(db, chain, signer, now, id) ==> !Stuck(db, db.outbox[id])
  }

  lemma StillNotStuck(db: Db, db': Db, row: Row)
    requires !Stuck(db, row) && JobsResolve(db, db') && SameSources(db.packets, db'.packets)
    ensures !Stuck(db', row)
  {
    assert Addressed(db', row.req) == Addressed(db, row.req);
  }

  predicate NoLater(db: Db, id: nat, o: nat) {
    && id in db.outbox && o in db.outbox && db.outbox[id].nextRetryAt.Some? && db.outbox[o].nextRetryAt.Some?
    && var (a, b) := (db.outbox[id].nextRetryAt.value, db.outbox[o].nextRetryAt.value); a < b || (a == b && id <= o)
  }

  /** Some due row comes first. */
  lemma {:induction false} FirstDue(db: Db, chain: Eid, signer: string, now: int, among: set<nat>) returns (id: nat)
    requires among != {} && forall o :: o in among ==> AutoRetryDue(db, chain, signer, now, o)
    ensures id in among && forall o :: o in among ==> NoLater(db, id, o)
  {
    var some :| some in among;
    var rest := among - {some};
    assert forall o :: o in among ==> o == some || o in rest;
    if rest == {} {
      id := some;
    } else {
      id := FirstDue(db, chain, signer, now, rest);
      if !NoLater(db, id, some) { id := some; }
    }
  }

  /** The run continued by automatic retries only. */
  ghost predicate OnlyRetries(earlier: Run, later: Run, chain: Eid, signer: string, now: int) {
    later == earlier
    || (&& later.Then? && later.step.DoAutoRetry? && later.step.chain == chain && later.step.signer == signer && later.step.now == now
        && OnlyRetries(earlier, later.before, chain, signer, now))
  }

  ghost function Steps(earlier: Run, later: Run): nat {
    if later == earlier || later.Start? then 0 else 1 + Steps(earlier, later.before)
  }

  lemma OneCall(run: Run, chain: Eid, signer: string, now: int) returns (later: Run)
    requires Legal(run) && WellFormed(End(run)) && NoneStuck(End(run), chain, signer, now)
    requires DueRows(End(run), chain, signer, now) != {}
    ensures later.Then? && later.before == run && later.step.DoAutoRetry?
    ensures later.step.chain == chain && later.step.signer == signer && later.step.now == now
    ensures Legal(later) && WellFormed(End(later)) && NoneStuck(End(later), chain, signer, now)
    ensures |DueRows(End(later), chain, signer, now)| < |DueRows(End(run), chain, signer, now)|
  {
    var db := End(run);
    var due := DueRows(db, chain, signer, now);
    var id := FirstDue(db, chain, signer, now, due);
    var step := DoAutoRetry(chain, signer, now, {}, Some(id));
    assert AutoRetryPick(db, chain, signer, now, {}, id) by {
      assert forall o :: o in db.outbox && AutoRetryDue(db, chain, signer, now, o) ==> o in due;
    }
    later := Then(run, step);
    Extended(run, step);
    WellFormedStep(db, step);
    PickHandled(db, chain, signer, now, {}, id);
    CallShrinks(db, PrepareNextFailedTxRetry(db, Some(id), now).db, chain, signer, now, id);
  }

  lemma CallShrinks(db: Db, db': Db, chain: Eid, signer: string, now: int, id: nat)
    requires Taken(db, db', id, now) && JobsResolve(db, db') && SameSources(db.packets, db'.packets)
    requires AutoRetryDue(db, chain, signer, now, id) && NoneStuck(db, chain, signer, now)
    ensures |DueRows(db', chain, signer, now)| < |DueRows(db, chain, signer, now)| && NoneStuck(db', chain, signer, now)
  {
    forall o ensures AutoRetryDue(db', chain, signer, now, o) <==> o != id && AutoRetryDue(db, chain, signer, now, o) {
      OthersStayDue(db, db', id, now, chain, signer, o);
    }
    assert DueRows(db', chain, signer, now) == DueRows(db, chain, signer, now) - {id};
    forall o | AutoRetryDue(db', chain, signer, now, o) ensures !Stuck(db', db'.outbox[o]) {
      StillNotStuck(db, db', db.outbox[o]);
    }
  }

  lemma {:induction false} RetriesCompose(first: Run, second: Run, third: Run, chain: Eid, signer: string, now: int)
    requires OnlyRetries(first, second, chain, signer, now) && OnlyRetries(second, third, chain, signer, now)
    ensures OnlyRetries(first, third, chain, signer, now)
    ensures Steps(first, third) <= Steps(first, second) + Steps(second, third)
  {
    if third != second { RetriesCompose(first, second, third.before, chain, signer, now); }
  }

  /** As long as no due row is stuck, repeating the automatic retry at one point in time empties the
      queue in at most as many calls as rows are due. */
  lemma {:induction false} QueueDrains(run: Run, chain: Eid, signer: string, now: int) returns (later: Run)
    requires Legal(run) && WellFormed(End(run)) && NoneStuck(End(run), chain, signer, now)
    ensures Legal(later) && OnlyRetries(run, later, chain, signer, now)
    ensures Steps(run, later) <= |DueRows(End(run), chain, signer, now)|
    ensures DueRows(End(later), chain, signer, now) == {}
    decreases |DueRows(End(run), chain, signer, now)|
  {
    later := run;
    if DueRows(End(run), chain, signer, now) != {} {
      var next := OneCall(run, chain, signer, now);
      later := QueueDrains(next, chain, signer, now);
      RetriesCompose(run, next, later, chain, signer, now);
    }
  }

  // ----- failing an estimate -----

  /** The waiting times before each automatic retry. */
  lemma RetryDelays(attempts: nat)
    ensures RetryDelay(attempts) ==
      if attempts == 0 then 60 else if attempts == 1 then 120 else if attempts == 2 then 240
      else if attempts == 3 then 480 else if attempts == 4 then 960 else 1800
  {
    if attempts >= 5 { DoublingGrows(attempts); }
  }

  lemma {:induction false} DoublingGrows(n: nat)
    requires n >= 5
    ensures Pow2(n) >= 32
  {
    if n > 5 { DoublingGrows(n - 1); } else { assert Pow2(5) == 32; }
  }

  /** Exactly a queued row without a nonce, an attempt or a live lease fails its estimate. It fails in
      place, and asks for a retry after its delay if it has attempts left and carries no price. */
  lemma EstimateRevertIff(db: Db, id: nat, now: int)
    ensures var out := MarkQueuedTxEstimateRevertFailed(db, id, now);
      && (out.reply == Ok(true) <==>
            && id in db.outbox && db.outbox[id].status == Queued && db.outbox[id].nonce.None?
            && !db.outbox[id].signing.hasAttempt
            && (db.outbox[id].signing.leaseUntil.Some? ==> db.outbox[id].signing.leaseUntil.value <= now))
      && (if out.reply != Ok(true) then out == Outcome(db, Ok(false))
          else
            var (row, asks) := (db.outbox[id], db.outbox[id].attempts < 5 && !db.outbox[id].req.purpose.PricingSnapshot?);
            out.db == db.(outbox := db.outbox[id := row.(status := Failed, failure := Some(EstimateGasRevert),
                            nextRetryAt := if asks then Some(now + RetryDelay(row.attempts)) else None)]))
  {
  }

  // ----- what comes due, and in which order -----

  /** The row asks for an automatic retry at time `at`. */
  predicate AsksAt(row: Row, at: int) {
    && row.status == Failed && row.nextRetryAt == Some(at) && row.attempts < 5 && !row.req.purpose.PricingSnapshot?
    && (row.failure == Some(EstimateGasRevert) || row.failure == Some(ReceiptFailed))
  }

  lemma DueFrom(db: Db, chain: Eid, signer: string, now: int, id: nat)
    ensures AutoRetryDue(db, chain, signer, now, id) <==>
      && id in db.outbox && LaneOf(db.outbox[id]) == Lane(chain, signer) && !HasChild(db.outbox, id)
      && exists at :: at <= now && AsksAt(db.outbox[id], at)
  {
    if AutoRetryDue(db, chain, signer, now, id) { assert AsksAt(db.outbox[id], db.outbox[id].nextRetryAt.value); }
  }

  lemma LiveHasNoClone(db: Db, db': Db, id: nat)
    requires WellFormed(db) && id in db.outbox && db.outbox[id].status != Failed
    requires id in db'.outbox && db'.outbox.Keys == db.outbox.Keys && forall o :: o in db.outbox && o != id ==> db'.outbox[o] == db.outbox[o]
    requires db'.outbox[id].retryOf == db.outbox[id].retryOf
    ensures !HasChild(db'.outbox, id)
  {
    HeldHasNoChild(db, id);
    assert forall c :: c in db'.outbox ==> db'.outbox[c].retryOf == db.outbox[c].retryOf;
  }

  /** A row that failed its estimate comes due in its own lane exactly from the end of its delay on, if it
      has attempts left and carries no price, and never otherwise. */
  lemma EstimateFailureComesDue(db: Db, id: nat, now: int, chain: Eid, signer: string, later: int)
    requires WellFormed(db) && MarkQueuedTxEstimateRevertFailed(db, id, now).reply == Ok(true)
    ensures id in db.outbox
    ensures var (row, db') := (db.outbox[id], MarkQueuedTxEstimateRevertFailed(db, id, now).db);
      AutoRetryDue(db', chain, signer, later, id) <==>
        && LaneOf(row) == Lane(chain, signer) && row.attempts < 5 && !row.req.purpose.PricingSnapshot?
        && later >= now + RetryDelay(row.attempts)
  {
    EstimateRevertIff(db, id, now);
    var db' := MarkQueuedTxEstimateRevertFailed(db, id, now).db;
    LiveHasNoClone(db, db', id);
    DueFrom(db', chain, signer, later, id);
    if AutoRetryDue(db', chain, signer, later, id) { assert db'.outbox[id].nextRetryAt.value <= later; }
  }

  /** A row put off behind a shut gate comes due again exactly one minute later. */
  lemma PutOffComesBack(db: Db, out: Outcome<nat>, id: nat, now: int, chain: Eid, signer: string, later: int)
    requires PutOff(db, out, id, now) && AutoRetryDue(db, chain, signer, now, id)
    ensures AutoRetryDue(out.db, chain, signer, later, id) <==> later >= now + 60
  {
    assert forall c :: c in out.db.outbox ==> out.db.outbox[c].retryOf == db.outbox[c].retryOf;
  }

  /** The query has one answer: no due row that is free to be taken is passed over for a later one. */
  lemma NobodyOvertaken(db: Db, chain: Eid, signer: string, now: int, locked: set<nat>, id: nat, o: nat)
    requires AutoRetryPick(db, chain, signer, now, locked, id) && AutoRetryDue(db, chain, signer, now, o) && o !in locked
    ensures db.outbox[id].nextRetryAt.value <= db.outbox[o].nextRetryAt.value
    ensures AutoRetryPick(db, chain, signer, now, locked, o) ==> o == id
  {
  }
}
