/** The store: one object over all tables whose methods are the transactions of
    go/internal/db. A method that returns an error before its commit leaves every table as it was. */
module StoreModule {
  import opened Tables
  import opened SendScope
  import Outbox
  import Receipts
  import Jobs
  import ConfigSync

  /** The backoff loop of the outbox; it computes the capped doubling without overflow. */
  method AutoRetryDelay(attempts: nat) returns (delay: nat)
    ensures delay == Outbox.RetryDelay(attempts)
  {
    delay := TX_AUTO_RETRY_BASE_DELAY;
    var i := 0;
    while i < attempts
      invariant i <= attempts
      invariant delay == TX_AUTO_RETRY_BASE_DELAY * Outbox.Pow2(i) <= TX_AUTO_RETRY_MAX_DELAY
    {
      if delay >= TX_AUTO_RETRY_MAX_DELAY / 2 {
        PowGrows(i + 1, attempts);
        return TX_AUTO_RETRY_MAX_DELAY;
      }
      delay := delay * 2;
      i := i + 1;
    }
  }

  lemma {:induction false} PowGrows(a: nat, b: nat)
    requires a <= b
    ensures Outbox.Pow2(a) <= Outbox.Pow2(b)
    decreases b
  {
    if a < b { PowGrows(a, b - 1); }
  }

  class Store {
    var outbox: map<nat, Row>
    var nextId: nat
    var cursors: map<Lane, nat>
    var jobs: map<Guid, ExecutorJob>
    var ledger: set<(Guid, Hash)>
    var dvn: map<Guid, DvnJob>
    var packets: map<Guid, Packet>
    var chains: map<Eid, Chain>
    var pathways: map<PathKey, Pathway>

    /** The committed tables as one value. */
    function View(): Db
      reads this
    {
      Db(outbox, nextId, cursors, jobs, ledger, dvn, packets, chains, pathways)
    }

    constructor ()
      ensures View() == Db(map[], 0, map[], map[], {}, map[], map[], map[], map[])
    {
      outbox, nextId, cursors, jobs, ledger := map[], 0, map[], map[], {};
      dvn, packets, chains, pathways := map[], map[], map[], map[];
    }

    // ----- outbox.go -----

    method InsertRow(row: Row) returns (id: nat)
      modifies this`outbox, this`nextId
      ensures id == old(nextId) && View() == Tables.InsertRow(old(View()), row)
    {
      id := nextId;
      outbox := outbox[id := row];
      nextId := nextId + 1;
    }

    method EnqueueTx(req: TxRequest) returns (r: Reply<nat>)
      modifies this
      ensures Commits(Outbox.EnqueueTx(old(View()), req), View(), r)
    {
      if !Outbox.RequestComplete(req) { return Err(InvalidArgument); }
      var scope := ScopeOf(View(), req);
      if !scope.Active? { return Err(Outbox.GateError(scope)); }
      var id := InsertRow(FreshRow(req));
      return Ok(id);
    }

    method PeekSendableTx(lane: Lane, now: int) returns (r: Reply<nat>)
      ensures r == Err(InvalidArgument) <==> lane.chain == 0 || lane.signer == ""
      ensures r == Err(RowNotFound) ==> forall id :: !Outbox.Sendable(View(), lane, now, id)
      ensures r.Err? ==> r.error in {InvalidArgument, RowNotFound}
      ensures r.Ok? ==> Outbox.Sendable(View(), lane, now, r.value)
      ensures r.Ok? ==> forall id :: Outbox.Sendable(View(), lane, now, id) ==>
          Outbox.SendsBefore(outbox[r.value], r.value, outbox[id], id)
    {
      if lane.chain == 0 || lane.signer == "" { return Err(InvalidArgument); }
      var todo := outbox.Keys;
      r := Err(RowNotFound);
      while todo != {}
        invariant todo <= outbox.Keys && (r.Ok? || r == Err(RowNotFound))
        invariant r.Err? ==> forall id :: id in outbox && id !in todo ==> !Outbox.Sendable(View(), lane, now, id)
        invariant r.Ok? ==> Outbox.Sendable(View(), lane, now, r.value)
        invariant r.Ok? ==> forall id :: id in outbox && id !in todo && Outbox.Sendable(View(), lane, now, id) ==>
            Outbox.SendsBefore(outbox[r.value], r.value, outbox[id], id)
        decreases |todo|
      {
        var id :| id in todo;
        todo := todo - {id};
        if Outbox.Sendable(View(), lane, now, id) {
          if r.Err? || !Outbox.SendsBefore(outbox[r.value], r.value, outbox[id], id) {
            r := Ok(id);
          }
        }
      }
    }

    /** `next` is one past the largest recorded nonce; it is refused when that nonce fills the column. */
    method LocalNextNonce(lane: Lane) returns (r: Reply<nat>, ghost next: nat)
      ensures Outbox.LocalNext(View(), lane, next)
      ensures r == if next > MAX_DB_NONCE then Err(NonceOverflow) else Ok(next)
    {
      var todo := outbox.Keys;
      var n := 0;
      while todo != {}
        invariant todo <= outbox.Keys
        invariant forall id :: id !in todo && Outbox.Holds(View(), lane, id) ==> outbox[id].nonce.value < n
        invariant n != 0 ==> exists id :: Outbox.Holds(View(), lane, id) && outbox[id].nonce.value == n - 1
        decreases |todo|
      {
        var id :| id in todo;
        todo := todo - {id};
        if Outbox.Holds(View(), lane, id) && outbox[id].nonce.value >= n {
          n := outbox[id].nonce.value + 1;
        }
      }
      next := n;
      r := if n > MAX_DB_NONCE then Err(NonceOverflow) else Ok(n);
    }

    method BootstrapTxNonceCursor(lane: Lane, rpcPending: nat) returns (r: Reply<bool>, ghost local: nat)
      modifies this
      ensures Outbox.LocalNext(old(View()), lane, local)
      ensures Commits(Outbox.BootstrapTxNonceCursor(old(View()), lane, rpcPending, local), View(), r)
    {
      var next;
      next, local := LocalNextNonce(lane);
      if lane.chain == 0 || lane.signer == "" || rpcPending > MAX_DB_NONCE { r := Err(InvalidArgument); return; }
      if next.Err? { r := Err(next.error); return; }
      if lane in cursors { r := Ok(false); return; }
      cursors := cursors[lane := if next.value < rpcPending then rpcPending else next.value];
      r := Ok(true);
    }

    method MarkQueuedTxEstimateRevertFailed(id: nat, now: int) returns (r: Reply<bool>)
      modifies this
      ensures Commits(Outbox.MarkQueuedTxEstimateRevertFailed(old(View()), id, now), View(), r)
    {
      if id !in outbox || !Outbox.PristineQueued(outbox[id], now) { return Ok(false); }
      var row := outbox[id];
      var retryAt := None;
      if row.attempts < TX_AUTO_RETRY_MAX_ATTEMPTS && !row.req.purpose.PricingSnapshot? {
        var delay := AutoRetryDelay(row.attempts);
        retryAt := Some(now + delay);
      }
      outbox := outbox[id := row.(status := Failed, failure := Some(EstimateGasRevert), nextRetryAt := retryAt)];
      return Ok(true);
    }

    method DeferFailedTxRetry(id: nat, now: int)
      modifies this`outbox
      ensures View() == Outbox.DeferFailedTxRetry(old(View()), id, now)
    {
      if id in outbox && outbox[id].status == Failed {
        outbox := outbox[id := outbox[id].(nextRetryAt := Some(now + TX_RETRY_SCOPE_DEFER_DELAY))];
      }
    }

    method RequeueFailedTx(id: nat) returns (r: Reply<nat>)
      modifies this`outbox
      ensures Commits(Outbox.RequeueFailedTx(old(View()), id), View(), r)
    {
      if id !in outbox || outbox[id].status != Failed || outbox[id].pin.Some? { return Err(NotRequeueable); }
      var row := outbox[id];
      outbox := outbox[id := row.(status := Queued, attempts := row.attempts + 1, failure := None, nextRetryAt := None)];
      return Ok(id);
    }

    method CloneFailedTxRetry(id: nat) returns (r: Reply<nat>)
      modifies this`outbox, this`nextId
      ensures Commits(Outbox.CloneFailedTxRetry(old(View()), id), View(), r)
    {
      if id !in outbox || outbox[id].status != Failed || outbox[id].nonce.None? || HasChild(outbox, id) { return Err(NotCloneable); }
      var row := outbox[id];
      var retryId := InsertRow(CloneRow(row, id));
      outbox := outbox[id := row.(nextRetryAt := None)];
      return Ok(retryId);
    }

    method FinalizeFailedRow(id: nat)
      requires id in outbox
      modifies this`outbox
      ensures View() == SetRow(old(View()), id, Outbox.Finalized(old(outbox)[id]))
    {
      if outbox[id].status == Failed {
        outbox := outbox[id := outbox[id].(failure := None, nextRetryAt := None)];
      } else {
        assert outbox == outbox[id := outbox[id]];
      }
    }

    method PrepareReceiptRetryWorkflow(id: nat) returns (prepared: Reply<bool>)
      requires id in outbox
      modifies this`outbox, this`jobs, this`packets
      ensures match Outbox.PrepareReceiptRetryWorkflow(old(View()), id)
              case Prepared(db) => prepared == Ok(true) && View() == db
              case NotPrepared(db) => prepared == Ok(false) && View() == db
              case WorkflowError(e) => prepared == Err(e) && View() == old(View())
    {
      var row := outbox[id];
      if !row.req.purpose.LzReceive? || row.req.guid.None? { return Ok(true); }
      var g := row.req.guid.value;
      if g !in jobs { return Err(JobNotFound); }
      var job := jobs[g];
      if job.status in {LzReceiveTxEnqueued, Delivered, ManualReview} {
        FinalizeFailedRow(id);
        return Ok(false);
      }
      if job.status != LzReceiveFailed { return Err(WrongStatus); }
      if job.retryCount >= MAX_LZ_RECEIVE_DELIVERY_ATTEMPTS {
        jobs := jobs[g := job.(status := ManualReview)];
        packets := Outbox.MovePacket(packets, g, LzReceiveFailed, ManualReview);
        FinalizeFailedRow(id);
        return Ok(false);
      }
      var scope := LockTxSendScope(View(), row.req.chain, LzReceive, row.req.guid);
      if scope.Malformed? { return Err(ScopeMalformed); }
      if scope.Inactive? {
        FinalizeFailedRow(id);
        return Ok(false);
      }
      jobs := jobs[g := job.(status := LzReceiveTxEnqueued)];
      packets := Outbox.MovePacket(packets, g, LzReceiveFailed, LzReceiveTxEnqueued);
      return Ok(true);
    }

    method GatedRequeue(id: nat, now: int, refusal: StoreError) returns (r: Reply<nat>)
      requires id in outbox && outbox[id].status == Failed
      modifies this`outbox
      ensures Commits(Outbox.GatedRequeue(old(View()), id, now, refusal), View(), r)
    {
      var scope := ScopeOf(View(), outbox[id].req);
      if scope.Malformed? { return Err(ScopeMalformed); }
      if scope.Inactive? {
        DeferFailedTxRetry(id, now);
        return Err(refusal);
      }
      r := RequeueFailedTx(id);
    }

    method PreparedClone(id: nat) returns (r: Reply<nat>)
      requires id in outbox
      modifies this
      ensures Commits(Outbox.PreparedClone(old(View()), id), View(), r)
    {
      var savedJobs, savedPackets := jobs, packets;
      var prepared := PrepareReceiptRetryWorkflow(id);
      if prepared.Err? { return Err(prepared.error); }
      if !prepared.value { return Err(NoFailedTxRetry); }
      r := CloneFailedTxRetry(id);
      if r.Err? {
        jobs, packets := savedJobs, savedPackets;
      }
    }

    method GatedClone(id: nat, now: int, refusal: StoreError) returns (r: Reply<nat>)
      requires id in outbox && outbox[id].status == Failed
      modifies this
      ensures Commits(Outbox.GatedClone(old(View()), id, now, refusal), View(), r)
    {
      if !outbox[id].req.purpose.LzReceive? {
        var scope := ScopeOf(View(), outbox[id].req);
        if scope.Malformed? { return Err(ScopeMalformed); }
        if scope.Inactive? {
          DeferFailedTxRetry(id, now);
          return Err(refusal);
        }
      }
      r := PreparedClone(id);
    }

    method RetryFailedTx(id: nat, now: int) returns (r: Reply<nat>)
      modifies this
      ensures Commits(Outbox.RetryFailedTx(old(View()), id, now), View(), r)
    {
      if id !in outbox || outbox[id].status != Failed { return Err(NotFailed); }
      var row := outbox[id];
      if row.failure == Some(Canceled) || row.failure == Some(NonceConsumedExternally) { return Err(NotRetryable); }
      if row.pin.Some? && row.failure != Some(ReceiptFailed) { return Err(PinnedReceipt); }
      if row.req.purpose.PricingSnapshot? {
        if row.nonce.None? || row.failure == Some(ReceiptFailed) { return Err(PricingNotRetryable); }
        if Outbox.FeedHasRival(outbox, row) { return Err(FeedBusy); }
      }
      if row.nonce.None? || row.failure != Some(ReceiptFailed) {
        r := GatedRequeue(id, now, ScopeInactive);
      } else {
        r := GatedClone(id, now, ScopeInactive);
      }
    }

    method PrepareNextFailedTxRetry(chain: Eid, signer: string, now: int, locked: set<nat>)
      returns (r: Reply<nat>, pick: Option<nat>)
      modifies this
      ensures chain == 0 || signer == "" ==> r == Err(InvalidArgument) && View() == old(View())
      ensures chain != 0 && signer != "" && pick.None? ==>
                forall id :: id !in locked ==> !Outbox.AutoRetryDue(old(View()), chain, signer, now, id)
      ensures pick.Some? ==> Outbox.AutoRetryPick(old(View()), chain, signer, now, locked, pick.value)
      ensures chain != 0 && signer != "" ==>
                Commits(Outbox.PrepareNextFailedTxRetry(old(View()), pick, now), View(), r)
    {
      if chain == 0 || signer == "" { return Err(InvalidArgument), None; }
      pick := SelectDueRetry(chain, signer, now, locked);
      if pick.None? { return Err(NoFailedTxRetry), pick; }
      var row := outbox[pick.value];
      if row.nonce.None? || row.failure == Some(EstimateGasRevert) {
        r := GatedRequeue(pick.value, now, NoFailedTxRetry);
      } else if row.failure == Some(ReceiptFailed) {
        r := GatedClone(pick.value, now, NoFailedTxRetry);
      } else {
        r := Err(NoFailedTxRetry);
      }
    }

    method SelectDueRetry(chain: Eid, signer: string, now: int, locked: set<nat>) returns (pick: Option<nat>)
      ensures pick.None? ==> forall id :: id !in locked ==> !Outbox.AutoRetryDue(View(), chain, signer, now, id)
      ensures pick.Some? ==> Outbox.AutoRetryPick(View(), chain, signer, now, locked, pick.value)
    {
      var todo := outbox.Keys - locked;
      pick := None;
      while todo != {}
        invariant todo <= outbox.Keys - locked
        invariant pick.None? ==>
            forall id :: id in outbox && id !in locked && id !in todo ==> !Outbox.AutoRetryDue(View(), chain, signer, now, id)
        invariant pick.Some? ==> Outbox.AutoRetryDue(View(), chain, signer, now, pick.value) && pick.value !in locked
        invariant pick.Some? ==>
            forall o :: o in outbox && o !in locked && o !in todo && Outbox.AutoRetryDue(View(), chain, signer, now, o) ==>
              var (a, b) := (outbox[pick.value].nextRetryAt.value, outbox[o].nextRetryAt.value);
              a < b || (a == b && pick.value <= o)
        decreases |todo|
      {
        var id :| id in todo;
        todo := todo - {id};
        if Outbox.AutoRetryDue(View(), chain, signer, now, id) {
          if pick.None? || outbox[id].nextRetryAt.value < outbox[pick.value].nextRetryAt.value
             || (outbox[id].nextRetryAt == outbox[pick.value].nextRetryAt && id < pick.value) {
            pick := Some(id);
          }
        }
      }
    }

    method ClaimCursorNonce(lane: Lane) returns (r: Reply<nat>)
      modifies this`cursors
      ensures Commits(Outbox.ClaimCursorNonce(old(View()), lane), View(), r)
    {
      if lane !in cursors { return Err(NonceCursorMissing); }
      var next := cursors[lane];
      if next >= MAX_DB_NONCE { return Err(NonceOverflow); }
      cursors := cursors[lane := next + 1];
      return Ok(next);
    }

    // ----- tx_attempts.go and tx_cancel_reconcile.go -----

    method ClaimOutboxForSigning(id: nat, lane: Lane, now: int, ttl: nat) returns (r: Reply<nat>)
      modifies this
      ensures Commits(Receipts.ClaimOutboxForSigning(old(View()), id, lane, now, ttl), View(), r)
    {
      if lane.chain == 0 || lane.signer == "" || ttl == 0 { return Err(InvalidArgument); }
      if id !in outbox || !Receipts.Claimable(outbox[id], lane, now) { return Err(LeaseLost); }
      var row := outbox[id];
      if row.status == Queued && row.nonce.None? {
        var scope := ScopeOf(View(), row.req);
        if !scope.Active? { return Err(Outbox.GateError(scope)); }
        if Receipts.LaneBusy(View(), lane) { return Err(SignerLaneBlocked); }
        r := ClaimCursorNonce(lane);
        if r.Err? { return; }
        row := row.(nonce := Some(r.value), status := NonceAssigned);
      } else {
        if row.nonce.None? || (row.status != Queued && row.status != NonceAssigned) { return Err(WrongStatus); }
        if Receipts.LowerNonceBusy(View(), lane, row.nonce.value) { return Err(SignerLaneBlocked); }
        row := row.(status := NonceAssigned);
        r := Ok(row.nonce.value);
      }
      outbox := outbox[id := Receipts.Leased(row, now + ttl)];
    }

    method PrepareReceiptResolution(id: nat, attempt: nat, cancelAttempt: bool, success: bool) returns (r: Reply<ReceiptOutcome>)
      modifies this
      ensures Commits(Receipts.PrepareReceiptResolution(old(View()), id, attempt, cancelAttempt, success), View(), r)
    {
      if id !in outbox || outbox[id].nonce.None? { return Err(RowNotFound); }
      var row := outbox[id];
      if row.pin.Some? {
        if row.pin.value.attempt == attempt { return Ok(row.pin.value.outcome); }
        return Err(PinnedReceipt);
      }
      if row.status == Confirmed || row.status == Failed { return Err(WrongStatus); }
      var outcome := OutcomeConfirmed;
      if cancelAttempt || (row.signing.cancelRequested && !success) {
        outcome := OutcomeCanceled;
      } else if !success {
        outcome := OutcomeReceiptFailed;
      }
      outbox := outbox[id := row.(pin := Some(Pin(outcome, attempt)))];
      return Ok(outcome);
    }

    method FinalizeAttemptReceipt(id: nat, attempt: nat, costDst: nat, now: int) returns (r: Reply<ReceiptOutcome>)
      modifies this
      ensures Commits(Receipts.FinalizeAttemptReceipt(old(View()), id, attempt, costDst, now), View(), r)
    {
      if id !in outbox { return Err(RowNotFound); }
      var row := outbox[id];
      if row.pin.None? || row.pin.value.attempt != attempt { return Err(PinnedReceipt); }
      var status, failure, retryAt := Confirmed, None, None;
      match row.pin.value.outcome {
        case OutcomeConfirmed =>
        case OutcomeCanceled =>
          status, failure := Failed, Some(Canceled);
        case OutcomeReceiptFailed =>
          status, failure := Failed, Some(ReceiptFailed);
          if row.attempts < TX_AUTO_RETRY_MAX_ATTEMPTS && !row.req.purpose.PricingSnapshot? {
            var delay := AutoRetryDelay(row.attempts);
            retryAt := Some(now + delay);
          }
      }
      outbox := outbox[id := row.(status := status, failure := failure, nextRetryAt := retryAt, held := None,
                                  signing := Signing(None, None, false, true),
                                  cost := ReceiptCost(Some(costDst), row.cost.src, now))];
      return Ok(row.pin.value.outcome);
    }

    method TerminalizeExternallyConsumed(id: nat) returns (ok: bool)
      requires id in outbox
      modifies this`outbox
      ensures ok == Receipts.HeldExternally(old(outbox)[id])
      ensures View() == if ok then SetRow(old(View()), id, Receipts.TerminalizedExternally(old(outbox)[id])) else old(View())
    {
      ok := Receipts.HeldExternally(outbox[id]);
      if ok {
        var row := outbox[id];
        outbox := outbox[id := row.(status := Failed, held := None, failure := Some(NonceConsumedExternally), nextRetryAt := None,
                                    signing := row.signing.(cancelRequested := false, leaseUntil := None))];
      }
    }

    method ResolveExternalNonceRetry(id: nat) returns (r: Reply<nat>)
      modifies this
      ensures Commits(Receipts.ResolveExternalNonceRetry(old(View()), id), View(), r)
    {
      if id !in outbox { return Err(RowNotFound); }
      var row := outbox[id];
      if row.req.purpose.PricingSnapshot? { return Err(PricingNotRetryable); }
      var scope := ScopeOf(View(), row.req);
      if !scope.Active? { return Err(Outbox.GateError(scope)); }
      var waiting := Receipts.WorkflowEnqueued(View(), row.req);
      if waiting.Err? { return Err(waiting.error); }
      var closed := TerminalizeExternallyConsumed(id);
      if !closed { return Err(NotHeldExternally); }
      var cloneId := InsertRow(CloneRow(row, id));
      return Ok(cloneId);
    }

    method ResolveExternalNonceAbandon(id: nat) returns (r: Reply<bool>)
      modifies this
      ensures Commits(Receipts.ResolveExternalNonceAbandon(old(View()), id), View(), r)
    {
      if id !in outbox { return Err(RowNotFound); }
      var row, saved := outbox[id], outbox;
      var closed := TerminalizeExternallyConsumed(id);
      if !closed { return Err(NotHeldExternally); }
      if row.req.guid.Some? {
        var g := row.req.guid.value;
        var awaited := Receipts.AwaitedStatus(row.req.purpose);
        if awaited.Some? && g in jobs && jobs[g].status == awaited.value {
          if g !in packets || packets[g].status != awaited.value {
            outbox := saved;
            return Err(WrongStatus);
          }
          jobs := jobs[g := jobs[g].(status := ManualReview)];
          packets := packets[g := packets[g].(status := ManualReview)];
        } else if row.req.purpose.DvnVerify? && g in dvn && dvn[g].status == VerifyTxEnqueued {
          dvn := dvn[g := dvn[g].(status := DvnManualReview)];
        }
      }
      return Ok(true);
    }

    // ----- packets.go, executor_jobs.go -----

    method UpsertPacket(g: Guid, packet: Packet) returns (r: Reply<bool>)
      modifies this
      ensures Commits(Jobs.UpsertPacket(old(View()), g, packet), View(), r)
    {
      if g == 0 || packet.key.src == 0 || packet.key.dst == 0 || packet.key.src == packet.key.dst { return Err(InvalidArgument); }
      if packet.key.src !in chains || packet.key.dst !in chains { return Err(ChainNotFound); }
      packets := packets[g := if g in packets then packet.(status := packets[g].status) else packet];
      return Ok(true);
    }

    method UpsertExecutorJob(g: Guid, fee: Option<nat>, status: ExecutorStatus) returns (r: Reply<bool>)
      modifies this
      ensures Commits(Jobs.UpsertExecutorJob(old(View()), g, fee, status), View(), r)
    {
      if g == 0 { return Err(InvalidArgument); }
      if g in jobs {
        jobs := jobs[g := jobs[g].(fee := fee)];
      } else {
        if g !in packets { return Err(PacketNotFound); }
        jobs := jobs[g := ExecutorJob(status, fee, 0, None, None)];
      }
      return Ok(true);
    }

    method EnqueueExecutorTx(g: Guid, expected: ExecutorStatus, next: ExecutorStatus, request: TxRequest) returns (r: Reply<nat>)
      modifies this
      ensures Commits(Jobs.EnqueueExecutorTx(old(View()), g, expected, next, request), View(), r)
    {
      var req := request;
      if req.guid.None? { req := req.(guid := Some(g)); }
      if g == 0 || req.guid != Some(g) || !Outbox.RequestComplete(req) { return Err(InvalidArgument); }
      if g !in jobs { return Err(JobNotFound); }
      if jobs[g].status != expected { return Err(WrongStatus); }
      var scope := ScopeOf(View(), req);
      if !scope.Active? { return Err(Outbox.GateError(scope)); }
      var id := InsertRow(FreshRow(req));
      jobs := jobs[g := jobs[g].(status := next)];
      packets := Jobs.SetPacketStatus(packets, g, next);
      return Ok(id);
    }

    method UpdateExecutorStatus(u: Jobs.ExecutorUpdate) returns (r: Reply<bool>)
      modifies this
      ensures Commits(Jobs.UpdateExecutorStatus(old(View()), u), View(), r)
    {
      if u.guid == 0 || (u.countFailure && u.receiveHash.None?) { return Err(InvalidArgument); }
      var saved := ledger;
      if u.countFailure {
        if (u.guid, u.receiveHash.value) in ledger { return Ok(false); }
        ledger := ledger + {(u.guid, u.receiveHash.value)};
      }
      if u.guid !in jobs || jobs[u.guid].status != u.expected {
        ledger := saved;
        return Err(WrongStatus);
      }
      jobs := jobs[u.guid := Jobs.UpdatedJob(jobs[u.guid], u)];
      packets := Jobs.SetPacketStatus(packets, u.guid, u.next);
      return Ok(true);
    }

    // ----- dvn_jobs.go -----

    method UpsertDvnJob(g: Guid, fee: Option<nat>, confirmations: nat, status: DvnStatus) returns (r: Reply<bool>)
      modifies this
      ensures Commits(Jobs.UpsertDvnJob(old(View()), g, fee, confirmations, status), View(), r)
    {
      if g == 0 || confirmations == 0 { return Err(InvalidArgument); }
      if g in dvn {
        dvn := dvn[g := dvn[g].(fee := fee, confirmations := confirmations)];
      } else {
        if g !in packets { return Err(PacketNotFound); }
        dvn := dvn[g := DvnJob(status, fee, confirmations)];
      }
      return Ok(true);
    }

    method UpdateDvnStatus(g: Guid, expected: DvnStatus, next: DvnStatus) returns (r: Reply<bool>)
      modifies this`dvn
      ensures Commits(Jobs.UpdateDvnStatus(old(View()), g, expected, next), View(), r)
    {
      if g == 0 { return Err(InvalidArgument); }
      if g !in dvn || dvn[g].status != expected { return Err(WrongStatus); }
      dvn := dvn[g := dvn[g].(status := next)];
      return Ok(true);
    }

    method EnqueueDvnVerifyTx(g: Guid, expected: DvnStatus, next: DvnStatus, request: TxRequest) returns (r: Reply<nat>)
      modifies this
      ensures Commits(Jobs.EnqueueDvnVerifyTx(old(View()), g, expected, next, request), View(), r)
    {
      var req := request;
      if req.guid.None? { req := req.(guid := Some(g)); }
      if g == 0 || req.guid != Some(g) || !Outbox.RequestComplete(req) { return Err(InvalidArgument); }
      if g !in dvn { return Err(JobNotFound); }
      if dvn[g].status != expected { return Err(WrongStatus); }
      var scope := ScopeOf(View(), req);
      if !scope.Active? { return Err(Outbox.GateError(scope)); }
      var id := InsertRow(FreshRow(req));
      dvn := dvn[g := dvn[g].(status := next)];
      return Ok(id);
    }

    method MarkDvnReorgDetectedWithCoordinates(
      g: Guid, expected: DvnStatus, block: nat, log: nat, oldBlock: nat, oldLog: nat) returns (r: Reply<bool>)
      modifies this
      ensures Commits(Jobs.MarkDvnReorgDetectedWithCoordinates(old(View()), g, expected, block, log, oldBlock, oldLog), View(), r)
    {
      r := UpdateDvnStatus(g, expected, ReorgDetected);
      if r.Err? { return; }
      if g in packets && packets[g].srcBlock == oldBlock && packets[g].srcLog == oldLog {
        packets := packets[g := packets[g].(srcBlock := block, srcLog := log)];
      }
      return Ok(true);
    }

    method MarkDvnManualReviewAndPausePathway(g: Guid, expected: DvnStatus) returns (r: Reply<bool>)
      modifies this
      ensures Commits(Jobs.MarkDvnManualReviewAndPausePathway(old(View()), g, expected), View(), r)
    {
      var saved := dvn;
      r := UpdateDvnStatus(g, expected, DvnManualReview);
      if r.Err? { return; }
      r := PausePathwayForPacket(g);
      if r.Err? {
        dvn := saved;
      }
    }

    // ----- pause.go -----

    method PauseChain(eid: Eid) returns (r: Reply<bool>)
      modifies this`chains
      ensures Commits(Jobs.PauseChain(old(View()), eid), View(), r)
    {
      if eid == 0 { return Err(InvalidArgument); }
      if eid !in chains { return Err(ChainNotFound); }
      chains := chains[eid := chains[eid].(paused := true)];
      return Ok(true);
    }

    method PausePathwayForPacket(g: Guid) returns (r: Reply<bool>)
      modifies this`pathways
      ensures Commits(Jobs.PausePathwayForPacket(old(View()), g), View(), r)
    {
      if g == 0 { return Err(InvalidArgument); }
      if g !in packets || packets[g].key !in pathways { return Err(PathwayNotFound); }
      var key := packets[g].key;
      pathways := pathways[key := pathways[key].(paused := true)];
      return Ok(true);
    }

    // ----- db.go -----

    /** Disable everything, then upsert the configured rows in whatever order they come. */
    method SyncConfig(registry: ConfigSync.Registry) returns (r: Reply<bool>)
      modifies this
      ensures Commits(ConfigSync.SyncConfig(old(View()), registry), View(), r)
    {
      var savedChains, savedPathways := chains, pathways;
      chains := ConfigSync.DisabledChains(chains);
      pathways := ConfigSync.DisabledPathways(pathways);
      UpsertChains(registry.chains, savedChains);
      var ok := UpsertPathways(registry.pathways, savedPathways);
      if !ok {
        chains, pathways := savedChains, savedPathways;
        return Err(ChainNotFound);
      }
      return Ok(true);
    }

    method UpsertChains(config: map<Eid, int>, ghost was: map<Eid, Chain>)
      requires chains == ConfigSync.DisabledChains(was)
      modifies this`chains
      ensures chains == ConfigSync.SyncedChains(was, config)
    {
      var todo := config.Keys;
      ghost var done: map<Eid, int> := map[];
      ConfigSync.NoChainsYet(was);
      while todo != {}
        invariant todo <= config.Keys && done == config - todo
        invariant chains == ConfigSync.SyncedChains(was, done)
        decreases |todo|
      {
        var e :| e in todo;
        ConfigSync.OneMoreChain(was, done, e, config[e]);
        if e in chains {
          chains := chains[e := chains[e].(enabled := true, meta := config[e])];
        } else {
          chains := chains[e := Chain(true, false, config[e])];
        }
        done := done[e := config[e]];
        todo := todo - {e};
      }
      assert done == config;
    }

    method UpsertPathways(config: map<PathKey, ConfigSync.PathwayConfig>, ghost was: map<PathKey, Pathway>) returns (ok: bool)
      requires pathways == ConfigSync.DisabledPathways(was)
      modifies this`pathways
      ensures ok <==> forall k :: k in config ==> ConfigSync.ChainsKnown(chains, was, k)
      ensures ok ==> pathways == ConfigSync.SyncedPathways(was, config)
    {
      var todo := config.Keys;
      ghost var done: map<PathKey, ConfigSync.PathwayConfig> := map[];
      ConfigSync.NoPathwaysYet(was);
      while todo != {}
        invariant todo <= config.Keys && done == config - todo
        invariant pathways == ConfigSync.SyncedPathways(was, done)
        invariant forall k :: k in done ==> ConfigSync.ChainsKnown(chains, was, k)
        decreases |todo|
      {
        var k :| k in todo;
        ConfigSync.OneMorePathway(was, done, k, config[k]);
        if k !in pathways && (k.src !in chains || k.dst !in chains) {
          assert !ConfigSync.ChainsKnown(chains, was, k);
          return false;
        }
        UpsertPathway(k, config[k]);
        ConfigSync.OneMoreDone(config, todo, k);
        done := done[k := config[k]];
        todo := todo - {k};
      }
      assert done == config;
      ok := true;
    }

    method UpsertPathway(k: PathKey, config: ConfigSync.PathwayConfig)
      modifies this`pathways
      ensures pathways == old(pathways)[k := ConfigSync.SyncedPathway(old(pathways), k, config)]
    {
      if k in pathways {
        pathways := pathways[k := pathways[k].(enabled := config.enabled, meta := config.meta)];
      } else {
        pathways := pathways[k := Pathway(config.enabled, false, config.meta)];
      }
    }
  }
}
