/** Every step writes only rows its transaction has locked, and passes a gate only under locks on all its
    flags; this is why a store call can be taken as one step (go/internal/db/send_scope.go). */
module LockCover {
  import opened Tables
  import opened SendScope
  import opened Outbox
  import opened Receipts
  import opened Jobs
  import opened Runs
  import opened OutboxEffects
  import opened Locks
  import Enqueues
  import Leases
  import Nonces
  import Records
  import Retries
  import Verdicts
  import ConfigSync

  // ----- the transaction a step runs as -----

  function ScopeAround(db: Db, req: TxRequest): Scope {
    if req.purpose.PricingSnapshot? && req.guid.None? then OneChain(req.chain)
    else if PacketPurpose(req.purpose) && req.guid.Some? && req.guid.value in db.packets then
      OnePathway(db.packets[req.guid.value].key)
    else NoScope
  }

  function RetryOf(db: Db, id: nat): Txn {
    if id !in db.outbox then EstimateRevertTxn(id)
    else
      var row := db.outbox[id];
      RetryTxn(id,
               if row.req.purpose.PricingSnapshot? then Some((row.req.chain, row.req.to)) else None,
               if Retries.ServesPacket(row) then Some(row.req.guid.value) else None,
               ScopeAround(db, row.req))
  }

  /** A claim of a row that is not in the lane stops after the lane's advisory key. */
  function ClaimOf(db: Db, id: nat, lane: Lane): Txn {
    if id !in db.outbox || LaneOf(db.outbox[id]) != lane then BootstrapTxn(lane)
    else ClaimTxn(lane, id, ScopeAround(db, db.outbox[id].req), db.outbox[id].nonce.None?)
  }

  function AbandonOf(db: Db, id: nat): Txn {
    if id !in db.outbox || db.outbox[id].req.guid.None? then AbandonTxn(id, None, None)
    else
      var (g, purpose) := (db.outbox[id].req.guid.value, db.outbox[id].req.purpose);
      if purpose.DvnVerify? then AbandonTxn(id, None, Some(g))
      else if purpose.CommitVerification? || purpose.LzReceive? then AbandonTxn(id, Some(g), None)
      else AbandonTxn(id, None, None)
  }

  /** A row that serves no stored packet is refused before anything but itself is locked. */
  function ExternalRetryOf(db: Db, id: nat): Txn {
    if id !in db.outbox || !ScopeAround(db, db.outbox[id].req).OnePathway? then EstimateRevertTxn(id)
    else
      var req := db.outbox[id].req;
      ExternalRetryTxn(id, ScopeAround(db, req), if req.purpose.DvnVerify? then DvnRow(req.guid.value) else ExecutorRow(req.guid.value))
  }

  function ParkOf(db: Db, g: Guid): Txn {
    if g in db.packets then DvnParkTxn(g, db.packets[g].key) else DvnMarkTxn(g)
  }

  predicate Modelled(step: Step) {
    !step.DoSendProgress? && !step.DoSyncConfig?
  }

  function TxnOf(db: Db, step: Step): Txn
    requires Modelled(step)
  {
    match step
    case DoEnqueueTx(req) => EnqueueTxn(ScopeAround(db, req))
    case DoEstimateRevert(id, _) => EstimateRevertTxn(id)
    case DoRetry(id, _) => RetryOf(db, id)
    case DoAutoRetry(_, _, _, _, pick) => if pick.Some? then RetryOf(db, pick.value) else EnqueueTxn(NoScope)
    case DoBootstrap(lane, _, _) => BootstrapTxn(lane)
    case DoClaim(id, lane, _, _) => ClaimOf(db, id, lane)
    case DoPinReceipt(id, attempt, _, _) => ReceiptTxn(attempt, id)
    case DoFinalize(id, attempt, _, _) => ReceiptTxn(attempt, id)
    case DoExternalRetry(id) => ExternalRetryOf(db, id)
    case DoExternalAbandon(id) => AbandonOf(db, id)
    case DoForwardCursor(lane, _) => ReconcileTxn(lane, [])
    case DoUpsertPacket(g, _) => UpsertTxn(PacketRow(g))
    case DoUpsertExecutorJob(g, _) => UpsertTxn(ExecutorRow(g))
    case DoUpsertDvnJob(g, _, _) => UpsertTxn(DvnRow(g))
    case DoEnqueueExecutor(g, _, _, req) => ExecutorEnqueueTxn(g, ScopeAround(db, req.(guid := Some(g))))
    case DoExecutorMark(u) => ExecutorMarkTxn(u.guid, if u.countFailure then u.receiveHash else None)
    case DoConfirmationMark(g, _, _, _, _) => DvnMarkTxn(g)
    case DoDvnMark(g, _, _) => DvnMarkTxn(g)
    case DoEnqueueDvn(g, req) => DvnEnqueueTxn(g, ScopeAround(db, req.(guid := Some(g))))
    case DoDvnReorg(g, _, _, _, _) => DvnReorgTxn(g)
    case DoDvnParkAndPause(g, _) => ParkOf(db, g)
    case DoPauseChain(eid) => PauseChainTxn(eid)
    case DoPausePathway(g) => if g in db.packets then PausePathwayTxn(db.packets[g].key) else EnqueueTxn(NoScope)
  }

  // ----- writes -----

  ghost predicate Writable(txn: Txn, r: Resource) {
    Lock(r, Exclusive) in Program(txn)
  }

  ghost predicate RowsCovered(db: Db, db': Db, txn: Txn) {
    forall id :: id in db.outbox && (id !in db'.outbox || db'.outbox[id] != db.outbox[id]) ==> Writable(txn, OutboxRow(id))
  }

  ghost predicate CursorsCovered(db: Db, db': Db, txn: Txn) {
    forall lane :: Nonces.SameCursor(db, db', lane) || Writable(txn, CursorRow(lane))
  }

  ghost predicate JobsCovered(db: Db, db': Db, txn: Txn) {
    && (forall g :: g in db.jobs && (g !in db'.jobs || db'.jobs[g] != db.jobs[g]) ==> Writable(txn, ExecutorRow(g)))
    && (forall p :: p in db'.ledger && p !in db.ledger ==> Writable(txn, LedgerKey(p.0, p.1)))
  }

  ghost predicate DvnCovered(db: Db, db': Db, txn: Txn) {
    forall g :: g in db.dvn && (g !in db'.dvn || db'.dvn[g] != db.dvn[g]) ==> Writable(txn, DvnRow(g))
  }

  ghost predicate PacketsCovered(db: Db, db': Db, txn: Txn) {
    forall g :: g in db.packets && (g !in db'.packets || db'.packets[g] != db.packets[g]) ==> Writable(txn, PacketRow(g))
  }

  ghost predicate FlagsCovered(db: Db, db': Db, txn: Txn) {
    && (forall e :: e in db.chains && (e !in db'.chains || db'.chains[e] != db.chains[e]) ==> Writable(txn, ChainRow(e)))
    && (forall k :: k in db.pathways && (k !in db'.pathways || db'.pathways[k] != db.pathways[k]) ==> Writable(txn, PathwayRow(k)))
  }

  /** The program locks the row the step addresses. */
  lemma TargetLocked(db: Db, step: Step)
    requires Modelled(step) && Target(step).Some?
    requires step.DoClaim? ==> step.id in db.outbox && LaneOf(db.outbox[step.id]) == step.lane
    ensures Writable(TxnOf(db, step), OutboxRow(Target(step).value))
  {
    var p := Program(TxnOf(db, step));
    if step.DoClaim? || step.DoPinReceipt? || step.DoFinalize? {
      assert p[1] == Lock(OutboxRow(Target(step).value), Exclusive);
    } else {
      assert p[0] == Lock(OutboxRow(Target(step).value), Exclusive);
    }
  }

  lemma StrangerNotClaimed(db: Db, id: nat, lane: Lane, now: int, ttl: nat)
    requires id !in db.outbox || LaneOf(db.outbox[id]) != lane
    ensures ClaimOutboxForSigning(db, id, lane, now, ttl).db == db
  {
  }

  lemma RowsAreCovered(db: Db, step: Step)
    requires WellFormed(db) && Permitted(db, step) && Modelled(step)
    ensures RowsCovered(db, Next(db, step), TxnOf(db, step))
  {
    forall id | id in db.outbox && (id !in Next(db, step).outbox || Next(db, step).outbox[id] != db.outbox[id])
      ensures Writable(TxnOf(db, step), OutboxRow(id))
    {
      RowLocked(db, step, id);
    }
  }

  lemma RowLocked(db: Db, step: Step, id: nat)
    requires WellFormed(db) && Permitted(db, step) && Modelled(step)
    requires id in db.outbox && (id !in Next(db, step).outbox || Next(db, step).outbox[id] != db.outbox[id])
    ensures Writable(TxnOf(db, step), OutboxRow(id))
  {
    if Target(step) != Some(id) {
      UnaddressedStays(db, step, id);
    } else {
      if step.DoClaim? && LaneOf(db.outbox[id]) != step.lane { StrangerNotClaimed(db, id, step.lane, step.now, step.ttl); }
      TargetLocked(db, step);
    }
  }

  lemma ClaimCursor(db: Db, step: Step, lane: Lane)
    requires step.DoClaim?
    ensures Nonces.SameCursor(db, ClaimOutboxForSigning(db, step.id, step.lane, step.now, step.ttl).db, lane)
         || Writable(TxnOf(db, step), CursorRow(lane))
  {
    if ClaimOutboxForSigning(db, step.id, step.lane, step.now, step.ttl).reply.Ok? {
      Leases.ClaimGrants(db, step.id, step.lane, step.now, step.ttl);
      Leases.ValidClaim(db, step.id, step.lane, step.now, step.ttl);
      var p := Program(TxnOf(db, step));
      if db.outbox[step.id].nonce.None? { assert p[|p| - 1] == Lock(CursorRow(step.lane), Exclusive); }
    } else {
      ClaimErr(db, step.id, step.lane, step.now, step.ttl);
    }
  }

  lemma LaneStepCursor(db: Db, step: Step, lane: Lane)
    requires Permitted(db, step) && (step.DoBootstrap? || step.DoForwardCursor?)
    ensures Nonces.SameCursor(db, SendingNext(db, step), lane) || Writable(TxnOf(db, step), CursorRow(lane))
  {
    var p := Program(TxnOf(db, step));
    assert p[1] == Lock(CursorRow(step.lane), Exclusive);
    if step.DoBootstrap? {
      Nonces.BootstrapStartsAt(db, step.lane, step.rpcPending, step.local);
    } else {
      Nonces.ForwardReaches(db, step.lane, step.confirmed);
    }
  }

  lemma CursorLocked(db: Db, step: Step, lane: Lane)
    requires Permitted(db, step) && SendingStep(step) && Modelled(step)
    ensures Nonces.SameCursor(db, SendingNext(db, step), lane) || Writable(TxnOf(db, step), CursorRow(lane))
  {
    if step.DoClaim? {
      ClaimCursor(db, step, lane);
    } else if step.DoBootstrap? || step.DoForwardCursor? {
      LaneStepCursor(db, step, lane);
    } else {
      SendingFrame(db, step);
    }
  }

  lemma CursorsAreCovered(db: Db, step: Step)
    requires Permitted(db, step) && Modelled(step)
    ensures CursorsCovered(db, Next(db, step), TxnOf(db, step))
  {
    if SendingStep(step) {
      forall lane ensures Nonces.SameCursor(db, SendingNext(db, step), lane) || Writable(TxnOf(db, step), CursorRow(lane)) {
        CursorLocked(db, step, lane);
      }
    } else {
      WorkerFrame(db, step);
    }
  }

  // ----- jobs and packets -----

  /** Only the job of `g`, if any, and its packet may differ. */
  ghost predicate OnlyJob(db: Db, db': Db, g: Option<Guid>) {
    && (forall h :: h in db.jobs && Some(h) != g ==> h in db'.jobs && db'.jobs[h] == db.jobs[h])
    && (forall h :: h in db.packets && Some(h) != g ==> h in db'.packets && db'.packets[h] == db.packets[h])
    && db'.ledger == db.ledger
  }

  function Served(row: Row): Option<Guid> {
    if Retries.ServesPacket(row) then row.req.guid else None
  }

  /** The two tables differ at most at `g`. */
  ghost predicate OnlyAt(db: Db, db': Db, g: Guid) {
    && (db'.jobs == db.jobs || (g in db'.jobs && db'.jobs == db.jobs[g := db'.jobs[g]]))
    && (db'.packets == db.packets || (g in db'.packets && db'.packets == db.packets[g := db'.packets[g]]))
    && db'.ledger == db.ledger
  }

  lemma OnlyAtIsOnlyJob(db: Db, db': Db, g: Guid)
    requires OnlyAt(db, db', g)
    ensures OnlyJob(db, db', Some(g))
  {
  }

  lemma SameIsOnlyJob(db: Db, db': Db, g: Option<Guid>)
    requires db'.jobs == db.jobs && db'.packets == db.packets && db'.ledger == db.ledger
    ensures OnlyJob(db, db', g)
  {
  }

  lemma WorkflowAt(db: Db, id: nat)
    requires id in db.outbox && !PrepareReceiptRetryWorkflow(db, id).WorkflowError? && Retries.ServesPacket(db.outbox[id])
    ensures OnlyAt(db, PrepareReceiptRetryWorkflow(db, id).db, db.outbox[id].req.guid.value)
  {
  }

  lemma WorkflowTouches(db: Db, id: nat)
    requires id in db.outbox && !PrepareReceiptRetryWorkflow(db, id).WorkflowError?
    ensures OnlyJob(db, PrepareReceiptRetryWorkflow(db, id).db, Served(db.outbox[id]))
  {
    var db' := PrepareReceiptRetryWorkflow(db, id).db;
    if Retries.ServesPacket(db.outbox[id]) {
      WorkflowAt(db, id);
      OnlyAtIsOnlyJob(db, db', db.outbox[id].req.guid.value);
    } else {
      SameIsOnlyJob(db, db', None);
    }
  }

  lemma CloneTouches(db: Db, id: nat, now: int, refusal: StoreError)
    requires id in db.outbox
    ensures OnlyJob(db, GatedClone(db, id, now, refusal).db, Served(db.outbox[id]))
  {
    CloneEnds(db, id, now, refusal);
    if !PrepareReceiptRetryWorkflow(db, id).WorkflowError? { WorkflowTouches(db, id); }
  }

  lemma RetryTouches(db: Db, id: nat, now: int)
    requires id in db.outbox
    ensures OnlyJob(db, RetryFailedTx(db, id, now).db, Served(db.outbox[id]))
  {
    RetryPaths(db, id, now);
    CloneTouches(db, id, now, ScopeInactive);
  }

  lemma AutoRetryTouches(db: Db, id: nat, now: int)
    requires id in db.outbox && db.outbox[id].status == Failed
    ensures OnlyJob(db, PrepareNextFailedTxRetry(db, Some(id), now).db, Served(db.outbox[id]))
  {
    AutoRetryPaths(db, id, now);
    CloneTouches(db, id, now, NoFailedTxRetry);
  }

  /** The executor job an abandoned transaction serves. */
  function Abandoned(db: Db, id: nat): Option<Guid> {
    if id in db.outbox && (db.outbox[id].req.purpose.CommitVerification? || db.outbox[id].req.purpose.LzReceive?)
    then db.outbox[id].req.guid else None
  }

  lemma AbandonAt(db: Db, id: nat)
    requires Abandoned(db, id).Some?
    ensures OnlyAt(db, ResolveExternalNonceAbandon(db, id).db, Abandoned(db, id).value)
  {
  }

  lemma AbandonElsewhere(db: Db, id: nat)
    requires Abandoned(db, id).None?
    ensures var db' := ResolveExternalNonceAbandon(db, id).db; db'.jobs == db.jobs && db'.packets == db.packets && db'.ledger == db.ledger
  {
  }

  lemma AbandonTouches(db: Db, id: nat)
    ensures OnlyJob(db, ResolveExternalNonceAbandon(db, id).db, Abandoned(db, id))
  {
    var db' := ResolveExternalNonceAbandon(db, id).db;
    if Abandoned(db, id).Some? {
      AbandonAt(db, id);
      OnlyAtIsOnlyJob(db, db', Abandoned(db, id).value);
    } else {
      AbandonElsewhere(db, id);
      SameIsOnlyJob(db, db', None);
    }
  }

  ghost predicate BothCovered(db: Db, db': Db, txn: Txn) {
    JobsCovered(db, db', txn) && PacketsCovered(db, db', txn)
  }

  lemma OnlyJobCovered(db: Db, db': Db, g: Option<Guid>, txn: Txn)
    requires OnlyJob(db, db', g) && (g.Some? ==> Writable(txn, ExecutorRow(g.value)) && Writable(txn, PacketRow(g.value)))
    ensures BothCovered(db, db', txn)
  {
  }

  lemma SameBothCovered(db: Db, db': Db, txn: Txn)
    requires db'.jobs == db.jobs && db'.packets == db.packets && db'.ledger == db.ledger
    ensures BothCovered(db, db', txn)
  {
  }

  lemma SameDvnCovered(db: Db, db': Db, txn: Txn)
    requires db'.dvn == db.dvn
    ensures DvnCovered(db, db', txn)
  {
  }

  lemma SameFlagsCovered(db: Db, db': Db, txn: Txn)
    requires db'.chains == db.chains && db'.pathways == db.pathways
    ensures FlagsCovered(db, db', txn)
  {
  }

  lemma RetryLocksJob(db: Db, id: nat)
    requires id in db.outbox && Served(db.outbox[id]).Some?
    ensures var g := db.outbox[id].req.guid.value;
      Writable(RetryOf(db, id), ExecutorRow(g)) && Writable(RetryOf(db, id), PacketRow(g))
  {
    var p := Program(RetryOf(db, id));
    var g := db.outbox[id].req.guid.value;
    assert p[1] == Lock(ExecutorRow(g), Exclusive) && p[|p| - 1] == Lock(PacketRow(g), Exclusive);
  }

  lemma RetryCovered(db: Db, step: Step)
    requires Permitted(db, step) && (step.DoRetry? || step.DoAutoRetry?)
    ensures BothCovered(db, SendingNext(db, step), TxnOf(db, step))
  {
    var id := if step.DoRetry? then Some(step.id) else step.pick;
    if id.Some? && id.value in db.outbox {
      if step.DoRetry? { RetryTouches(db, id.value, step.now); } else { AutoRetryTouches(db, id.value, step.now); }
      if Served(db.outbox[id.value]).Some? { RetryLocksJob(db, id.value); }
      OnlyJobCovered(db, SendingNext(db, step), Served(db.outbox[id.value]), TxnOf(db, step));
    }
  }

  lemma AbandonCovered(db: Db, id: nat)
    ensures BothCovered(db, ResolveExternalNonceAbandon(db, id).db, AbandonOf(db, id))
  {
    AbandonTouches(db, id);
    if Abandoned(db, id).Some? {
      var (p, g) := (Program(AbandonOf(db, id)), db.outbox[id].req.guid.value);
      assert p[1] == Lock(ExecutorRow(g), Exclusive) && p[2] == Lock(PacketRow(g), Exclusive);
    }
    OnlyJobCovered(db, ResolveExternalNonceAbandon(db, id).db, Abandoned(db, id), AbandonOf(db, id));
  }

  lemma EnqueueCovered(db: Db, g: Guid, expected: ExecutorStatus, next: ExecutorStatus, req: TxRequest)
    ensures BothCovered(db, EnqueueExecutorTx(db, g, expected, next, req).db,
                        ExecutorEnqueueTxn(g, ScopeAround(db, req.(guid := Some(g)))))
  {
    var txn := ExecutorEnqueueTxn(g, ScopeAround(db, req.(guid := Some(g))));
    var p := Program(txn);
    Enqueues.ExecutorEnqueueIff(db, g, expected, next, req);
    assert p[0] == Lock(ExecutorRow(g), Exclusive) && p[|p| - 1] == Lock(PacketRow(g), Exclusive);
    assert OnlyJob(db, EnqueueExecutorTx(db, g, expected, next, req).db, Some(g));
    OnlyJobCovered(db, EnqueueExecutorTx(db, g, expected, next, req).db, Some(g), txn);
  }

  lemma MarkCovered(db: Db, u: ExecutorUpdate)
    ensures BothCovered(db, UpdateExecutorStatus(db, u).db, ExecutorMarkTxn(u.guid, if u.countFailure then u.receiveHash else None))
  {
    var p := Program(ExecutorMarkTxn(u.guid, if u.countFailure then u.receiveHash else None));
    Records.ExecutorMarkIff(db, u);
    assert p[|p| - 2] == Lock(ExecutorRow(u.guid), Exclusive) && p[|p| - 1] == Lock(PacketRow(u.guid), Exclusive);
    if u.countFailure && u.receiveHash.Some? { assert p[0] == Lock(LedgerKey(u.guid, u.receiveHash.value), Exclusive); }
  }

  lemma IndexingCovered(db: Db, step: Step)
    requires Permitted(db, step) && IndexingStep(step)
    ensures BothCovered(db, WorkerNext(db, step), TxnOf(db, step)) && DvnCovered(db, WorkerNext(db, step), TxnOf(db, step))
  {
    var p := Program(TxnOf(db, step));
    if step.DoUpsertPacket? {
      assert p[0] == Lock(PacketRow(step.g), Exclusive);
      Records.PacketIndexedIff(db, step.g, step.packet);
    } else if step.DoUpsertExecutorJob? {
      assert p[0] == Lock(ExecutorRow(step.g), Exclusive);
      Records.JobIndexedIff(db, step.g, step.fee, Assigned);
    } else {
      assert p[0] == Lock(DvnRow(step.g), Exclusive);
      Records.DvnIndexedIff(db, step.g, step.fee, step.confirmations, DvnAssigned);
    }
  }

  lemma ReorgCovered(db: Db, step: Step)
    requires Permitted(db, step) && step.DoDvnReorg?
    ensures BothCovered(db, WorkerNext(db, step), TxnOf(db, step))
  {
    var p := Program(TxnOf(db, step));
    assert p[1] == Lock(PacketRow(step.g), Exclusive);
    Records.ReorgIff(db, step.g, QuorumChecking, step.block, step.log, step.oldBlock, step.oldLog);
  }

  lemma SendingBothCovered(db: Db, step: Step)
    requires Permitted(db, step) && SendingStep(step) && Modelled(step)
    ensures BothCovered(db, SendingNext(db, step), TxnOf(db, step))
  {
    if step.DoRetry? || step.DoAutoRetry? {
      RetryCovered(db, step);
    } else if step.DoExternalAbandon? {
      AbandonCovered(db, step.id);
    } else {
      SendingFrame(db, step);
      SameBothCovered(db, SendingNext(db, step), TxnOf(db, step));
    }
  }

  lemma WorkerBothCovered(db: Db, step: Step)
    requires Permitted(db, step) && !SendingStep(step) && Modelled(step)
    ensures BothCovered(db, WorkerNext(db, step), TxnOf(db, step))
  {
    if step.DoEnqueueExecutor? {
      EnqueueCovered(db, step.g, step.expected, step.next, step.req);
    } else if step.DoExecutorMark? {
      MarkCovered(db, step.u);
    } else if IndexingStep(step) {
      IndexingCovered(db, step);
    } else if step.DoDvnReorg? {
      ReorgCovered(db, step);
    } else {
      WorkerFrame(db, step);
      SameBothCovered(db, WorkerNext(db, step), TxnOf(db, step));
    }
  }

  // ----- DVN jobs -----

  lemma AbandonDvnCovered(db: Db, id: nat)
    ensures DvnCovered(db, ResolveExternalNonceAbandon(db, id).db, AbandonOf(db, id))
  {
    AbandonTouchesDvn(db, id);
    if id in db.outbox && db.outbox[id].req.guid.Some? && db.outbox[id].req.purpose.DvnVerify? {
      assert Program(AbandonOf(db, id))[1] == Lock(DvnRow(db.outbox[id].req.guid.value), Exclusive);
    }
  }

  lemma AbandonTouchesDvn(db: Db, id: nat)
    ensures var db' := ResolveExternalNonceAbandon(db, id).db;
      forall h :: h in db.dvn && (h !in db'.dvn || db'.dvn[h] != db.dvn[h]) ==>
        id in db.outbox && db.outbox[id].req.guid == Some(h) && db.outbox[id].req.purpose.DvnVerify?
  {
  }

  lemma DvnStepCovered(db: Db, step: Step)
    requires Permitted(db, step) && DvnStep(step)
    ensures DvnCovered(db, WorkerNext(db, step), TxnOf(db, step))
  {
    assert Program(TxnOf(db, step))[0] == Lock(DvnRow(step.g), Exclusive);
    if step.DoConfirmationMark? {
      Records.DvnMarkIff(db, step.g, step.from, QuorumChecking);
    } else if step.DoDvnMark? {
      Records.DvnMarkIff(db, step.g, step.from, step.to);
    } else if step.DoEnqueueDvn? {
      Enqueues.DvnEnqueueIff(db, step.g, ReadyToVerify, VerifyTxEnqueued, step.req);
    } else if step.DoDvnReorg? {
      Records.ReorgIff(db, step.g, QuorumChecking, step.block, step.log, step.oldBlock, step.oldLog);
    } else {
      Records.ParkIff(db, step.g, step.from);
    }
  }

  lemma SendingDvnCovered(db: Db, step: Step)
    requires Permitted(db, step) && SendingStep(step) && Modelled(step)
    ensures DvnCovered(db, SendingNext(db, step), TxnOf(db, step))
  {
    if step.DoExternalAbandon? {
      AbandonDvnCovered(db, step.id);
    } else {
      SendingFrame(db, step);
      SameDvnCovered(db, SendingNext(db, step), TxnOf(db, step));
    }
  }

  lemma WorkerDvnCovered(db: Db, step: Step)
    requires Permitted(db, step) && !SendingStep(step) && Modelled(step)
    ensures DvnCovered(db, WorkerNext(db, step), TxnOf(db, step))
  {
    if DvnStep(step) {
      DvnStepCovered(db, step);
    } else if IndexingStep(step) {
      IndexingCovered(db, step);
    } else {
      WorkerFrame(db, step);
      SameDvnCovered(db, WorkerNext(db, step), TxnOf(db, step));
    }
  }

  // ----- flags -----

  lemma PauseCovered(db: Db, step: Step)
    requires Permitted(db, step) && (step.DoPauseChain? || step.DoPausePathway? || step.DoDvnParkAndPause?)
    ensures FlagsCovered(db, WorkerNext(db, step), TxnOf(db, step))
  {
    var p := Program(TxnOf(db, step));
    if step.DoPauseChain? {
      Records.PauseIff(db, step.eid, 0);
      assert p[0] == Lock(ChainRow(step.eid), Exclusive);
    } else if step.DoPausePathway? {
      Records.PauseIff(db, 0, step.g);
      if step.g in db.packets { assert p[0] == Lock(PathwayRow(db.packets[step.g].key), Exclusive); }
    } else {
      Records.ParkIff(db, step.g, step.from);
      if step.g in db.packets { assert p[1] == Lock(PathwayRow(db.packets[step.g].key), Exclusive); }
    }
  }

  lemma SendingFlagsCovered(db: Db, step: Step)
    requires Permitted(db, step) && SendingStep(step) && Modelled(step)
    ensures FlagsCovered(db, SendingNext(db, step), TxnOf(db, step))
  {
    SendingFrame(db, step);
    SameFlagsCovered(db, SendingNext(db, step), TxnOf(db, step));
  }

  lemma WorkerFlagsCovered(db: Db, step: Step)
    requires Permitted(db, step) && !SendingStep(step) && Modelled(step)
    ensures FlagsCovered(db, WorkerNext(db, step), TxnOf(db, step))
  {
    if TouchesFlags(step) {
      PauseCovered(db, step);
    } else {
      WorkerFrame(db, step);
      SameFlagsCovered(db, WorkerNext(db, step), TxnOf(db, step));
    }
  }

  /** A sync locks every stored chain and pathway before it rewrites them. */
  lemma SyncCovered(db: Db, registry: ConfigSync.Registry, eids: seq<Eid>, keys: seq<PathKey>)
    requires (forall e :: e in db.chains <==> e in eids) && (forall k :: k in db.pathways <==> k in keys)
    ensures FlagsCovered(db, ConfigSync.SyncConfig(db, registry).db, SyncConfigTxn(eids, keys))
  {
    var p := Program(SyncConfigTxn(eids, keys));
    forall e | e in db.chains ensures Lock(ChainRow(e), Exclusive) in p {
      var i :| 0 <= i < |eids| && eids[i] == e;
      assert p[1 + i] == Lock(ChainRow(e), Exclusive);
    }
    forall k | k in db.pathways ensures Lock(PathwayRow(k), Exclusive) in p {
      var i :| 0 <= i < |keys| && keys[i] == k;
      assert p[1 + |eids| + i] == Lock(PathwayRow(k), Exclusive);
    }
  }

  ghost predicate WritesCovered(db: Db, db': Db, txn: Txn) {
    && RowsCovered(db, db', txn) && CursorsCovered(db, db', txn) && BothCovered(db, db', txn)
    && DvnCovered(db, db', txn) && FlagsCovered(db, db', txn)
  }

  /** Every stored row that a step changes, in any table, is one its transaction has locked for writing. */
  lemma WritesAreLocked(db: Db, step: Step)
    requires WellFormed(db) && Permitted(db, step) && Modelled(step)
    ensures WritesCovered(db, Next(db, step), TxnOf(db, step))
  {
    RowsAreCovered(db, step);
    CursorsAreCovered(db, step);
    if SendingStep(step) {
      SendingFlagsCovered(db, step);
      SendingBothCovered(db, step);
      SendingDvnCovered(db, step);
    } else {
      WorkerFlagsCovered(db, step);
      WorkerBothCovered(db, step);
      WorkerDvnCovered(db, step);
    }
  }

  // ----- gates -----

  function RowOf(gate: Gate): Resource {
    match gate
    case ChainGate(eid) => ChainRow(eid)
    case PathwayGate(key) => PathwayRow(key)
  }

  ghost predicate GatesLocked(db: Db, req: TxRequest, txn: Txn) {
    forall gate :: Behind(db, req, gate) ==> Lock(RowOf(gate), Share) in Program(txn)
  }

  /** A scope locks the row of every gate in front of an addressed request. */
  lemma ScopeLocksGates(db: Db, req: TxRequest, gate: Gate)
    requires Addressed(db, req) && Behind(db, req, gate)
    ensures Lock(RowOf(gate), Share) in ScopeLocks(ScopeAround(db, req))
  {
    var locks := ScopeLocks(ScopeAround(db, req));
    if req.purpose.PricingSnapshot? {
      assert locks[0] == Lock(RowOf(gate), Share);
    } else {
      var key := db.packets[req.guid.value].key;
      assert locks[|locks| - 1] == Lock(PathwayRow(key), Share);
      assert key.src < key.dst ==> locks[0] == Lock(ChainRow(key.src), Share) && locks[1] == Lock(ChainRow(key.dst), Share);
      assert key.dst < key.src ==> locks[0] == Lock(ChainRow(key.dst), Share) && locks[1] == Lock(ChainRow(key.src), Share);
      assert key.dst == key.src ==> locks[0] == Lock(ChainRow(key.src), Share);
    }
  }

  /** The step starts spending for row `id`: it adds the row, queues it again, or gives it its nonce. */
  ghost predicate Spends(db: Db, db': Db, id: nat) {
    && id in db'.outbox
    && (|| id !in db.outbox || (db.outbox[id].status == Failed && db'.outbox[id].status == Queued)
        || (db.outbox[id].nonce.None? && db'.outbox[id].nonce.Some?))
  }

  predicate InProgram(scope: Scope, txn: Txn) {
    forall lock :: lock in ScopeLocks(scope) ==> lock in Program(txn)
  }

  lemma RetryLocksScope(db: Db, id: nat)
    requires id in db.outbox
    ensures InProgram(ScopeAround(db, db.outbox[id].req), RetryOf(db, id))
  {
  }

  lemma ClaimLocksScope(db: Db, id: nat)
    requires id in db.outbox && db.outbox[id].nonce.None?
    ensures InProgram(ScopeAround(db, db.outbox[id].req), ClaimOf(db, id, LaneOf(db.outbox[id])))
  {
  }

  lemma EnqueueLocksScope(db: Db, step: Step)
    requires Enqueues.IsEnqueue(step)
    ensures InProgram(ScopeAround(db, Enqueues.Asked(step)), TxnOf(db, step))
  {
  }

  lemma ExternalRetryLocksScope(db: Db, id: nat)
    requires id in db.outbox && ScopeAround(db, db.outbox[id].req).OnePathway?
    ensures InProgram(ScopeAround(db, db.outbox[id].req), ExternalRetryOf(db, id))
  {
  }

  lemma ScopeInProgram(db: Db, req: TxRequest, txn: Txn)
    requires Addressed(db, req) && InProgram(ScopeAround(db, req), txn)
    ensures GatesLocked(db, req, txn)
  {
    forall gate | Behind(db, req, gate) ensures Lock(RowOf(gate), Share) in Program(txn) { ScopeLocksGates(db, req, gate); }
  }

  /** Steps that address a row and neither clone nor queue it again. */
  predicate EditsOnly(step: Step) {
    step.DoEstimateRevert? || step.DoClaim? || step.DoPinReceipt? || step.DoFinalize? || step.DoExternalAbandon?
  }

  lemma ClaimEdits(db: Db, id: nat, lane: Lane, now: int, ttl: nat)
    ensures var db' := ClaimOutboxForSigning(db, id, lane, now, ttl).db;
      db'.outbox.Keys == db.outbox.Keys && (id in db.outbox && db'.outbox[id].status == Queued ==> db.outbox[id].status == Queued)
  {
    if ClaimOutboxForSigning(db, id, lane, now, ttl).reply.Ok? {
      Leases.ClaimGrants(db, id, lane, now, ttl);
    } else {
      ClaimErr(db, id, lane, now, ttl);
    }
  }

  lemma AbandonEdits(db: Db, id: nat)
    ensures var db' := ResolveExternalNonceAbandon(db, id).db;
      db'.outbox.Keys == db.outbox.Keys && (id in db.outbox && db'.outbox[id].status == Queued ==> db.outbox[id].status == Queued)
  {
  }

  lemma EstimateEdits(db: Db, id: nat, now: int)
    ensures var db' := MarkQueuedTxEstimateRevertFailed(db, id, now).db;
      db'.outbox.Keys == db.outbox.Keys && (id in db.outbox && db'.outbox[id].status == Queued ==> db.outbox[id].status == Queued)
  {
    Retries.EstimateRevertIff(db, id, now);
  }

  lemma PinEdits(db: Db, id: nat, attempt: nat, cancelAttempt: bool, success: bool)
    ensures var db' := PrepareReceiptResolution(db, id, attempt, cancelAttempt, success).db;
      db'.outbox.Keys == db.outbox.Keys && (id in db.outbox && db'.outbox[id].status == Queued ==> db.outbox[id].status == Queued)
  {
    Verdicts.PinSucceedsIff(db, id, attempt, cancelAttempt, success);
  }

  lemma FinalizeEdits(db: Db, id: nat, attempt: nat, costDst: nat, now: int)
    ensures var db' := FinalizeAttemptReceipt(db, id, attempt, costDst, now).db;
      db'.outbox.Keys == db.outbox.Keys && (id in db.outbox && db'.outbox[id].status == Queued ==> db.outbox[id].status == Queued)
  {
    Verdicts.FinalizeApplies(db, id, attempt, costDst, now);
  }

  lemma EditsKeepRows(db: Db, step: Step)
    requires Permitted(db, step) && EditsOnly(step)
    ensures var db' := SendingNext(db, step);
      && db'.outbox.Keys == db.outbox.Keys
      && (step.id in db.outbox && db'.outbox[step.id].status == Queued ==> db.outbox[step.id].status == Queued)
  {
    if step.DoClaim? {
      ClaimEdits(db, step.id, step.lane, step.now, step.ttl);
    } else if step.DoExternalAbandon? {
      AbandonEdits(db, step.id);
    } else if step.DoEstimateRevert? {
      EstimateEdits(db, step.id, step.now);
    } else if step.DoPinReceipt? {
      PinEdits(db, step.id, step.attempt, step.cancelAttempt, step.success);
    } else {
      FinalizeEdits(db, step.id, step.attempt, step.costDst, step.now);
    }
  }

  /** A retry locks the scope of its row, which is also the scope of its clone. */
  lemma RetriesLockScope(db: Db, step: Step, id: nat)
    requires Permitted(db, step) && Modelled(step) && Target(step) == Some(id) && id in db.outbox && !EditsOnly(step)
    requires step.DoExternalRetry? ==> Addressed(db, db.outbox[id].req) && PacketPurpose(db.outbox[id].req.purpose)
    ensures InProgram(ScopeAround(db, db.outbox[id].req), TxnOf(db, step))
  {
    if step.DoExternalRetry? { ExternalRetryLocksScope(db, id); } else { RetryLocksScope(db, id); }
  }

  lemma NewcomerIsActive(db: Db, db': Db, target: Option<nat>, id: nat)
    requires Effect(db, db', target) && id in db'.outbox && id !in db.outbox
    ensures Addressed(db, db'.outbox[id].req)
  {
    ActiveIffNothingShut(db, db'.outbox[id].req);
  }

  lemma ExternalClonePurpose(db: Db, id: nat)
    requires db.nextId !in db.outbox && ResolveExternalNonceRetry(db, id).db != db
    ensures id in db.outbox && PacketPurpose(db.outbox[id].req.purpose)
  {
    Enqueues.ExternalRetryIff(db, id);
  }

  /** A clone is added under locks on every gate in front of it. */
  lemma CloneGates(db: Db, step: Step, id: nat)
    requires WellFormed(db) && Permitted(db, step) && Modelled(step) && Effect(db, Next(db, step), Target(step))
    requires id in Next(db, step).outbox && id !in db.outbox && Next(db, step).outbox[id].retryOf.Some?
    ensures GatesLocked(db, Next(db, step).outbox[id].req, TxnOf(db, step))
  {
    var db' := Next(db, step);
    Enqueues.CloneRepeats(db, db', Target(step), id);
    NewcomerIsActive(db, db', Target(step), id);
    AddressedIsSending(db, step);
    if EditsOnly(step) { EditsKeepRows(db, step); }
    if step.DoExternalRetry? { ExternalClonePurpose(db, step.id); }
    RetriesLockScope(db, step, Target(step).value);
    ScopeInProgram(db, db'.outbox[id].req, TxnOf(db, step));
  }

  lemma OrderGates(db: Db, step: Step, id: nat)
    requires WellFormed(db) && Permitted(db, step) && Modelled(step) && Effect(db, Next(db, step), Target(step))
    requires id in Next(db, step).outbox && id !in db.outbox && Next(db, step).outbox[id].retryOf.None?
    ensures GatesLocked(db, Next(db, step).outbox[id].req, TxnOf(db, step))
  {
    Enqueues.NewcomerId(db, Next(db, step), Target(step), id);
    Enqueues.OrderOfStep(db, step, id);
    NewcomerIsActive(db, Next(db, step), Target(step), id);
    EnqueueLocksScope(db, step);
    ScopeInProgram(db, Next(db, step).outbox[id].req, TxnOf(db, step));
  }

  lemma SpendingEdge(db: Db, db': Db, target: Option<nat>, id: nat)
    requires Effect(db, db', target) && id in db.outbox && Spends(db, db', id)
    ensures target == Some(id) && db'.outbox[id].req == db.outbox[id].req && Addressed(db, db.outbox[id].req)
  {
    assert RowEdge(db, db', db.outbox[id], db'.outbox[id]);
    ActiveIffNothingShut(db, db.outbox[id].req);
  }

  lemma CursorsStay(db: Db, step: Step)
    requires Permitted(db, step) && SendingStep(step) && Target(step).Some? && !step.DoClaim?
    ensures SendingNext(db, step).cursors == db.cursors
  {
    SendingFrame(db, step);
  }

  lemma UnclaimedNonce(db: Db, step: Step, id: nat)
    requires WellFormed(db) && Permitted(db, step) && SendingStep(step) && Target(step) == Some(id) && id in db.outbox
    requires !step.DoClaim?
    ensures id in SendingNext(db, step).outbox && SendingNext(db, step).outbox[id].nonce == db.outbox[id].nonce
  {
    CursorsStay(db, step);
    StepEffect(db, step);
    NonceStays(db, Next(db, step), Target(step), id);
  }

  lemma NonceStays(db: Db, db': Db, target: Option<nat>, id: nat)
    requires Effect(db, db', target) && db'.cursors == db.cursors && id in db.outbox
    ensures id in db'.outbox && db'.outbox[id].nonce == db.outbox[id].nonce
  {
    assert RowEdge(db, db', db.outbox[id], db'.outbox[id]);
  }

  lemma OldRowGates(db: Db, step: Step, id: nat)
    requires WellFormed(db) && Permitted(db, step) && Modelled(step) && Effect(db, Next(db, step), Target(step))
    requires id in db.outbox && Spends(db, Next(db, step), id)
    ensures GatesLocked(db, Next(db, step).outbox[id].req, TxnOf(db, step))
  {
    SpendingEdge(db, Next(db, step), Target(step), id);
    AddressedIsSending(db, step);
    OldRowLocksScope(db, step, id);
    ScopeInProgram(db, db.outbox[id].req, TxnOf(db, step));
  }

  lemma ExternalRetryNeverQueues(db: Db, id: nat)
    requires db.nextId !in db.outbox && id in db.outbox
    ensures var db' := ResolveExternalNonceRetry(db, id).db;
      id in db'.outbox && db'.outbox[id].nonce == db.outbox[id].nonce && (db'.outbox[id].status == Queued ==> db.outbox[id].status == Queued)
  {
    Enqueues.ExternalRetryIff(db, id);
  }

  lemma ClaimingLocksScope(db: Db, id: nat, lane: Lane, now: int, ttl: nat)
    requires id in db.outbox && Spends(db, ClaimOutboxForSigning(db, id, lane, now, ttl).db, id)
    ensures InProgram(ScopeAround(db, db.outbox[id].req), ClaimOf(db, id, lane))
  {
    ClaimEdits(db, id, lane, now, ttl);
    if LaneOf(db.outbox[id]) != lane { StrangerNotClaimed(db, id, lane, now, ttl); } else { ClaimLocksScope(db, id); }
  }

  lemma EditsNeverSpend(db: Db, step: Step, id: nat)
    requires WellFormed(db) && Permitted(db, step) && EditsOnly(step) && !step.DoClaim? && step.id == id && id in db.outbox
    ensures !Spends(db, SendingNext(db, step), id)
  {
    EditsKeepRows(db, step);
    UnclaimedNonce(db, step, id);
    NothingSpent(db, SendingNext(db, step), id);
  }

  lemma NothingSpent(db: Db, db': Db, id: nat)
    requires id in db.outbox && id in db'.outbox && db'.outbox[id].nonce == db.outbox[id].nonce
    requires db'.outbox[id].status == Queued ==> db.outbox[id].status == Queued
    ensures !Spends(db, db', id)
  {
  }

  lemma RetryingLocksScope(db: Db, step: Step, id: nat)
    requires (step.DoRetry? || step.DoAutoRetry?) && Target(step) == Some(id) && id in db.outbox
    ensures InProgram(ScopeAround(db, db.outbox[id].req), TxnOf(db, step))
  {
    RetryLocksScope(db, id);
  }

  lemma OldRowLocksScope(db: Db, step: Step, id: nat)
    requires WellFormed(db) && Permitted(db, step) && Modelled(step) && SendingStep(step) && Target(step) == Some(id)
    requires id in db.outbox && Spends(db, SendingNext(db, step), id)
    ensures InProgram(ScopeAround(db, db.outbox[id].req), TxnOf(db, step))
  {
    if step.DoClaim? {
      ClaimingLocksScope(db, id, step.lane, step.now, step.ttl);
    } else if step.DoRetry? || step.DoAutoRetry? {
      RetryingLocksScope(db, step, id);
    } else if step.DoExternalRetry? {
      ExternalRetryNeverQueues(db, id);
    } else {
      EditsNeverSpend(db, step, id);
    }
  }

  /** No row is added, queued again or given its first nonce except under locks on the flags of every
      chain and pathway in front of it, so no pause or sync can slip in between check and spend. */
  lemma GatesAreLocked(db: Db, step: Step, id: nat)
    requires WellFormed(db) && Permitted(db, step) && Modelled(step) && Spends(db, Next(db, step), id)
    ensures GatesLocked(db, Next(db, step).outbox[id].req, TxnOf(db, step))
  {
    StepEffect(db, step);
    if id in db.outbox {
      OldRowGates(db, step, id);
    } else if Next(db, step).outbox[id].retryOf.Some? {
      CloneGates(db, step, id);
    } else {
      OrderGates(db, step, id);
    }
  }

  // ----- the lock manager's conditions are met -----

  /** The world the lock manager sees is the one the tables describe. */
  ghost predicate Describes(world: World, db: Db) {
    && (forall g :: g in db.packets ==> world.keyOf(g) == db.packets[g].key)
    && (forall id :: id in db.outbox ==> world.laneOf(id) == LaneOf(db.outbox[id]))
  }

  /** Every step runs as a transaction whose arguments agree with the rows. */
  lemma StepsAreConsistent(world: World, db: Db, step: Step)
    requires Describes(world, db) && Permitted(db, step) && Modelled(step)
    ensures Consistent(world, TxnOf(db, step))
  {
  }
}
