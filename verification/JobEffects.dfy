/** What one step of any kind can do to an executor job, its packet and its failure ledger. */
module JobEffects {
  import opened Tables
  import opened SendScope
  import opened Outbox
  import opened Receipts
  import opened Jobs
  import opened Runs
  import opened OutboxEffects

  /** The failing hashes recorded for a job. */
  ghost function Failures(db: Db, g: Guid): set<(Guid, Hash)> {
    set p | p in db.ledger && p.0 == g
  }

  /** Job and packet agree from the first executor transition on. */
  ghost predicate LockstepAt(db: Db, g: Guid) {
    g in db.jobs ==> g in db.packets && (db.jobs[g].status == Assigned || db.packets[g].status == db.jobs[g].status)
  }

  ghost predicate JobStill(db: Db, db': Db, g: Guid) {
    && (g in db'.jobs <==> g in db.jobs)
    && (g in db.jobs ==> db'.jobs[g].status == db.jobs[g].status && db'.jobs[g].retryCount == db.jobs[g].retryCount)
    && (g in db.packets ==> g in db'.packets && db'.packets[g].status == db.packets[g].status)
    && (db'.ledger == db.ledger || exists p: (Guid, Hash) :: p.0 != g && db'.ledger == db.ledger + {p})
  }

  ghost predicate JobCreated(db: Db, db': Db, g: Guid) {
    && g !in db.jobs && g in db'.jobs && g in db'.packets && db'.packets == db.packets
    && db'.jobs[g].status == Assigned && db'.jobs[g].retryCount == 0
    && db'.ledger == db.ledger
  }

  /** Job and packet both arrive at `next` and no failure is counted. */
  ghost predicate JobMoved(db: Db, db': Db, g: Guid, next: ExecutorStatus) {
    && g in db.jobs && g in db'.jobs && g in db.packets && g in db'.packets
    && db'.jobs[g].status == next && db'.packets[g].status == next
    && db'.jobs[g].retryCount == db.jobs[g].retryCount
    && db'.ledger == db.ledger
  }

  /** A failing hash not seen before is recorded and counted. */
  ghost predicate JobCounted(db: Db, db': Db, g: Guid, h: Hash) {
    && g in db.jobs && g in db'.jobs && g in db.packets && g in db'.packets
    && db'.jobs[g].status == LzReceiveFailed && db'.packets[g].status == LzReceiveFailed
    && db'.jobs[g].retryCount == db.jobs[g].retryCount + 1
    && (g, h) !in db.ledger && db'.ledger == db.ledger + {(g, h)}
  }

  /** The transition a clone makes on the job its row serves. */
  ghost predicate CloneMove(db: Db, db': Db, g: Guid) {
    && g in db.jobs && db.jobs[g].status == LzReceiveFailed
    && if db.jobs[g].retryCount < MAX_LZ_RECEIVE_DELIVERY_ATTEMPTS
       then JobMoved(db, db', g, LzReceiveTxEnqueued) && Queues(db, db', g)
       else JobMoved(db, db', g, ManualReview)
  }

  /** The step inserted a queued lzReceive transaction for the packet. */
  ghost predicate Queues(db: Db, db': Db, g: Guid) {
    && db.nextId in db'.outbox && db'.nextId == db.nextId + 1
    && var row := db'.outbox[db.nextId]; row.status == Queued && row.req.purpose == LzReceive && row.req.guid == Some(g)
  }

  /** How a step may move one job. */
  ghost predicate JobMove(db: Db, step: Step, db': Db, g: Guid) {
    || JobStill(db, db', g)
    || (step.DoUpsertExecutorJob? && JobCreated(db, db', g))
    || (&& step.DoEnqueueExecutor? && step.g == g && g in db.jobs && db.jobs[g].status == step.expected
        && JobMoved(db, db', g, step.next) && (step.next == LzReceiveTxEnqueued ==> Queues(db, db', g)))
    || (&& step.DoExecutorMark? && step.u.guid == g && !step.u.countFailure && g in db.jobs
        && db.jobs[g].status == step.u.expected && JobMoved(db, db', g, step.u.next))
    || (&& step.DoExecutorMark? && step.u.guid == g && step.u.countFailure && step.u.receiveHash.Some?
        && JobCounted(db, db', g, step.u.receiveHash.value))
    || ((step.DoRetry? || step.DoAutoRetry?) && CloneMove(db, db', g))
    || (&& step.DoExternalAbandon? && g in db.jobs && db.jobs[g].status in {CommitTxEnqueued, LzReceiveTxEnqueued}
        && JobMoved(db, db', g, ManualReview))
  }

  lemma WorkflowJobEdge(db: Db, id: nat, g: Guid)
    requires id in db.outbox && LockstepAt(db, g)
    ensures match PrepareReceiptRetryWorkflow(db, id)
            case WorkflowError(_) => true
            case NotPrepared(db1) => JobStill(db, db1, g) || CloneMove(db, db1, g)
            case Prepared(db1) =>
              && db1.nextId == db.nextId && db1.outbox == db.outbox
              && (|| JobStill(db, db1, g)
                  || (&& g in db.jobs && db.jobs[g].status == LzReceiveFailed
                      && db.jobs[g].retryCount < MAX_LZ_RECEIVE_DELIVERY_ATTEMPTS
                      && JobMoved(db, db1, g, LzReceiveTxEnqueued)
                      && db.outbox[id].req.purpose == LzReceive && db.outbox[id].req.guid == Some(g)))
  {
  }

  /** Inserting the clone completes the move that its workflow step prepared. */
  lemma ClonedJobEdge(db: Db, db1: Db, id: nat, g: Guid)
    requires id in db.outbox && db.nextId !in db.outbox && db1.nextId == db.nextId && db1.outbox == db.outbox
    requires CloneFailedTxRetry(db1, id).reply.Ok?
    requires
      || JobStill(db, db1, g)
      || (&& g in db.jobs && db.jobs[g].status == LzReceiveFailed
          && db.jobs[g].retryCount < MAX_LZ_RECEIVE_DELIVERY_ATTEMPTS
          && JobMoved(db, db1, g, LzReceiveTxEnqueued)
          && db.outbox[id].req.purpose == LzReceive && db.outbox[id].req.guid == Some(g))
    ensures var db' := CloneFailedTxRetry(db1, id).db; JobStill(db, db', g) || CloneMove(db, db', g)
  {
    var db' := CloneFailedTxRetry(db1, id).db;
    assert db'.jobs == db1.jobs && db'.packets == db1.packets && db'.ledger == db1.ledger;
  }

  lemma CloneJobEdge(db: Db, id: nat, now: int, refusal: StoreError, g: Guid)
    requires id in db.outbox && db.nextId !in db.outbox && LockstepAt(db, g)
    ensures var db' := GatedClone(db, id, now, refusal).db; JobStill(db, db', g) || CloneMove(db, db', g)
  {
    CloneEnds(db, id, now, refusal);
    WorkflowJobEdge(db, id, g);
    var (db', work) := (GatedClone(db, id, now, refusal).db, PrepareReceiptRetryWorkflow(db, id));
    if !SameJobs(db, db') && work.Prepared? { ClonedJobEdge(db, work.db, id, g); }
  }

  lemma RequeueJobEdge(db: Db, id: nat, now: int, refusal: StoreError, g: Guid)
    requires id in db.outbox && db.outbox[id].status == Failed
    ensures JobStill(db, GatedRequeue(db, id, now, refusal).db, g)
  {
  }

  /** Giving up a task leaves the jobs alone or parks the one that waits on it, packet included. */
  lemma AbandonCases(db: Db, id: nat)
    ensures var db' := ResolveExternalNonceAbandon(db, id).db;
      || SameJobs(db, db')
      || (&& id in db.outbox && db.outbox[id].req.guid.Some? && Parks(db, db', db.outbox[id].req.guid.value))
  {
  }

  ghost predicate Parks(db: Db, db': Db, g: Guid) {
    && g in db.jobs && g in db.packets && db.jobs[g].status in {CommitTxEnqueued, LzReceiveTxEnqueued}
    && db'.jobs == db.jobs[g := db.jobs[g].(status := ManualReview)]
    && db'.packets == db.packets[g := db.packets[g].(status := ManualReview)]
    && db'.ledger == db.ledger
  }

  lemma AbandonJobEdge(db: Db, id: nat, g: Guid)
    ensures var db' := ResolveExternalNonceAbandon(db, id).db;
      || JobStill(db, db', g)
      || (g in db.jobs && db.jobs[g].status in {CommitTxEnqueued, LzReceiveTxEnqueued} && JobMoved(db, db', g, ManualReview))
  {
    AbandonCases(db, id);
  }

  lemma MarkElsewhere(db: Db, u: ExecutorUpdate, g: Guid)
    requires u.guid != g
    ensures JobStill(db, UpdateExecutorStatus(db, u).db, g)
  {
    var db' := UpdateExecutorStatus(db, u).db;
    if db'.ledger != db.ledger { assert (u.guid, u.receiveHash.value).0 != g; }
  }

  lemma MarkHere(db: Db, u: ExecutorUpdate, g: Guid)
    requires LockstepAt(db, g) && ExecutorMark(u) && u.guid == g
    ensures JobMove(db, DoExecutorMark(u), UpdateExecutorStatus(db, u).db, g)
  {
  }

  lemma MarkJobEdge(db: Db, u: ExecutorUpdate, g: Guid)
    requires LockstepAt(db, g) && ExecutorMark(u)
    ensures JobMove(db, DoExecutorMark(u), UpdateExecutorStatus(db, u).db, g)
  {
    if u.guid == g { MarkHere(db, u, g); } else { MarkElsewhere(db, u, g); }
  }

  lemma EnqueueJobEdge(db: Db, h: Guid, expected: ExecutorStatus, next: ExecutorStatus, req: TxRequest, g: Guid)
    requires LockstepAt(db, g) && ExecutorEnqueue(expected, next, req)
    ensures JobMove(db, DoEnqueueExecutor(h, expected, next, req), EnqueueExecutorTx(db, h, expected, next, req).db, g)
  {
  }

  lemma RetryJobEdge(db: Db, id: nat, now: int, g: Guid)
    requires db.nextId !in db.outbox && LockstepAt(db, g)
    ensures var db' := RetryFailedTx(db, id, now).db; JobStill(db, db', g) || CloneMove(db, db', g)
  {
    RetryPaths(db, id, now);
    if RetryFailedTx(db, id, now).db != db {
      CloneJobEdge(db, id, now, ScopeInactive, g);
      RequeueJobEdge(db, id, now, ScopeInactive, g);
    }
  }

  lemma PacketUpsertJobEdge(db: Db, h: Guid, packet: Packet, g: Guid)
    requires LockstepAt(db, g)
    ensures JobStill(db, UpsertPacket(db, h, packet).db, g)
  {
  }

  lemma JobUpsertJobEdge(db: Db, h: Guid, fee: Option<nat>, g: Guid)
    ensures var db' := UpsertExecutorJob(db, h, fee, Assigned).db; JobStill(db, db', g) || JobCreated(db, db', g)
  {
  }

  lemma ReorgJobEdge(db: Db, h: Guid, block: nat, log: nat, oldBlock: nat, oldLog: nat, g: Guid)
    ensures JobStill(db, MarkDvnReorgDetectedWithCoordinates(db, h, QuorumChecking, block, log, oldBlock, oldLog).db, g)
  {
  }

  ghost predicate SameJobs(db: Db, db': Db) {
    db'.jobs == db.jobs && db'.packets == db.packets && db'.ledger == db.ledger
  }

  lemma AutoRetryJobEdge(db: Db, pick: Option<nat>, now: int, g: Guid)
    requires pick.Some? ==> pick.value in db.outbox && db.outbox[pick.value].status == Failed
    requires db.nextId !in db.outbox && LockstepAt(db, g)
    ensures var db' := PrepareNextFailedTxRetry(db, pick, now).db; JobStill(db, db', g) || CloneMove(db, db', g)
  {
    if pick.Some? {
      CloneJobEdge(db, pick.value, now, NoFailedTxRetry, g);
      RequeueJobEdge(db, pick.value, now, NoFailedTxRetry, g);
    }
  }

  lemma UntouchedJob(db: Db, db': Db, g: Guid)
    requires SameJobs(db, db')
    ensures JobStill(db, db', g)
  {
  }

  lemma SendingJob(db: Db, step: Step, g: Guid)
    requires Permitted(db, step) && SendingStep(step) && db.nextId !in db.outbox && LockstepAt(db, g)
    ensures JobMove(db, step, SendingNext(db, step), g)
  {
    if step.DoRetry? {
      RetryJobEdge(db, step.id, step.now, g);
    } else if step.DoAutoRetry? {
      AutoRetryJobEdge(db, step.pick, step.now, g);
    } else if step.DoExternalAbandon? {
      AbandonJobEdge(db, step.id, g);
    } else {
      SendingFrame(db, step);
      UntouchedJob(db, SendingNext(db, step), g);
    }
  }

  lemma WorkerJob(db: Db, step: Step, g: Guid)
    requires Permitted(db, step) && !SendingStep(step) && LockstepAt(db, g)
    ensures JobMove(db, step, WorkerNext(db, step), g)
  {
    if step.DoExecutorMark? {
      MarkJobEdge(db, step.u, g);
    } else if step.DoEnqueueExecutor? {
      EnqueueJobEdge(db, step.g, step.expected, step.next, step.req, g);
    } else if step.DoUpsertPacket? {
      PacketUpsertJobEdge(db, step.g, step.packet, g);
    } else if step.DoUpsertExecutorJob? {
      JobUpsertJobEdge(db, step.g, step.fee, g);
    } else if step.DoDvnReorg? {
      ReorgJobEdge(db, step.g, step.block, step.log, step.oldBlock, step.oldLog, g);
    } else {
      WorkerFrame(db, step);
    }
  }

  /** The summary holds of every permitted step. */
  lemma JobEdge(db: Db, step: Step, g: Guid)
    requires Permitted(db, step) && db.nextId !in db.outbox && LockstepAt(db, g)
    ensures JobMove(db, step, Next(db, step), g)
  {
    if SendingStep(step) { SendingJob(db, step, g); } else { WorkerJob(db, step, g); }
  }
}
