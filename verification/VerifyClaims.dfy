/** Once a verification transaction exists for a packet, its DVN job is past every status a worker
    parks from (go/internal/dvn/dvn.go, go/internal/db/dvn_jobs.go). */
module VerifyClaims {
  import opened Tables
  import opened SendScope
  import opened Outbox
  import opened Receipts
  import opened Jobs
  import opened Runs
  import opened OutboxEffects

  /** The statuses from which the DVN worker parks a job and pauses its pathway. */
  predicate ParkedFrom(from: DvnStatus) {
    from in {DvnAssigned, WaitingConfirmations, ReadyToVerify}
  }

  /** The transitions that the workers, the indexer and the sender ask for. */
  predicate MarkedBy(from: DvnStatus, to: DvnStatus) {
    || (to == WaitingConfirmations && from in {ReorgDetected, DvnAssigned})
    || (to in {ReadyToVerify, QuorumConflict, ReorgDetected} && from == QuorumChecking)
    || (to == WouldVerify && from == ReadyToVerify)
    || (to == DvnManualReview && from == VerifyTxEnqueued)
    || to == DvnVerified
  }

  /** Arguments that callers in the repository pass: a verification transaction is only ever enqueued
      together with its job. */
  predicate AsCalled(step: Step) {
    match step
    case DoEnqueueTx(req) => !req.purpose.DvnVerify?
    case DoDvnMark(_, from, to) => MarkedBy(from, to)
    case DoDvnParkAndPause(_, from) => ParkedFrom(from)
    case _ => true
  }

  ghost predicate RunAsCalled(run: Run) {
    run.Then? ==> RunAsCalled(run.before) && AsCalled(run.step)
  }

  /** The job has handed its verification to a transaction, or is done. */
  ghost predicate Settled(db: Db, g: Guid) {
    g in db.dvn && db.dvn[g].status in {VerifyTxEnqueued, DvnVerified, DvnManualReview}
  }

  predicate VerifiesFor(row: Row, g: Guid) {
    row.req.purpose == DvnVerify && row.req.guid == Some(g)
  }

  ghost predicate RowSettled(db: Db, row: Row) {
    forall g :: VerifiesFor(row, g) ==> Settled(db, g)
  }

  ghost predicate AllSettled(db: Db) {
    forall id :: id in db.outbox ==> RowSettled(db, db.outbox[id])
  }

  // ----- settled jobs stay settled -----

  lemma MarkKeeps(db: Db, h: Guid, from: DvnStatus, to: DvnStatus, g: Guid)
    requires MarkedBy(from, to) && Settled(db, g)
    ensures Settled(UpdateDvnStatus(db, h, from, to).db, g)
  {
  }

  lemma GateKeeps(db: Db, h: Guid, from: DvnStatus, g: Guid)
    requires from in {DvnAssigned, WaitingConfirmations} && Settled(db, g)
    ensures Settled(UpdateDvnStatus(db, h, from, QuorumChecking).db, g)
  {
  }

  lemma ParkKeeps(db: Db, h: Guid, from: DvnStatus, g: Guid)
    requires Settled(db, g)
    ensures Settled(MarkDvnManualReviewAndPausePathway(db, h, from).db, g)
  {
  }

  lemma EnqueueKeeps(db: Db, h: Guid, req: TxRequest, g: Guid)
    requires Settled(db, g)
    ensures Settled(EnqueueDvnVerifyTx(db, h, ReadyToVerify, VerifyTxEnqueued, req).db, g)
  {
  }

  lemma ReorgKeeps(db: Db, h: Guid, block: nat, log: nat, oldBlock: nat, oldLog: nat, g: Guid)
    requires Settled(db, g)
    ensures Settled(MarkDvnReorgDetectedWithCoordinates(db, h, QuorumChecking, block, log, oldBlock, oldLog).db, g)
  {
  }

  lemma UpsertKeeps(db: Db, h: Guid, fee: Option<nat>, confirmations: nat, g: Guid)
    requires Settled(db, g)
    ensures Settled(UpsertDvnJob(db, h, fee, confirmations, DvnAssigned).db, g)
  {
  }

  lemma AbandonKeeps(db: Db, id: nat, g: Guid)
    requires Settled(db, g)
    ensures Settled(ResolveExternalNonceAbandon(db, id).db, g)
  {
  }

  lemma DvnStepKeeps(db: Db, step: Step, g: Guid)
    requires Permitted(db, step) && AsCalled(step) && DvnStep(step) && Settled(db, g)
    ensures Settled(WorkerNext(db, step), g)
  {
    if step.DoConfirmationMark? {
      GateKeeps(db, step.g, step.from, g);
    } else if step.DoDvnMark? {
      MarkKeeps(db, step.g, step.from, step.to, g);
    } else if step.DoEnqueueDvn? {
      EnqueueKeeps(db, step.g, step.req, g);
    } else if step.DoDvnReorg? {
      ReorgKeeps(db, step.g, step.block, step.log, step.oldBlock, step.oldLog, g);
    } else {
      ParkKeeps(db, step.g, step.from, g);
    }
  }

  lemma SendingKeeps(db: Db, step: Step, g: Guid)
    requires Permitted(db, step) && SendingStep(step) && Settled(db, g)
    ensures Settled(SendingNext(db, step), g)
  {
    if step.DoExternalAbandon? { AbandonKeeps(db, step.id, g); } else { SendingFrame(db, step); }
  }

  lemma WorkerKeeps(db: Db, step: Step, g: Guid)
    requires Permitted(db, step) && AsCalled(step) && !SendingStep(step) && Settled(db, g)
    ensures Settled(WorkerNext(db, step), g)
  {
    if step.DoUpsertDvnJob? {
      UpsertKeeps(db, step.g, step.fee, step.confirmations, g);
    } else if DvnStep(step) {
      DvnStepKeeps(db, step, g);
    } else {
      WorkerFrame(db, step);
    }
  }

  lemma SettledStays(db: Db, step: Step, g: Guid)
    requires Permitted(db, step) && AsCalled(step) && Settled(db, g)
    ensures Settled(Next(db, step), g)
  {
    if SendingStep(step) { SendingKeeps(db, step, g); } else { WorkerKeeps(db, step, g); }
  }

  // ----- a verification row only appears with a settled job -----

  lemma EnqueueSettles(db: Db, h: Guid, req: TxRequest, g: Guid)
    requires var db' := EnqueueDvnVerifyTx(db, h, ReadyToVerify, VerifyTxEnqueued, req).db;
      db.nextId !in db.outbox && db.nextId in db'.outbox && VerifiesFor(db'.outbox[db.nextId], g)
    ensures Settled(EnqueueDvnVerifyTx(db, h, ReadyToVerify, VerifyTxEnqueued, req).db, g)
  {
  }

  lemma ExecutorEnqueuesOther(db: Db, step: Step)
    requires step.DoEnqueueExecutor? && Permitted(db, step) && db.nextId !in db.outbox
    requires db.nextId in EnqueueExecutorTx(db, step.g, step.expected, step.next, step.req).db.outbox
    ensures !EnqueueExecutorTx(db, step.g, step.expected, step.next, step.req).db.outbox[db.nextId].req.purpose.DvnVerify?
  {
  }

  /** New work that verifies a packet comes from the enqueue that moves its job. */
  lemma FreshRowSettled(db: Db, step: Step, g: Guid)
    requires WellFormed(db) && Permitted(db, step) && AsCalled(step) && Target(step).None?
    requires db.nextId in Next(db, step).outbox && VerifiesFor(Next(db, step).outbox[db.nextId], g)
    ensures Settled(Next(db, step), g)
  {
    if step.DoEnqueueDvn? {
      EnqueueSettles(db, step.g, step.req, g);
    } else if step.DoEnqueueExecutor? {
      ExecutorEnqueuesOther(db, step);
    } else if !step.DoEnqueueTx? {
      StepFrame(db, step);
    }
  }

  /** Rows that were there, and clones of them, verify for a job that was settled before the step. */
  lemma KnownBefore(db: Db, db': Db, target: Option<nat>, id: nat, g: Guid)
    requires AllSettled(db) && Effect(db, db', target) && id in db'.outbox && VerifiesFor(db'.outbox[id], g)
    requires id in db.outbox || db'.outbox[id].retryOf.Some?
    ensures Settled(db, g)
  {
    if id in db.outbox {
      assert RowEdge(db, db', db.outbox[id], db'.outbox[id]);
      assert RowSettled(db, db.outbox[id]);
    } else {
      var parent := db'.outbox[id].retryOf.value;
      assert CloneOf(db, db'.outbox[id], parent);
      assert RowSettled(db, db.outbox[parent]);
    }
  }

  lemma NewRowIsNext(db: Db, db': Db, target: Option<nat>, id: nat)
    requires Effect(db, db', target) && id in db'.outbox && id !in db.outbox && db'.outbox[id].retryOf.None?
    ensures id == db.nextId && target.None?
  {
  }

  lemma RowStaysSettled(db: Db, step: Step, id: nat, g: Guid)
    requires WellFormed(db) && AllSettled(db) && Permitted(db, step) && AsCalled(step)
    requires Effect(db, Next(db, step), Target(step)) && id in Next(db, step).outbox && VerifiesFor(Next(db, step).outbox[id], g)
    ensures Settled(Next(db, step), g)
  {
    var db' := Next(db, step);
    if id in db.outbox || db'.outbox[id].retryOf.Some? {
      KnownBefore(db, db', Target(step), id, g);
      SettledStays(db, step, g);
    } else {
      NewRowIsNext(db, db', Target(step), id);
      FreshRowSettled(db, step, g);
    }
  }

  /** In every run that calls the store as the repository does, a packet with a verification
      transaction has a job in VERIFY_TX_ENQUEUED, VERIFIED or MANUAL_REVIEW. */
  lemma {:induction false} AlwaysSettled(run: Run)
    requires Legal(run) && RunAsCalled(run) && WellFormed(Initial(run)) && AllSettled(Initial(run))
    ensures AllSettled(End(run))
  {
    if run.Then? {
      AlwaysSettled(run.before);
      WellFormedRun(run.before);
      StepEffect(End(run.before), run.step);
      forall id, g | id in End(run).outbox && VerifiesFor(End(run).outbox[id], g) ensures Settled(End(run), g) {
        RowStaysSettled(End(run.before), run.step, id, g);
      }
    }
  }

  /** So a worker's park of that job matches no row: it is refused before it asks for the pathway. */
  lemma ParkRefusedOnceVerifying(run: Run, id: nat, g: Guid, from: DvnStatus)
    requires Legal(run) && RunAsCalled(run) && WellFormed(Initial(run)) && AllSettled(Initial(run))
    requires id in End(run).outbox && VerifiesFor(End(run).outbox[id], g) && ParkedFrom(from)
    ensures UpdateDvnStatus(End(run), g, from, DvnManualReview).reply.Err?
    ensures MarkDvnManualReviewAndPausePathway(End(run), g, from) == UpdateDvnStatus(End(run), g, from, DvnManualReview)
    ensures MarkDvnManualReviewAndPausePathway(End(run), g, from).db == End(run)
  {
    AlwaysSettled(run);
    ParkMatchesNothing(End(run), id, g, from);
  }

  lemma ParkMatchesNothing(db: Db, id: nat, g: Guid, from: DvnStatus)
    requires AllSettled(db) && id in db.outbox && VerifiesFor(db.outbox[id], g) && ParkedFrom(from)
    ensures UpdateDvnStatus(db, g, from, DvnManualReview).reply.Err?
    ensures MarkDvnManualReviewAndPausePathway(db, g, from) == UpdateDvnStatus(db, g, from, DvnManualReview)
    ensures MarkDvnManualReviewAndPausePathway(db, g, from).db == db
  {
    assert RowSettled(db, db.outbox[id]);
  }

  /** Only a park from VERIFY_TX_ENQUEUED, which no caller makes, could meet an external-nonce retry
      of the same job: then each call alone would reach its last write. */
  lemma ParkOfVerifyingJobWouldMatch(db: Db, id: nat, g: Guid)
    requires g != 0 && id in db.outbox && VerifiesFor(db.outbox[id], g) && HeldExternally(db.outbox[id])
    requires ScopeOf(db, db.outbox[id].req).Active? && g in db.dvn && db.dvn[g].status == VerifyTxEnqueued
    ensures ResolveExternalNonceRetry(db, id).reply.Ok?
    ensures MarkDvnManualReviewAndPausePathway(db, g, VerifyTxEnqueued).reply.Ok?
    ensures forall from :: from != VerifyTxEnqueued ==> MarkDvnManualReviewAndPausePathway(db, g, from).reply.Err?
  {
  }
}
