/** The delivery budget that two lzReceive retry drivers share: the deliverer re-enqueues from
    LZ_RECEIVE_FAILED, and the transaction retry path restores the job and clones the failed row
    (go/internal/db/executor_jobs.go, go/internal/db/outbox.go). */
module Budget {
  import opened Tables
  import opened SendScope
  import opened Outbox
  import opened Jobs
  import opened Runs
  import opened OutboxEffects
  import opened JobEffects
  import opened Workflow

  /** One re-send: the retry count it was made at, and which driver made it. */
  datatype Resend = Resend(count: nat, byClone: bool)

  /** The step took the job from a failed delivery back to an enqueued one. */
  ghost predicate IsResend(db: Db, db': Db, g: Guid) {
    && g in db.jobs && db.jobs[g].status == LzReceiveFailed
    && g in db'.jobs && db'.jobs[g].status == LzReceiveTxEnqueued
  }

  /** All re-sends for a packet over a run, in order. */
  ghost function History(run: Run, g: Guid): seq<Resend>
    requires Legal(run)
  {
    match run
    case Start(_) => []
    case Then(before, step) =>
      if IsResend(End(before), End(run), g)
      then History(before, g) + [Resend(End(before).jobs[g].retryCount, !step.DoEnqueueExecutor?)]
      else History(before, g)
  }

  /** A job is only in LZ_RECEIVE_FAILED after a counted failure. */
  ghost predicate FailedIsCounted(db: Db, g: Guid) {
    g in db.jobs && db.jobs[g].status == LzReceiveFailed ==> db.jobs[g].retryCount >= 1
  }

  /** The failures that re-sends may have used up so far. */
  function Used(job: ExecutorJob): int {
    if job.status == LzReceiveFailed then job.retryCount - 1 else job.retryCount
  }

  predicate Increasing(h: seq<Resend>) {
    forall i, j :: 0 <= i < j < |h| ==> h[i].count < h[j].count
  }

  predicate Within(h: seq<Resend>, limit: int) {
    forall i :: 0 <= i < |h| ==> 1 <= h[i].count <= limit
  }

  predicate ClonesCapped(h: seq<Resend>) {
    forall i :: 0 <= i < |h| && h[i].byClone ==> h[i].count < MAX_LZ_RECEIVE_DELIVERY_ATTEMPTS
  }

  /** The history fits the job's failure count. */
  ghost predicate Paid(db: Db, g: Guid, h: seq<Resend>) {
    && FailedIsCounted(db, g) && Increasing(h) && ClonesCapped(h)
    && (if g in db.jobs then Within(h, Used(db.jobs[g])) else h == [])
  }

  /** Every re-send queues a transaction for the packet, and a clone only re-sends under budget. */
  lemma ResendQueues(db: Db, step: Step, db': Db, g: Guid)
    requires JobMove(db, step, db', g) && IsResend(db, db', g)
    requires step.DoExecutorMark? ==> ExecutorMark(step.u)
    requires step.DoEnqueueExecutor? ==> ExecutorEnqueue(step.expected, step.next, step.req)
    ensures Queues(db, db', g) && db'.jobs[g].retryCount == db.jobs[g].retryCount
    ensures !step.DoEnqueueExecutor? ==> db.jobs[g].retryCount < MAX_LZ_RECEIVE_DELIVERY_ATTEMPTS
    ensures step.DoEnqueueExecutor? ==> step.g == g && step.expected == LzReceiveFailed
  {
  }

  lemma PaidResend(db: Db, step: Step, db': Db, g: Guid, h: seq<Resend>)
    requires JobMove(db, step, db', g) && IsResend(db, db', g) && Paid(db, g, h)
    requires step.DoExecutorMark? ==> ExecutorMark(step.u)
    requires step.DoEnqueueExecutor? ==> ExecutorEnqueue(step.expected, step.next, step.req)
    ensures Paid(db', g, h + [Resend(db.jobs[g].retryCount, !step.DoEnqueueExecutor?)])
  {
    ResendQueues(db, step, db', g);
  }

  lemma PaidOtherwise(db: Db, step: Step, db': Db, g: Guid, h: seq<Resend>)
    requires JobMove(db, step, db', g) && !IsResend(db, db', g) && Paid(db, g, h)
    requires step.DoExecutorMark? ==> ExecutorMark(step.u)
    requires step.DoEnqueueExecutor? ==> ExecutorEnqueue(step.expected, step.next, step.req)
    ensures Paid(db', g, h)
  {
  }

  lemma {:induction false} PaidRun(run: Run, g: Guid)
    requires Legal(run) && WellFormed(Initial(run)) && JobsOk(Initial(run)) && FailedIsCounted(Initial(run), g)
    ensures Paid(End(run), g, History(run, g))
  {
    if run.Then? {
      PaidRun(run.before, g);
      WellFormedRun(run.before);
      JobsOkRun(run.before);
      var (db, db') := (End(run.before), End(run));
      assert LockstepAt(db, g);
      JobEdge(db, run.step, g);
      if IsResend(db, db', g) {
        PaidResend(db, run.step, db', g, History(run.before, g));
      } else {
        PaidOtherwise(db, run.step, db', g, History(run.before, g));
      }
    }
  }

  /** Strictly increasing counts between 1 and a limit are at most that many. */
  lemma {:induction false} IncreasingFits(h: seq<Resend>, limit: int)
    requires Increasing(h) && Within(h, limit) && limit >= 0
    ensures |h| <= limit
  {
    if h != [] {
      var last := |h| - 1;
      IncreasingFits(h[..last], h[last].count - 1);
    }
  }

  /** Each re-send is paid for by its own counted failure: re-sends, plus one while the job waits in
      LZ_RECEIVE_FAILED, never exceed the retry count; no two re-sends share a retry count; and a
      clone only ever happens at a retry count of 1 to 4. */
  lemma ResendsArePaidFor(run: Run, g: Guid)
    requires Legal(run) && WellFormed(Initial(run)) && JobsOk(Initial(run)) && FailedIsCounted(Initial(run), g)
    requires g in End(run).jobs
    ensures var (h, job) := (History(run, g), End(run).jobs[g]);
      && |h| + (if job.status == LzReceiveFailed then 1 else 0) <= job.retryCount
      && (forall i, j :: 0 <= i < j < |h| ==> h[i].count < h[j].count)
      && (forall i :: 0 <= i < |h| && h[i].byClone ==> 1 <= h[i].count <= 4)
  {
    PaidRun(run, g);
    IncreasingFits(History(run, g), Used(End(run).jobs[g]));
  }

  // ----- the cap on deliveries -----

  /** The deliverer's own budget check still held when its enqueue committed, every time. */
  ghost predicate DelivererFresh(run: Run, g: Guid)
    requires Legal(run)
  {
    match run
    case Start(_) => true
    case Then(before, step) =>
      && DelivererFresh(before, g)
      && (step.DoEnqueueExecutor? && IsResend(End(before), End(run), g) ==>
            End(before).jobs[g].retryCount < MAX_LZ_RECEIVE_DELIVERY_ATTEMPTS)
  }

  predicate Capped(h: seq<Resend>) {
    forall i :: 0 <= i < |h| ==> h[i].count < MAX_LZ_RECEIVE_DELIVERY_ATTEMPTS
  }

  lemma {:induction false} CapIffFresh(run: Run, g: Guid)
    requires Legal(run) && WellFormed(Initial(run)) && JobsOk(Initial(run)) && FailedIsCounted(Initial(run), g)
    ensures Capped(History(run, g)) <==> DelivererFresh(run, g)
  {
    if run.Then? {
      CapIffFresh(run.before, g);
      PaidRun(run, g);
      var (h, h') := (History(run.before, g), History(run, g));
      if IsResend(End(run.before), End(run), g) {
        assert h'[..|h|] == h && ClonesCapped(h');
        assert Capped(h') <==> Capped(h) && h'[|h|].count < MAX_LZ_RECEIVE_DELIVERY_ATTEMPTS by {
          assert forall i :: 0 <= i < |h| ==> h'[i] == h[i];
        }
      }
    }
  }

  /** At most four re-sends, so at most five deliveries, exactly as long as the deliverer never acts
      on a budget check that another driver has outrun. */
  lemma FreshDelivererKeepsBudget(run: Run, g: Guid)
    requires Legal(run) && WellFormed(Initial(run)) && JobsOk(Initial(run)) && FailedIsCounted(Initial(run), g)
    requires DelivererFresh(run, g)
    ensures |History(run, g)| <= MAX_LZ_RECEIVE_DELIVERY_ATTEMPTS - 1
  {
    CapIffFresh(run, g);
    PaidRun(run, g);
    if g in End(run).jobs {
      assert Within(History(run, g), MAX_LZ_RECEIVE_DELIVERY_ATTEMPTS - 1);
      IncreasingFits(History(run, g), MAX_LZ_RECEIVE_DELIVERY_ATTEMPTS - 1);
    }
  }

  // ----- runs in which the deliverer's check is stale -----

  /** A delivery has one failure left before the cap, its failed transaction can still be cloned, and
      the deliverer has prepared `req`, having read that the budget is not used up. */
  ghost predicate OneFailureLeft(db: Db, g: Guid, id: nat, req: TxRequest) {
    && WellFormed(db) && JobsOk(db) && g != 0 && g in db.jobs && id in db.outbox
    && db.jobs[g].status == LzReceiveFailed && db.jobs[g].retryCount == MAX_LZ_RECEIVE_DELIVERY_ATTEMPTS - 1
    && db.outbox[id].status == Failed && ClonePath(db.outbox[id]) && !HasChild(db.outbox, id)
    && Delivers(db, db.outbox[id].req, g) && Delivers(db, req, g)
  }

  /** A complete lzReceive request for the packet, with nothing paused in front of it. */
  ghost predicate Delivers(db: Db, req: TxRequest, g: Guid) {
    RequestComplete(req) && req.purpose == LzReceive && req.guid == Some(g) && ScopeOf(db, req).Active?
  }

  ghost predicate SameScopes(db: Db, db': Db) {
    db'.chains == db.chains && db'.pathways == db.pathways && SameSources(db.packets, db'.packets)
  }

  lemma ScopeFollows(db: Db, db': Db, req: TxRequest)
    requires SameScopes(db, db')
    ensures ScopeOf(db', req) == ScopeOf(db, req)
  {
  }

  lemma CloneRestores(db: Db, g: Guid, id: nat, req: TxRequest, now: int)
    requires OneFailureLeft(db, g, id, req)
    ensures var db' := RetryFailedTx(db, id, now).db;
      && SameScopes(db, db') && g in db'.jobs && db'.ledger == db.ledger
      && db'.jobs[g].status == LzReceiveTxEnqueued && db'.jobs[g].retryCount == MAX_LZ_RECEIVE_DELIVERY_ATTEMPTS - 1
  {
    assert PrepareReceiptRetryWorkflow(db, id).Prepared?;
    assert GatedClone(db, id, now, ScopeInactive).reply.Ok?;
  }

  lemma LastFailure(db: Db, g: Guid, h: Hash)
    requires g != 0 && g in db.jobs && db.jobs[g].status == LzReceiveTxEnqueued && (g, h) !in db.ledger
    ensures var db' := UpdateExecutorStatus(db, FailureReport(g, h)).db;
      && SameScopes(db, db') && g in db'.jobs
      && db'.jobs[g].status == LzReceiveFailed && db'.jobs[g].retryCount == db.jobs[g].retryCount + 1
  {
  }

  function FailureReport(g: Guid, h: Hash): ExecutorUpdate {
    ExecutorUpdate(g, LzReceiveTxEnqueued, LzReceiveFailed, None, Some(h), true)
  }

  lemma LateEnqueue(db: Db, g: Guid, req: TxRequest)
    requires g != 0 && g in db.jobs && db.jobs[g].status == LzReceiveFailed
    requires Delivers(db, req, g)
    ensures var db' := EnqueueExecutorTx(db, g, LzReceiveFailed, LzReceiveTxEnqueued, req).db; IsResend(db, db', g)
  {
  }

  /** The deliverer reads a retry count of 4 and passes its check; a clone then re-sends at 4 and
      fails, and the deliverer's enqueue commits one more re-send at 5, because the enqueue compares
      only the status. */
  lemma StaleDelivererExceedsCap(db: Db, g: Guid, id: nat, req: TxRequest, h: Hash, now: int) returns (late: Run, enqueue: Step)
    requires OneFailureLeft(db, g, id, req) && (g, h) !in db.ledger
    ensures enqueue == DoEnqueueExecutor(g, LzReceiveFailed, LzReceiveTxEnqueued, req)
    ensures Legal(Then(late, enqueue)) && Continues(Start(db), late)
    ensures g in End(late).jobs && End(late).jobs[g].retryCount == MAX_LZ_RECEIVE_DELIVERY_ATTEMPTS
    ensures IsResend(End(late), End(Then(late, enqueue)), g)
  {
    var retry, failure := DoRetry(id, now), DoExecutorMark(FailureReport(g, h));
    var cloned := Then(Start(db), retry);
    late := Then(cloned, failure);
    enqueue := DoEnqueueExecutor(g, LzReceiveFailed, LzReceiveTxEnqueued, req);
    Extended(Start(db), retry);
    RetryState(db, id, now);
    CloneRestores(db, g, id, req, now);
    Extended(cloned, failure);
    MarkState(End(cloned), FailureReport(g, h));
    LastFailure(End(cloned), g, h);
    Extended(late, enqueue);
    EnqueueState(End(late), g, req);
    ScopeFollows(db, End(cloned), req);
    ScopeFollows(End(cloned), End(late), req);
    LateEnqueue(End(late), g, req);
    assert Continues(Start(db), cloned);
  }

  lemma RetryState(db: Db, id: nat, now: int)
    ensures Next(db, DoRetry(id, now)) == RetryFailedTx(db, id, now).db
  {
  }

  lemma MarkState(db: Db, u: ExecutorUpdate)
    requires ExecutorMark(u)
    ensures Next(db, DoExecutorMark(u)) == UpdateExecutorStatus(db, u).db
  {
  }

  lemma EnqueueState(db: Db, g: Guid, req: TxRequest)
    requires req.purpose == LzReceive
    ensures Next(db, DoEnqueueExecutor(g, LzReceiveFailed, LzReceiveTxEnqueued, req))
         == EnqueueExecutorTx(db, g, LzReceiveFailed, LzReceiveTxEnqueued, req).db
  {
  }

  const KEY := PathKey(1, 2, 10, 20)
  const REQ := TxRequest(2, LzReceive, Some(7), 20, 0, "relayer")
  const FAILED_ROW :=
    Row(REQ, Failed, Some(0), 0, Some(ReceiptFailed), None, None, Some(Pin(OutcomeReceiptFailed, 0)), None, IdleSigning, NoCost)

  /** One such state: a delivery that has failed four times. */
  const FourFailures := Db(
    map[0 := FAILED_ROW], 1, map[Lane(2, "relayer") := 1],
    map[7 := ExecutorJob(LzReceiveFailed, None, 4, None, Some(204))],
    {(7, 201), (7, 202), (7, 203), (7, 204)},
    map[], map[7 := Packet(KEY, 100, 0, LzReceiveFailed)],
    map[1 := Chain(true, false, 0), 2 := Chain(true, false, 0)],
    map[KEY := Pathway(true, false, 0)])

  lemma FourFailuresLeaveOne()
    ensures OneFailureLeft(FourFailures, 7, 0, REQ)
  {
    assert Failures(FourFailures, 7) == {(7, 201), (7, 202), (7, 203), (7, 204)};
    assert |Failures(FourFailures, 7)| == 4;
  }
}
