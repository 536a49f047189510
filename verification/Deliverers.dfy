/** Deliverers that check the budget on one read and enqueue later
    (go/internal/executor/executor.go): how far stale checks can overrun the cap. */
module Deliverers {
  import opened Tables
  import opened Outbox
  import opened Jobs
  import opened Runs
  import opened OutboxEffects
  import opened JobEffects
  import opened Workflow
  import opened Budget

  /** One deliverer per worker process. A deliverer looks at the job and its retry count, and may
      later act on what it saw; everybody else takes ordinary steps. */
  datatype Shift =
    | Opens(db: Db)
    | Looks(before: Shift, d: nat)
    | Delivers(before: Shift, d: nat, req: TxRequest)
    | Others(before: Shift, step: Step)

  function Redelivery(g: Guid, req: TxRequest): Step {
    DoEnqueueExecutor(g, LzReceiveFailed, LzReceiveTxEnqueued, req)
  }

  /** Re-enqueueing a failed delivery is the deliverers' business alone. */
  predicate IsRedelivery(step: Step, g: Guid) {
    step.DoEnqueueExecutor? && step.g == g && step.expected == LzReceiveFailed
  }

  /** The committed steps of a shift; looking commits nothing. */
  ghost function RunOf(s: Shift, g: Guid): Run {
    match s
    case Opens(db) => Start(db)
    case Looks(before, _) => RunOf(before, g)
    case Delivers(before, _, req) => Then(RunOf(before, g), Redelivery(g, req))
    case Others(before, step) => Then(RunOf(before, g), step)
  }

  /** The budget check that lets a deliverer go on. */
  ghost predicate ChecksOut(db: Db, g: Guid) {
    g in db.jobs && db.jobs[g].status == LzReceiveFailed && db.jobs[g].retryCount < MAX_LZ_RECEIVE_DELIVERY_ATTEMPTS
  }

  /** Deliverers whose last look passed the check and who have not acted on it yet. */
  ghost function Cleared(s: Shift, g: Guid): set<nat>
    requires Legal(RunOf(s, g))
  {
    match s
    case Opens(_) => {}
    case Looks(before, d) => if ChecksOut(End(RunOf(s, g)), g) then Cleared(before, g) + {d} else Cleared(before, g) - {d}
    case Delivers(before, d, _) => Cleared(before, g) - {d}
    case Others(before, _) => Cleared(before, g)
  }

  ghost predicate Worked(s: Shift, g: Guid, workers: nat) {
    && Legal(RunOf(s, g))
    && match s
       case Opens(db) => WellFormed(db) && JobsOk(db) && FailedIsCounted(db, g)
       case Looks(before, d) => Worked(before, g, workers) && d < workers
       case Delivers(before, d, _) => Worked(before, g, workers) && d in Cleared(before, g)
       case Others(before, step) => Worked(before, g, workers) && !IsRedelivery(step, g)
  }

  lemma {:induction false} OpeningState(s: Shift, g: Guid, workers: nat)
    requires Worked(s, g, workers)
    ensures var db := Initial(RunOf(s, g)); WellFormed(db) && JobsOk(db) && FailedIsCounted(db, g)
  {
    if !s.Opens? { OpeningState(s.before, g, workers); }
  }

  lemma {:induction false} ClearedAreWorkers(s: Shift, g: Guid, workers: nat)
    requires Worked(s, g, workers)
    ensures forall d :: d in Cleared(s, g) ==> d < workers
  {
    if !s.Opens? { ClearedAreWorkers(s.before, g, workers); }
  }

  lemma {:induction false} AtMostThatMany(some: set<nat>, n: nat)
    requires forall d :: d in some ==> d < n
    ensures |some| <= n
  {
    if n > 0 {
      AtMostThatMany(some - {n - 1}, n - 1);
      assert n - 1 in some ==> some == (some - {n - 1}) + {n - 1};
      assert n - 1 !in some ==> some == some - {n - 1};
    } else {
      assert some == {};
    }
  }

  // ----- counting re-sends at or over the cap -----

  function OverCap(h: seq<Resend>): nat {
    if h == [] then 0
    else OverCap(h[..|h| - 1]) + if h[|h| - 1].count >= MAX_LZ_RECEIVE_DELIVERY_ATTEMPTS then 1 else 0
  }

  lemma OverCapAppend(h: seq<Resend>, r: Resend)
    ensures OverCap(h + [r]) == OverCap(h) + if r.count >= MAX_LZ_RECEIVE_DELIVERY_ATTEMPTS then 1 else 0
  {
    assert (h + [r])[..|h|] == h;
  }

  lemma {:induction false} NoneOverCap(h: seq<Resend>)
    requires Capped(h)
    ensures OverCap(h) == 0
  {
    if h != [] { NoneOverCap(h[..|h| - 1]); }
  }

  /** Below the cap there is room for four re-sends. */
  lemma {:induction false} FourPlusOverCap(h: seq<Resend>)
    requires Increasing(h) && forall i :: 0 <= i < |h| ==> h[i].count >= 1
    ensures |h| <= MAX_LZ_RECEIVE_DELIVERY_ATTEMPTS - 1 + OverCap(h)
  {
    if h != [] {
      if h[|h| - 1].count >= MAX_LZ_RECEIVE_DELIVERY_ATTEMPTS {
        FourPlusOverCap(h[..|h| - 1]);
      } else {
        IncreasingFits(h, MAX_LZ_RECEIVE_DELIVERY_ATTEMPTS - 1);
      }
    }
  }

  // ----- the overrun is bounded by the checks outstanding when the budget ran out -----

  ghost predicate BudgetLeft(db: Db, g: Guid) {
    g in db.jobs ==> db.jobs[g].retryCount < MAX_LZ_RECEIVE_DELIVERY_ATTEMPTS
  }

  /** While budget is left nothing is over the cap; afterwards every re-send over the cap has used up
      one of the checks that were outstanding. */
  ghost predicate Bounded(db: Db, g: Guid, h: seq<Resend>, cleared: set<nat>, workers: nat) {
    if BudgetLeft(db, g) then OverCap(h) == 0 else OverCap(h) + |cleared| <= workers
  }

  /** What an ordinary or a delivering step does to the history. */
  ghost predicate Extends(db: Db, db': Db, g: Guid, step: Step, h: seq<Resend>, h': seq<Resend>) {
    if IsResend(db, db', g) then h' == h + [Resend(db.jobs[g].retryCount, !step.DoEnqueueExecutor?)] else h' == h
  }

  lemma OtherStep(db: Db, step: Step, db': Db, g: Guid, h: seq<Resend>, h': seq<Resend>, cleared: set<nat>, workers: nat)
    requires JobMove(db, step, db', g) && !IsRedelivery(step, g) && Extends(db, db', g, step, h, h')
    requires step.DoExecutorMark? ==> ExecutorMark(step.u)
    requires step.DoEnqueueExecutor? ==> ExecutorEnqueue(step.expected, step.next, step.req)
    requires Bounded(db, g, h, cleared, workers) && |cleared| <= workers
    ensures Bounded(db', g, h', cleared, workers)
  {
    if IsResend(db, db', g) {
      ResendQueues(db, step, db', g);
      OverCapAppend(h, Resend(db.jobs[g].retryCount, !step.DoEnqueueExecutor?));
    }
  }

  lemma DeliverStep(db: Db, step: Step, db': Db, g: Guid, h: seq<Resend>, h': seq<Resend>, cleared: set<nat>, d: nat, workers: nat)
    requires JobMove(db, step, db', g) && IsRedelivery(step, g) && Extends(db, db', g, step, h, h')
    requires ExecutorEnqueue(step.expected, step.next, step.req)
    requires Bounded(db, g, h, cleared, workers) && d in cleared
    ensures Bounded(db', g, h', cleared - {d}, workers)
  {
    assert |cleared - {d}| == |cleared| - 1;
    if IsResend(db, db', g) {
      ResendQueues(db, step, db', g);
      OverCapAppend(h, Resend(db.jobs[g].retryCount, !step.DoEnqueueExecutor?));
    }
  }

  lemma LookStep(db: Db, g: Guid, h: seq<Resend>, cleared: set<nat>, d: nat, workers: nat)
    requires Bounded(db, g, h, cleared, workers)
    ensures Bounded(db, g, h, if ChecksOut(db, g) then cleared + {d} else cleared - {d}, workers)
  {
    if !ChecksOut(db, g) {
      assert d in cleared ==> |cleared - {d}| == |cleared| - 1;
      assert d !in cleared ==> cleared - {d} == cleared;
    }
  }

  lemma StepFacts(run: Run, g: Guid)
    requires run.Then? && Legal(run) && WellFormed(Initial(run)) && JobsOk(Initial(run))
    ensures JobMove(End(run.before), run.step, End(run), g)
    ensures Extends(End(run.before), End(run), g, run.step, History(run.before, g), History(run, g))
  {
    WellFormedRun(run.before);
    JobsOkRun(run.before);
    assert LockstepAt(End(run.before), g);
    JobEdge(End(run.before), run.step, g);
  }

  ghost predicate ShiftIsBounded(s: Shift, g: Guid, workers: nat)
    requires Legal(RunOf(s, g))
  {
    Bounded(End(RunOf(s, g)), g, History(RunOf(s, g), g), Cleared(s, g), workers)
  }

  lemma DeliverBounded(s: Shift, g: Guid, workers: nat)
    requires s.Delivers? && Worked(s, g, workers) && ShiftIsBounded(s.before, g, workers)
    ensures ShiftIsBounded(s, g, workers)
  {
    var run := RunOf(s, g);
    OpeningState(s, g, workers);
    StepFacts(run, g);
    DeliverStep(End(run.before), run.step, End(run), g, History(run.before, g), History(run, g), Cleared(s.before, g), s.d, workers);
  }

  lemma OtherBounded(s: Shift, g: Guid, workers: nat)
    requires s.Others? && Worked(s, g, workers) && ShiftIsBounded(s.before, g, workers)
    ensures ShiftIsBounded(s, g, workers)
  {
    var run := RunOf(s, g);
    OpeningState(s, g, workers);
    StepFacts(run, g);
    ClearedAreWorkers(s.before, g, workers);
    AtMostThatMany(Cleared(s.before, g), workers);
    OtherStep(End(run.before), run.step, End(run), g, History(run.before, g), History(run, g), Cleared(s.before, g), workers);
  }

  lemma {:induction false} ShiftBounded(s: Shift, g: Guid, workers: nat)
    requires Worked(s, g, workers)
    ensures ShiftIsBounded(s, g, workers)
  {
    if !s.Opens? {
      ShiftBounded(s.before, g, workers);
      if s.Looks? {
        var run := RunOf(s, g);
        LookStep(End(run), g, History(run, g), Cleared(s.before, g), s.d, workers);
      } else if s.Delivers? {
        DeliverBounded(s, g, workers);
      } else {
        OtherBounded(s, g, workers);
      }
    }
  }

  /** Whatever the schedule of looks and commits, a packet is re-sent at most four times plus once per
      worker process. */
  lemma OverrunBoundedByWorkers(s: Shift, g: Guid, workers: nat)
    requires Worked(s, g, workers)
    ensures |History(RunOf(s, g), g)| <= MAX_LZ_RECEIVE_DELIVERY_ATTEMPTS - 1 + workers
  {
    ShiftBounded(s, g, workers);
    OpeningState(s, g, workers);
    PaidRun(RunOf(s, g), g);
    FourPlusOverCap(History(RunOf(s, g), g));
  }
}
