/** Executor jobs, packets and the failure ledger over whole runs (go/internal/db/executor_jobs.go). */
module Workflow {
  import opened Tables
  import opened Outbox
  import opened Jobs
  import opened Runs
  import opened OutboxEffects
  import opened JobEffects

  /** The retry count is the number of distinct failing hashes recorded for the job. */
  ghost predicate LedgerAt(db: Db, g: Guid) {
    if g in db.jobs then db.jobs[g].retryCount == |Failures(db, g)| else Failures(db, g) == {}
  }

  /** A state in which jobs, packets and ledger belong together. */
  ghost predicate JobsOk(db: Db) {
    forall g :: LockstepAt(db, g) && LedgerAt(db, g)
  }

  lemma LockstepStep(db: Db, step: Step, db': Db, g: Guid)
    requires LockstepAt(db, g) && JobMove(db, step, db', g)
    ensures LockstepAt(db', g)
  {
  }

  lemma FailuresStill(db: Db, db': Db, g: Guid)
    requires JobStill(db, db', g)
    ensures Failures(db', g) == Failures(db, g)
  {
  }

  lemma LedgerStep(db: Db, step: Step, db': Db, g: Guid)
    requires LedgerAt(db, g) && JobMove(db, step, db', g)
    ensures LedgerAt(db', g)
  {
    if JobStill(db, db', g) {
      FailuresStill(db, db', g);
    } else if db'.ledger == db.ledger {
      assert Failures(db', g) == Failures(db, g);
    } else {
      assert Failures(db', g) == Failures(db, g) + {(g, step.u.receiveHash.value)};
    }
  }

  /** In every reachable state the job and its packet agree, and the retry count equals the number
      of distinct failing hashes, however reports are repeated, reordered or replayed. */
  lemma {:induction false} JobsOkRun(run: Run)
    requires Legal(run) && WellFormed(Initial(run)) && JobsOk(Initial(run))
    ensures JobsOk(End(run))
  {
    if run.Then? {
      JobsOkRun(run.before);
      WellFormedRun(run.before);
      forall g ensures LockstepAt(End(run), g) && LedgerAt(End(run), g) {
        JobEdge(End(run.before), run.step, g);
        LockstepStep(End(run.before), run.step, End(run), g);
        LedgerStep(End(run.before), run.step, End(run), g);
      }
    }
  }

  /** What a job never loses. */
  ghost predicate Advances(db: Db, db': Db, g: Guid) {
    && g in db.jobs && g in db'.jobs
    && (db.jobs[g].status != Assigned ==> db'.jobs[g].status != Assigned)
    && db'.jobs[g].retryCount >= db.jobs[g].retryCount
    && Failures(db, g) <= Failures(db', g)
  }

  lemma AdvanceStep(db: Db, step: Step, db': Db, g: Guid)
    requires JobMove(db, step, db', g) && g in db.jobs
    requires step.DoExecutorMark? ==> ExecutorMark(step.u)
    requires step.DoEnqueueExecutor? ==> ExecutorEnqueue(step.expected, step.next, step.req)
    ensures Advances(db, db', g)
  {
  }

  /** Once a job has left ASSIGNED, its packet carries the same status in every later state; the
      retry count never falls and recorded hashes are never forgotten. */
  lemma {:induction false} LockstepForever(earlier: Run, later: Run, g: Guid)
    requires Legal(earlier) && Legal(later) && Continues(earlier, later)
    requires WellFormed(Initial(later)) && JobsOk(Initial(later))
    requires g in End(earlier).jobs
    ensures Advances(End(earlier), End(later), g)
    ensures End(earlier).jobs[g].status != Assigned ==>
      g in End(later).packets && End(later).packets[g].status == End(later).jobs[g].status
    decreases later
  {
    JobsOkRun(later);
    assert LockstepAt(End(later), g);
    if later != earlier {
      LockstepForever(earlier, later.before, g);
      JobsOkRun(later.before);
      WellFormedRun(later.before);
      assert LockstepAt(End(later.before), g);
      JobEdge(End(later.before), later.step, g);
      AdvanceStep(End(later.before), later.step, End(later), g);
    }
  }

  /** Indexing the same packet and assignment again never rewinds a job. */
  lemma ReindexNeverRewinds(db: Db, step: Step, g: Guid)
    requires Permitted(db, step) && LockstepAt(db, g) && g in db.jobs
    requires step.DoUpsertPacket? || step.DoUpsertExecutorJob?
    ensures JobStill(db, Next(db, step), g)
  {
    WorkerJob(db, step, g);
  }

  /** A failure report that has been counted once changes nothing ever after, whatever statuses it
      names and whatever happened in between. */
  lemma ReplayedFailureChangesNothing(earlier: Run, later: Run, u: ExecutorUpdate, replay: ExecutorUpdate)
    requires Legal(earlier) && Legal(later) && Continues(Then(earlier, DoExecutorMark(u)), later)
    requires WellFormed(Initial(later)) && JobsOk(Initial(later)) && ExecutorMark(u)
    requires u.countFailure && UpdateExecutorStatus(End(earlier), u).reply == Ok(true)
    requires replay.guid == u.guid && replay.countFailure && replay.receiveHash == u.receiveHash
    ensures UpdateExecutorStatus(End(later), replay) == Outcome(End(later), Ok(false))
  {
    var counted := Then(earlier, DoExecutorMark(u));
    assert u.guid in End(counted).jobs && (u.guid, u.receiveHash.value) in Failures(End(counted), u.guid);
    LockstepForever(counted, later, u.guid);
  }
}
