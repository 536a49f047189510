/** What is enqueued, exactly when, and where every outbox row comes from (go/internal/db/outbox.go,
    go/internal/db/executor_jobs.go, go/internal/db/dvn_jobs.go, go/internal/db/tx_cancel_reconcile.go). */
module Enqueues {
  import opened Tables
  import opened SendScope
  import opened Outbox
  import opened Receipts
  import opened Jobs
  import opened Runs
  import opened OutboxEffects
  import opened Retries
  import opened JobEffects

  /** The caller named a chain, a purpose, a contract and a signer. */
  predicate Named(req: TxRequest) {
    req.chain != 0 && req.purpose != OtherPurpose("") && req.to != 0 && req.signer != ""
  }

  /** One row was added under the next id: queued, untried, with exactly this request. */
  ghost predicate Placed(db: Db, db': Db, req: TxRequest) {
    && db.nextId in db'.outbox && db'.nextId == db.nextId + 1 && db'.outbox == db.outbox[db.nextId := db'.outbox[db.nextId]]
    && var row := db'.outbox[db.nextId]; Blank(row) && row.req == req && row.attempts == 0 && row.retryOf.None?
  }

  /** New work is accepted exactly when it is named and nothing in front of it is shut; a shut gate is told
      apart from a request that names nothing to spend for. */
  lemma EnqueueIff(db: Db, req: TxRequest)
    ensures var out := EnqueueTx(db, req);
      && (out.reply.Ok? <==> Named(req) && ScopeOpen(db, req))
      && (out.reply.Ok? ==> out.reply.value == db.nextId && Placed(db, out.db, req))
      && (out.reply.Err? ==> out.db == db)
      && (Named(req) && Addressed(db, req) && !NothingShut(db, req) ==> out.reply == Err(ScopeInactive))
      && (Named(req) && !Addressed(db, req) ==> out.reply == Err(ScopeMalformed))
  {
    ActiveIffNothingShut(db, req);
  }

  /** The packet's transaction as its job asks for it: a request may leave the packet out, and must not
      name another. */
  predicate For(req: TxRequest, g: Guid) {
    g != 0 && (req.guid.None? || req.guid.value == g)
  }

  /** An executor transaction is accepted exactly when the job is where the caller saw it and nothing in
      front of the packet is shut. The row carries the caller's request for that packet, and job and
      packet arrive at the next status together. */
  lemma ExecutorEnqueueIff(db: Db, g: Guid, expected: ExecutorStatus, next: ExecutorStatus, req: TxRequest)
    ensures var (out, full) := (EnqueueExecutorTx(db, g, expected, next, req), req.(guid := Some(g)));
      && (out.reply.Ok? <==>
            For(req, g) && Named(req) && g in db.jobs && db.jobs[g].status == expected && ScopeOpen(db, full))
      && (out.reply.Err? ==> out.db == db)
      && (out.reply.Ok? ==>
            && out.reply.value == db.nextId && Placed(db, out.db, full)
            && out.db.jobs == db.jobs[g := db.jobs[g].(status := next)]
            && (g in db.packets ==> out.db.packets == db.packets[g := db.packets[g].(status := next)]))
  {
    ActiveIffNothingShut(db, req.(guid := Some(g)));
  }

  lemma DvnEnqueueIff(db: Db, g: Guid, expected: DvnStatus, next: DvnStatus, req: TxRequest)
    ensures var (out, full) := (EnqueueDvnVerifyTx(db, g, expected, next, req), req.(guid := Some(g)));
      && (out.reply.Ok? <==>
            For(req, g) && Named(req) && g in db.dvn && db.dvn[g].status == expected && ScopeOpen(db, full))
      && (out.reply.Err? ==> out.db == db)
      && (out.reply.Ok? ==>
            && out.reply.value == db.nextId && Placed(db, out.db, full)
            && out.db.dvn == db.dvn[g := db.dvn[g].(status := next)])
  {
    ActiveIffNothingShut(db, req.(guid := Some(g)));
  }

  // ----- external nonces -----

  /** The job that a packet's transaction serves still waits for it. */
  predicate Waits(db: Db, req: TxRequest) {
    && req.guid.Some?
    && var g := req.guid.value;
       || (req.purpose.CommitVerification? && g in db.jobs && db.jobs[g].status == CommitTxEnqueued)
       || (req.purpose.LzReceive? && g in db.jobs && db.jobs[g].status == LzReceiveTxEnqueued)
       || (req.purpose.DvnVerify? && g in db.dvn && db.dvn[g].status == VerifyTxEnqueued)
  }

  /** The row holds a nonce that the chain used for something else. */
  predicate NonceLost(db: Db, id: nat) {
    && id in db.outbox && db.outbox[id].status == Held && db.outbox[id].held == Some(ConsumedExternally)
    && db.outbox[id].pin.None?
  }

  /** The row failed for good: no lease, no hold, no cancel request and no retry of its own. */
  predicate GivenUp(row: Row, after: Row) {
    && after == row.(status := Failed, held := None, failure := Some(NonceConsumedExternally), nextRetryAt := None, signing := after.signing)
    && after.signing == row.signing.(cancelRequested := false, leaseUntil := None)
  }

  /** A lost transaction is repeated exactly when nothing in front of it is shut and the job it serves
      still waits for it, so a clone is never made for a job that has moved on. The lost row fails for
      good and one clone of it is queued; nothing else changes. */
  lemma ExternalRetryIff(db: Db, id: nat)
    requires db.nextId !in db.outbox
    ensures var out := ResolveExternalNonceRetry(db, id);
      && (out.reply.Ok? <==>
            NonceLost(db, id) && PacketPurpose(db.outbox[id].req.purpose) && ScopeOpen(db, db.outbox[id].req) && Waits(db, db.outbox[id].req))
      && (out.reply.Err? ==> out.db == db)
      && (out.reply.Ok? ==>
            && out.reply.value == db.nextId && db.nextId in out.db.outbox && out.db.nextId == db.nextId + 1
            && id in out.db.outbox && GivenUp(db.outbox[id], out.db.outbox[id])
            && out.db.outbox == db.outbox[id := out.db.outbox[id]][db.nextId := out.db.outbox[db.nextId]]
            && var (row, clone) := (db.outbox[id], out.db.outbox[db.nextId]);
               Blank(clone) && clone.req == row.req && clone.attempts == row.attempts + 1 && clone.retryOf == Some(id))
  {
    if id in db.outbox {
      ActiveIffNothingShut(db, db.outbox[id].req);
      ExternalRetryCases(db, id);
    }
  }

  lemma ExternalRetryCases(db: Db, id: nat)
    requires id in db.outbox
    ensures ScopeOf(db, db.outbox[id].req).Active? && !db.outbox[id].req.purpose.PricingSnapshot? ==>
      (WorkflowEnqueued(db, db.outbox[id].req).Ok? <==> Waits(db, db.outbox[id].req))
  {
  }

  /** Giving a lost transaction up fails its row for good and parks the job that waited for it, packet
      included; in step with its packet no job refuses this, and none waits for the row afterwards. */
  lemma AbandonIff(db: Db, id: nat)
    requires id in db.outbox && db.outbox[id].req.guid.Some? ==> LockstepAt(db, db.outbox[id].req.guid.value)
    ensures var out := ResolveExternalNonceAbandon(db, id);
      && (out.reply.Ok? <==> NonceLost(db, id))
      && (out.reply.Err? ==> out.db == db)
      && (out.reply.Ok? ==>
            && id in out.db.outbox && GivenUp(db.outbox[id], out.db.outbox[id])
            && out.db.outbox == db.outbox[id := out.db.outbox[id]] && !Waits(out.db, db.outbox[id].req)
            && WaiterParked(db, out.db, db.outbox[id].req))
  {
    if id in db.outbox {
      AbandonParks(db, id);
      AbandonRows(db, id);
    }
  }

  lemma AbandonRows(db: Db, id: nat)
    requires id in db.outbox && (db.outbox[id].req.guid.Some? ==> LockstepAt(db, db.outbox[id].req.guid.value))
    ensures var out := ResolveExternalNonceAbandon(db, id);
      && (out.reply.Ok? <==> NonceLost(db, id))
      && (out.reply.Err? ==> out.db == db)
      && (out.reply.Ok? ==> out.db.outbox == db.outbox[id := TerminalizedExternally(db.outbox[id])])
  {
  }

  ghost predicate WaiterParked(db: Db, db': Db, req: TxRequest) {
    if !Waits(db, req) then db'.jobs == db.jobs && db'.packets == db.packets && db'.dvn == db.dvn
    else if req.purpose.DvnVerify? then
      var g := req.guid.value;
      && db'.jobs == db.jobs && db'.packets == db.packets
      && g in db.dvn && db'.dvn == db.dvn[g := db.dvn[g].(status := DvnManualReview)]
    else
      var g := req.guid.value;
      && db'.dvn == db.dvn && g in db.jobs && db'.jobs == db.jobs[g := db.jobs[g].(status := ManualReview)]
      && g in db.packets && db'.packets == db.packets[g := db.packets[g].(status := ManualReview)]
  }

  lemma AbandonParks(db: Db, id: nat)
    requires id in db.outbox && (db.outbox[id].req.guid.Some? ==> LockstepAt(db, db.outbox[id].req.guid.value))
    ensures ResolveExternalNonceAbandon(db, id).reply.Ok? ==> WaiterParked(db, ResolveExternalNonceAbandon(db, id).db, db.outbox[id].req)
  {
  }

  // ----- where rows come from -----

  predicate IsEnqueue(step: Step) {
    step.DoEnqueueTx? || step.DoEnqueueExecutor? || step.DoEnqueueDvn?
  }

  /** What the caller of an enqueue asked for. */
  function Asked(step: Step): TxRequest
    requires IsEnqueue(step)
  {
    if step.DoEnqueueTx? then step.req else step.req.(guid := Some(step.g))
  }

  /** An enqueue that adds a row adds the row that was asked for. */
  lemma EnqueuePlaces(db: Db, step: Step)
    requires Permitted(db, step) && IsEnqueue(step) && db.nextId !in db.outbox
    ensures Next(db, step).outbox == db.outbox || Placed(db, Next(db, step), Asked(step))
  {
    if step.DoEnqueueTx? {
      EnqueueIff(db, step.req);
    } else if step.DoEnqueueExecutor? {
      ExecutorEnqueueIff(db, step.g, step.expected, step.next, step.req);
    } else {
      DvnEnqueueIff(db, step.g, ReadyToVerify, VerifyTxEnqueued, step.req);
    }
  }

  /** The requests that the run's enqueues placed, under the ids they were given. */
  ghost function Orders(run: Run): map<nat, TxRequest>
    requires Legal(run)
  {
    match run
    case Start(_) => map[]
    case Then(before, step) =>
      if IsEnqueue(step) && End(run).nextId != End(before).nextId then Orders(before)[End(before).nextId := Asked(step)]
      else Orders(before)
  }

  /** Row `id` has a request that someone asked for: the start of the run, an enqueue, or the row it
      repeats. */
  ghost predicate Sourced(run: Run, id: nat)
    requires Legal(run) && id in End(run).outbox
  {
    var row := End(run).outbox[id];
    if id in Initial(run).outbox then row.req == Initial(run).outbox[id].req
    else if row.retryOf.None? then id in Orders(run) && row.req == Orders(run)[id]
    else row.retryOf.value in End(run).outbox && row.req == End(run).outbox[row.retryOf.value].req
  }

  /** The order was taken up: its row is there, and asks for what was ordered. */
  ghost predicate Honoured(run: Run, id: nat)
    requires Legal(run) && id in Orders(run)
  {
    id in End(run).outbox && End(run).outbox[id].req == Orders(run)[id] && End(run).outbox[id].retryOf.None?
  }

  /** Only enqueues add rows that repeat nothing. */
  lemma OthersAddNone(db: Db, step: Step)
    requires Permitted(db, step) && Target(step).None? && !IsEnqueue(step)
    ensures Next(db, step).outbox == db.outbox && Next(db, step).nextId == db.nextId
  {
    if step.DoAutoRetry? {
      assert PrepareNextFailedTxRetry(db, None, step.now).db == db;
    } else {
      StepFrame(db, step);
    }
  }

  ghost predicate Accounted(run: Run, id: nat)
    requires Legal(run)
  {
    && (id in Initial(run).outbox ==> id in End(run).outbox)
    && (id in End(run).outbox ==> Sourced(run, id))
    && (id in Orders(run) ==> id !in Initial(run).outbox && Honoured(run, id))
  }

  lemma RequestStays(db: Db, db': Db, target: Option<nat>, id: nat)
    requires Effect(db, db', target) && id in db.outbox
    ensures id in db'.outbox && db'.outbox[id].req == db.outbox[id].req && db'.outbox[id].retryOf == db.outbox[id].retryOf
  {
    assert RowEdge(db, db', db.outbox[id], db'.outbox[id]);
  }

  lemma CloneRepeats(db: Db, db': Db, target: Option<nat>, id: nat)
    requires Effect(db, db', target) && id in db'.outbox && id !in db.outbox && db'.outbox[id].retryOf.Some?
    ensures target.Some? && target == db'.outbox[id].retryOf && target.value in db.outbox
    ensures db'.outbox[id].req == db.outbox[target.value].req
  {
    assert id == db.nextId && NewRow(db, db', db'.outbox[id], target);
  }

  ghost predicate SameRequest(db: Db, db': Db, id: nat) {
    id in db.outbox && id in db'.outbox && db'.outbox[id].req == db.outbox[id].req && db'.outbox[id].retryOf == db.outbox[id].retryOf
  }

  lemma OldRowAccounted(run: Run, id: nat)
    requires run.Then? && Legal(run) && Accounted(run.before, id) && id != End(run.before).nextId
    requires SameRequest(End(run.before), End(run), id)
    requires var parent := End(run).outbox[id].retryOf; parent.Some? ==> SameRequest(End(run.before), End(run), parent.value)
    ensures Accounted(run, id)
  {
  }

  lemma OldRow(run: Run, id: nat)
    requires run.Then? && Legal(run) && WellFormed(End(run.before)) && Accounted(run.before, id) && id in End(run.before).outbox
    requires Effect(End(run.before), End(run), Target(run.step))
    ensures Accounted(run, id)
  {
    var parent := End(run.before).outbox[id].retryOf;
    RequestStays(End(run.before), End(run), Target(run.step), id);
    if parent.Some? {
      assert ParentOk(End(run.before), id, parent.value);
      RequestStays(End(run.before), End(run), Target(run.step), parent.value);
    }
    OldRowAccounted(run, id);
  }

  lemma NewcomerId(db: Db, db': Db, target: Option<nat>, id: nat)
    requires Effect(db, db', target) && id in db'.outbox && id !in db.outbox
    ensures id == db.nextId && db'.nextId == db.nextId + 1
    ensures db'.outbox[id].retryOf.None? ==> target.None?
  {
  }

  lemma OrderOfStep(db: Db, step: Step, id: nat)
    requires Permitted(db, step) && Target(step).None? && id == db.nextId && id !in db.outbox && id in Next(db, step).outbox
    ensures IsEnqueue(step) && Next(db, step).outbox[id].req == Asked(step)
  {
    if IsEnqueue(step) { EnqueuePlaces(db, step); } else { OthersAddNone(db, step); }
  }

  lemma NewOrderAccounted(run: Run, id: nat)
    requires run.Then? && Legal(run) && Accounted(run.before, id) && id !in End(run.before).outbox
    requires id in End(run).outbox && End(run).outbox[id].retryOf.None?
    requires id == End(run.before).nextId && End(run).nextId == id + 1
    requires IsEnqueue(run.step) && End(run).outbox[id].req == Asked(run.step)
    ensures Accounted(run, id)
  {
  }

  lemma NewOrder(run: Run, id: nat)
    requires run.Then? && Legal(run) && Accounted(run.before, id) && id !in End(run.before).outbox
    requires Effect(End(run.before), End(run), Target(run.step)) && id in End(run).outbox && End(run).outbox[id].retryOf.None?
    ensures Accounted(run, id)
  {
    NewcomerId(End(run.before), End(run), Target(run.step), id);
    OrderOfStep(End(run.before), run.step, id);
    NewOrderAccounted(run, id);
  }

  lemma NewCloneAccounted(run: Run, id: nat, parent: nat)
    requires run.Then? && Legal(run) && Accounted(run.before, id) && id !in End(run.before).outbox && !IsEnqueue(run.step)
    requires id in End(run).outbox && End(run).outbox[id].retryOf == Some(parent)
    requires parent in End(run).outbox && End(run).outbox[id].req == End(run).outbox[parent].req
    ensures Accounted(run, id)
  {
  }

  lemma TargetsAreNotEnqueues(step: Step)
    ensures Target(step).Some? ==> !IsEnqueue(step)
  {
  }

  lemma CloneAfter(db: Db, db': Db, target: Option<nat>, id: nat)
    requires Effect(db, db', target) && id in db'.outbox && id !in db.outbox && db'.outbox[id].retryOf.Some?
    ensures target.Some? && db'.outbox[id].retryOf == target
    ensures target.value in db'.outbox && db'.outbox[id].req == db'.outbox[target.value].req
  {
    CloneRepeats(db, db', target, id);
    RequestStays(db, db', target, target.value);
  }

  lemma NewClone(run: Run, id: nat)
    requires run.Then? && Legal(run) && Accounted(run.before, id) && id !in End(run.before).outbox
    requires Effect(End(run.before), End(run), Target(run.step)) && id in End(run).outbox && End(run).outbox[id].retryOf.Some?
    ensures Accounted(run, id)
  {
    CloneAfter(End(run.before), End(run), Target(run.step), id);
    TargetsAreNotEnqueues(run.step);
    NewCloneAccounted(run, id, Target(run.step).value);
  }

  lemma AbsentAccounted(run: Run, id: nat)
    requires run.Then? && Legal(run) && Accounted(run.before, id) && id !in End(run).outbox
    requires Effect(End(run.before), End(run), Target(run.step))
    ensures Accounted(run, id)
  {
  }

  /** Nothing is lost and nothing is invented: in every run each row asks for what the start of the run,
      exactly one accepted enqueue, or the row it repeats asked for, and each accepted enqueue has its
      row, with the caller's chain, purpose, packet, contract, payload and signer, forever. */
  lemma {:induction false} RowsAreOrders(run: Run, id: nat)
    requires Legal(run) && WellFormed(Initial(run))
    ensures Accounted(run, id)
  {
    if run.Then? {
      RowsAreOrders(run.before, id);
      WellFormedRun(run.before);
      StepEffect(End(run.before), run.step);
      if id in End(run.before).outbox {
        OldRow(run, id);
      } else if id !in End(run).outbox {
        AbsentAccounted(run, id);
      } else if End(run).outbox[id].retryOf.None? {
        NewOrder(run, id);
      } else {
        NewClone(run, id);
      }
    }
  }
}
