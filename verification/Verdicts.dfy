/** What a receipt says decides how its transaction ends (go/internal/db/tx_attempts.go). */
module Verdicts {
  import opened Tables
  import opened Outbox
  import opened Receipts
  import opened Runs
  import opened OutboxEffects
  import Leases
  import Retries

  /** What was known when a row's receipt was pinned: the mined attempt and whether it was a cancel
      attempt, whether it succeeded on chain, and whether the operator had asked to cancel. */
  datatype Evidence = Evidence(attempt: nat, cancelAttempt: bool, success: bool, cancelRequested: bool)

  predicate SaysConfirmed(e: Evidence) {
    e.success && !e.cancelAttempt
  }

  predicate SaysFailed(e: Evidence) {
    !e.success && !e.cancelAttempt && !e.cancelRequested
  }

  predicate SaysCanceled(e: Evidence) {
    e.cancelAttempt || (e.cancelRequested && !e.success)
  }

  predicate PinnedAt(db: Db, id: nat) {
    id in db.outbox && db.outbox[id].pin.Some?
  }

  /** The evidence on which the run pinned the row. */
  ghost function Verdict(run: Run, id: nat): Option<Evidence>
    requires Legal(run)
  {
    match run
    case Start(_) => None
    case Then(before, step) =>
      if step.DoPinReceipt? && step.id == id && !PinnedAt(End(before), id) && PinnedAt(End(run), id) && id in End(before).outbox
      then Some(Evidence(step.attempt, step.cancelAttempt, step.success, End(before).outbox[id].signing.cancelRequested))
      else Verdict(before, id)
  }

  /** The pinned outcome is what the evidence says. */
  predicate Agrees(pin: Pin, e: Evidence) {
    && pin.attempt == e.attempt
    && (pin.outcome == OutcomeConfirmed <==> SaysConfirmed(e))
    && (pin.outcome == OutcomeReceiptFailed <==> SaysFailed(e))
    && (pin.outcome == OutcomeCanceled <==> SaysCanceled(e))
  }

  /** Confirmed, failed on chain and canceled are ends that only a pinned receipt gives. */
  predicate Decided(row: Row) {
    && (row.status == Confirmed ==> row.pin.Some? && row.pin.value.outcome == OutcomeConfirmed)
    && (row.failure == Some(ReceiptFailed) ==> row.pin.Some? && row.pin.value.outcome == OutcomeReceiptFailed)
    && (row.failure == Some(Canceled) ==> row.pin.Some? && row.pin.value.outcome == OutcomeCanceled)
  }

  /** The step neither pins the row nor brings it to one of these ends. */
  predicate Leaves(row: Row, after: Row) {
    && after.pin == row.pin && (after.status == Confirmed ==> row.status == Confirmed)
    && (after.failure == row.failure || (after.failure != Some(ReceiptFailed) && after.failure != Some(Canceled)))
  }

  lemma RetriedLeaves(row: Row, after: Row)
    requires Retried(row, after)
    ensures Leaves(row, after)
  {
  }

  lemma EstimateLeaves(db: Db, id: nat, now: int)
    requires id in db.outbox
    ensures var db' := MarkQueuedTxEstimateRevertFailed(db, id, now).db; id in db'.outbox && Leaves(db.outbox[id], db'.outbox[id])
  {
  }

  lemma ClaimLeaves(db: Db, id: nat, lane: Lane, now: int, ttl: nat)
    requires id in db.outbox
    ensures var db' := ClaimOutboxForSigning(db, id, lane, now, ttl).db; id in db'.outbox && Leaves(db.outbox[id], db'.outbox[id])
  {
    if ClaimOutboxForSigning(db, id, lane, now, ttl).reply.Ok? {
      Leases.ClaimGrants(db, id, lane, now, ttl);
    } else {
      ClaimErr(db, id, lane, now, ttl);
    }
  }

  lemma ProgressRow(db: Db, id: nat, status: TxStatus, held: Option<HeldReason>, signing: Signing)
    requires id in db.outbox
    ensures var db' := SendProgress(db, id, status, held, signing).db;
      id in db'.outbox && (db' == db || db'.outbox[id] == db.outbox[id].(status := db'.outbox[id].status, held := held, signing := signing))
  {
  }

  lemma ProgressNeverConfirms(db: Db, id: nat, status: TxStatus, held: Option<HeldReason>, signing: Signing)
    requires id in db.outbox && db.outbox[id].status != Confirmed
    ensures var db' := SendProgress(db, id, status, held, signing).db; id in db'.outbox && db'.outbox[id].status != Confirmed
  {
  }

  lemma ProgressLeaves(db: Db, id: nat, status: TxStatus, held: Option<HeldReason>, signing: Signing)
    requires id in db.outbox
    ensures var db' := SendProgress(db, id, status, held, signing).db; id in db'.outbox && Leaves(db.outbox[id], db'.outbox[id])
  {
    ProgressRow(db, id, status, held, signing);
    if db.outbox[id].status != Confirmed { ProgressNeverConfirms(db, id, status, held, signing); }
  }

  lemma ExternalRetryLeaves(db: Db, id: nat)
    requires id in db.outbox && db.nextId !in db.outbox
    ensures var db' := ResolveExternalNonceRetry(db, id).db; id in db'.outbox && Leaves(db.outbox[id], db'.outbox[id])
  {
  }

  lemma AbandonedRow(db: Db, id: nat)
    requires id in db.outbox
    ensures var db' := ResolveExternalNonceAbandon(db, id).db;
      db'.outbox == db.outbox || db'.outbox == db.outbox[id := TerminalizedExternally(db.outbox[id])]
  {
  }

  lemma ExternalAbandonLeaves(db: Db, id: nat)
    requires id in db.outbox
    ensures var db' := ResolveExternalNonceAbandon(db, id).db; id in db'.outbox && Leaves(db.outbox[id], db'.outbox[id])
  {
    AbandonedRow(db, id);
  }

  lemma RetryLeaves(db: Db, step: Step, id: nat)
    requires WellFormed(db) && Permitted(db, step) && id in db.outbox && Target(step) == Some(id) && (step.DoRetry? || step.DoAutoRetry?)
    ensures var db' := SendingNext(db, step); id in db'.outbox && Leaves(db.outbox[id], db'.outbox[id])
  {
    if step.DoRetry? { RetryRow(db, id, step.now); } else { AutoRetryRow(db, id, step.now); }
    RetriedLeaves(db.outbox[id], SendingNext(db, step).outbox[id]);
  }

  lemma TargetLeaves(db: Db, step: Step, id: nat)
    requires WellFormed(db) && Permitted(db, step) && id in db.outbox && Target(step) == Some(id) && SendingStep(step)
    requires !step.DoPinReceipt? && !step.DoFinalize?
    ensures var db' := SendingNext(db, step); id in db'.outbox && Leaves(db.outbox[id], db'.outbox[id])
  {
    if step.DoRetry? || step.DoAutoRetry? {
      RetryLeaves(db, step, id);
    } else if step.DoEstimateRevert? {
      EstimateLeaves(db, id, step.now);
    } else if step.DoClaim? {
      ClaimLeaves(db, id, step.lane, step.now, step.ttl);
    } else if step.DoSendProgress? {
      ProgressLeaves(db, id, step.status, step.held, step.signing);
    } else if step.DoExternalRetry? {
      ExternalRetryLeaves(db, id);
    } else {
      ExternalAbandonLeaves(db, id);
    }
  }

  lemma StepLeaves(db: Db, step: Step, id: nat)
    requires WellFormed(db) && Permitted(db, step) && id in db.outbox && !step.DoPinReceipt? && !step.DoFinalize?
    ensures id in Next(db, step).outbox && Leaves(db.outbox[id], Next(db, step).outbox[id])
  {
    if Target(step) == Some(id) {
      AddressedIsSending(db, step);
      TargetLeaves(db, step, id);
    } else {
      UnaddressedStays(db, step, id);
    }
  }

  // ----- pinning and finalizing -----

  /** Exactly live rows that hold a nonce can be pinned, and a replay of the same attempt is told the
      outcome that was pinned. Nothing but the pin changes. */
  lemma PinSucceedsIff(db: Db, id: nat, attempt: nat, cancelAttempt: bool, success: bool)
    ensures var out := PrepareReceiptResolution(db, id, attempt, cancelAttempt, success);
      && (out.reply.Ok? <==>
            && id in db.outbox && db.outbox[id].nonce.Some?
            && (if db.outbox[id].pin.Some? then db.outbox[id].pin.value.attempt == attempt
                else db.outbox[id].status !in {Confirmed, Failed}))
      && (out.reply.Ok? ==> out.db.outbox == db.outbox[id := db.outbox[id].(pin := Some(Pin(out.reply.value, attempt)))])
      && (out.reply.Ok? && db.outbox[id].pin.Some? ==> out.db == db)
      && (out.reply.Err? ==> out.db == db)
  {
  }

  /** A row that was not pinned yet gets the outcome its evidence says. */
  lemma PinAgrees(db: Db, id: nat, attempt: nat, cancelAttempt: bool, success: bool)
    requires id in db.outbox && db.outbox[id].pin.None?
    requires PrepareReceiptResolution(db, id, attempt, cancelAttempt, success).reply.Ok?
    ensures var outcome := PrepareReceiptResolution(db, id, attempt, cancelAttempt, success).reply.value;
      Agrees(Pin(outcome, attempt), Evidence(attempt, cancelAttempt, success, db.outbox[id].signing.cancelRequested))
  {
  }

  lemma PinDecides(db: Db, id: nat, attempt: nat, cancelAttempt: bool, success: bool)
    requires id in db.outbox && Decided(db.outbox[id])
    ensures var (row, db') := (db.outbox[id], PrepareReceiptResolution(db, id, attempt, cancelAttempt, success).db);
      && id in db'.outbox && Decided(db'.outbox[id])
      && (row.pin.Some? ==> db'.outbox[id] == row)
      && (row.pin.None? && db'.outbox[id].pin.Some? ==>
            Agrees(db'.outbox[id].pin.value, Evidence(attempt, cancelAttempt, success, row.signing.cancelRequested)))
  {
    PinSucceedsIff(db, id, attempt, cancelAttempt, success);
    if PrepareReceiptResolution(db, id, attempt, cancelAttempt, success).reply.Ok? && db.outbox[id].pin.None? {
      PinAgrees(db, id, attempt, cancelAttempt, success);
    }
  }

  /** The row's end matches the pin. */
  predicate EndsAs(row: Row, outcome: ReceiptOutcome) {
    && (row.status == Confirmed <==> outcome == OutcomeConfirmed)
    && (row.failure == Some(ReceiptFailed) <==> outcome == OutcomeReceiptFailed)
    && (row.failure == Some(Canceled) <==> outcome == OutcomeCanceled)
    && (row.status == Confirmed || row.status == Failed) && (row.failure.None? <==> row.status == Confirmed)
  }

  /** Exactly the pinned attempt can be applied. Applying it ends the row as pinned, records what the
      receipt cost, clears every lease, hold and cancel request, and opens a retry window only for a
      failure on chain that has attempts left and carries no price. */
  lemma FinalizeApplies(db: Db, id: nat, attempt: nat, costDst: nat, now: int)
    ensures var out := FinalizeAttemptReceipt(db, id, attempt, costDst, now);
      && (out.reply.Ok? <==> PinnedAt(db, id) && db.outbox[id].pin.value.attempt == attempt)
      && (out.reply.Err? ==> out.db == db)
      && (out.reply.Ok? ==>
            && out.db.outbox.Keys == db.outbox.Keys
            && var (row, after) := (db.outbox[id], out.db.outbox[id]);
               && EndsAs(after, out.reply.value) && out.reply.value == row.pin.value.outcome && after.pin == row.pin
               && after.cost == ReceiptCost(Some(costDst), row.cost.src, now)
               && after.held.None? && LeaseFree(after, now) && !after.signing.cancelRequested && after.signing.nextSignAt.None?
               && after.req == row.req && after.nonce == row.nonce && after.attempts == row.attempts
               && (after.nextRetryAt.Some? <==>
                     after.failure == Some(ReceiptFailed) && row.attempts < 5 && !row.req.purpose.PricingSnapshot?)
               && (after.nextRetryAt.Some? ==> after.nextRetryAt.value == now + RetryDelay(row.attempts)))
  {
  }

  lemma FinalizeKeepsDecided(db: Db, id: nat, attempt: nat, costDst: nat, now: int)
    requires id in db.outbox && Decided(db.outbox[id])
    ensures var db' := FinalizeAttemptReceipt(db, id, attempt, costDst, now).db;
      id in db'.outbox && Decided(db'.outbox[id]) && db'.outbox[id].pin == db.outbox[id].pin
  {
    FinalizeApplies(db, id, attempt, costDst, now);
  }

  lemma DecidedStep(db: Db, step: Step, id: nat)
    requires WellFormed(db) && Permitted(db, step) && id in db.outbox && Decided(db.outbox[id])
    ensures id in Next(db, step).outbox && Decided(Next(db, step).outbox[id])
  {
    if step.DoPinReceipt? && step.id == id {
      PinDecides(db, id, step.attempt, step.cancelAttempt, step.success);
    } else if step.DoFinalize? && step.id == id {
      FinalizeKeepsDecided(db, id, step.attempt, step.costDst, step.now);
    } else if Target(step) != Some(id) {
      UnaddressedStays(db, step, id);
    } else {
      StepLeaves(db, step, id);
    }
  }

  /** Without a pinning step the pin stays as it is. */
  lemma PinUntouched(db: Db, step: Step, id: nat)
    requires WellFormed(db) && Permitted(db, step) && id in db.outbox && Decided(db.outbox[id])
    requires !(step.DoPinReceipt? && step.id == id)
    ensures id in Next(db, step).outbox && Next(db, step).outbox[id].pin == db.outbox[id].pin
  {
    if step.DoFinalize? && step.id == id {
      FinalizeKeepsDecided(db, id, step.attempt, step.costDst, step.now);
    } else if Target(step) != Some(id) {
      UnaddressedStays(db, step, id);
    } else {
      StepLeaves(db, step, id);
    }
  }

  /** The row starts undecided: absent, or without a pin and not yet at one of these ends. */
  ghost predicate Undecided(db: Db, id: nat) {
    id in db.outbox ==> db.outbox[id].pin.None? && Decided(db.outbox[id])
  }

  ghost predicate Judged(db: Db, id: nat, verdict: Option<Evidence>) {
    if id !in db.outbox then verdict.None?
    else
      && Decided(db.outbox[id]) && (db.outbox[id].pin.Some? <==> verdict.Some?)
      && (verdict.Some? ==> Agrees(db.outbox[id].pin.value, verdict.value))
  }

  lemma NewcomerUnpinned(db: Db, db': Db, target: Option<nat>, id: nat)
    requires Effect(db, db', target) && id in db'.outbox && id !in db.outbox
    ensures db'.outbox[id].pin.None? && Decided(db'.outbox[id])
  {
  }

  lemma JudgedPin(before: Run, step: Step, id: nat)
    requires Legal(Then(before, step)) && Judged(End(before), id, Verdict(before, id))
    requires step.DoPinReceipt? && step.id == id && id in End(before).outbox
    ensures Judged(End(Then(before, step)), id, Verdict(Then(before, step), id))
  {
    PinDecides(End(before), id, step.attempt, step.cancelAttempt, step.success);
  }

  lemma JudgedOtherwise(before: Run, step: Step, id: nat)
    requires Legal(Then(before, step)) && WellFormed(End(before)) && Judged(End(before), id, Verdict(before, id))
    requires id in End(before).outbox && !(step.DoPinReceipt? && step.id == id)
    ensures Judged(End(Then(before, step)), id, Verdict(Then(before, step), id))
  {
    DecidedStep(End(before), step, id);
    PinUntouched(End(before), step, id);
  }

  lemma JudgedNewcomer(before: Run, step: Step, id: nat)
    requires Legal(Then(before, step)) && WellFormed(End(before)) && Judged(End(before), id, Verdict(before, id))
    requires id !in End(before).outbox
    ensures Judged(End(Then(before, step)), id, Verdict(Then(before, step), id))
  {
    StepEffect(End(before), step);
    if id in Next(End(before), step).outbox { NewcomerUnpinned(End(before), Next(End(before), step), Target(step), id); }
  }

  lemma {:induction false} JudgedByEvidence(run: Run, id: nat)
    requires Legal(run) && WellFormed(Initial(run)) && Undecided(Initial(run), id)
    ensures Judged(End(run), id, Verdict(run, id))
  {
    if run.Then? {
      JudgedByEvidence(run.before, id);
      WellFormedRun(run.before);
      if id !in End(run.before).outbox {
        JudgedNewcomer(run.before, run.step, id);
      } else if run.step.DoPinReceipt? && run.step.id == id {
        JudgedPin(run.before, run.step, id);
      } else {
        JudgedOtherwise(run.before, run.step, id);
      }
    }
  }

  /** In every run: a row is confirmed only on a successful receipt of an attempt that was no cancel,
      failed on chain only on a reverted one that nobody had asked to cancel, and canceled only by a
      cancel attempt or a reverted receipt after a cancel request; the pin says which, both ways. */
  lemma EndsFollowReceipts(run: Run, id: nat)
    requires Legal(run) && WellFormed(Initial(run)) && Undecided(Initial(run), id) && id in End(run).outbox
    ensures var (row, verdict) := (End(run).outbox[id], Verdict(run, id));
      && (row.pin.Some? <==> verdict.Some?)
      && (verdict.Some? ==> Agrees(row.pin.value, verdict.value))
      && (row.status == Confirmed ==> verdict.Some? && SaysConfirmed(verdict.value))
      && (row.failure == Some(ReceiptFailed) ==> verdict.Some? && SaysFailed(verdict.value))
      && (row.failure == Some(Canceled) ==> verdict.Some? && SaysCanceled(verdict.value))
  {
    JudgedByEvidence(run, id);
  }

  /** Applying the receipt ends the row exactly as the evidence says. */
  lemma FinalizedAsJudged(run: Run, id: nat, attempt: nat, costDst: nat, now: int)
    requires Legal(run) && WellFormed(Initial(run)) && Undecided(Initial(run), id)
    requires FinalizeAttemptReceipt(End(run), id, attempt, costDst, now).reply.Ok?
    ensures Verdict(run, id).Some? && id in FinalizeAttemptReceipt(End(run), id, attempt, costDst, now).db.outbox
    ensures var (row, e) := (FinalizeAttemptReceipt(End(run), id, attempt, costDst, now).db.outbox[id], Verdict(run, id).value);
      && (row.status == Confirmed <==> SaysConfirmed(e))
      && (row.failure == Some(ReceiptFailed) <==> SaysFailed(e))
      && (row.failure == Some(Canceled) <==> SaysCanceled(e))
  {
    JudgedByEvidence(run, id);
    FinalizeApplies(End(run), id, attempt, costDst, now);
  }

  /** A finalized row comes due for an automatic retry exactly if it failed on chain, from the end of its
      delay on, in its own lane, with attempts left and no price; confirmed and canceled rows never do. */
  lemma FinalizedComesDue(db: Db, id: nat, attempt: nat, costDst: nat, now: int, chain: Eid, signer: string, later: int)
    requires WellFormed(db) && FinalizeAttemptReceipt(db, id, attempt, costDst, now).reply.Ok?
    requires id in db.outbox && db.outbox[id].status != Failed
    ensures var (row, out) := (db.outbox[id], FinalizeAttemptReceipt(db, id, attempt, costDst, now));
      AutoRetryDue(out.db, chain, signer, later, id) <==>
        && out.reply.value == OutcomeReceiptFailed && LaneOf(row) == Lane(chain, signer) && row.attempts < 5
        && !row.req.purpose.PricingSnapshot? && later >= now + RetryDelay(row.attempts)
  {
    var db' := FinalizeAttemptReceipt(db, id, attempt, costDst, now).db;
    FinalizeApplies(db, id, attempt, costDst, now);
    FinalizeEditsOne(db, id, attempt, costDst, now);
    Retries.LiveHasNoClone(db, db', id);
    Retries.DueFrom(db', chain, signer, later, id);
    if db'.outbox[id].nextRetryAt.Some? && db'.outbox[id].nextRetryAt.value <= later {
      assert Retries.AsksAt(db'.outbox[id], db'.outbox[id].nextRetryAt.value);
    }
  }

  lemma FinalizeEditsOne(db: Db, id: nat, attempt: nat, costDst: nat, now: int)
    requires id in db.outbox
    ensures var db' := FinalizeAttemptReceipt(db, id, attempt, costDst, now).db;
      && id in db'.outbox && db'.outbox == db.outbox[id := db'.outbox[id]] && db'.outbox[id].retryOf == db.outbox[id].retryOf
  {
  }
}
