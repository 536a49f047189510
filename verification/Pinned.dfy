/** A spent nonce is never signed again (go/internal/db/outbox.go, go/internal/db/tx_attempts.go). */
module Pinned {
  import opened Tables
  import opened SendScope
  import opened Outbox
  import opened Receipts
  import opened Runs
  import opened OutboxEffects
  import opened Nonces

  /** The row's nonce has mined, or the chain consumed it for something else. */
  predicate Spent(row: Row) {
    row.nonce.Some? && (row.pin.Some? || Consumed(row))
  }

  /** Spent rows stay spent with the same nonce in every continuation of a run; failed ones stay
      failed and are never charged another attempt. */
  lemma {:induction false} SpentForever(earlier: Run, later: Run, id: nat)
    requires Legal(earlier) && Legal(later) && Continues(earlier, later) && WellFormed(Initial(later))
    requires id in End(earlier).outbox && Spent(End(earlier).outbox[id])
    ensures id in End(later).outbox
    ensures var (row, after) := (End(earlier).outbox[id], End(later).outbox[id]);
      && Spent(after) && after.nonce == row.nonce && after.req == row.req
      && (row.pin.Some? ==> after.pin == row.pin)
      && (row.status == Failed ==> after.status == Failed && Consumed(after) && after.attempts == row.attempts)
    decreases later
  {
    WellFormedRun(later);
    if later == earlier {
      assert RowOk(End(earlier).outbox[id]);
    } else {
      SpentForever(earlier, later.before, id);
      WellFormedRun(later.before);
      StepEffect(End(later.before), later.step);
      assert RowEdge(End(later.before), End(later), End(later.before).outbox[id], End(later).outbox[id]);
    }
  }

  /** What a successful claim hands out: the cursor's nonce, or the nonce of a live unpinned row. */
  lemma ClaimHandsOut(db: Db, id: nat, lane: Lane, now: int, ttl: nat)
    requires ClaimOutboxForSigning(db, id, lane, now, ttl).reply.Ok?
    ensures var n := ClaimOutboxForSigning(db, id, lane, now, ttl).reply.value;
      || (lane in db.cursors && n == db.cursors[lane])
      || (Holds(db, lane, id) && db.outbox[id].nonce == Some(n) && db.outbox[id].status != Failed && db.outbox[id].pin.None?)
  {
  }

  /** However a run continues, no claim of any row ever hands out a spent nonce again, and a spent
      row is never offered to the signer. */
  lemma SpentNonceNeverSignedAgain(earlier: Run, later: Run, id: nat, other: nat, now: int, ttl: nat)
    requires Legal(earlier) && Legal(later) && Continues(earlier, later)
    requires WellFormed(Initial(later)) && NoncesOk(Initial(later))
    requires id in End(earlier).outbox && Spent(End(earlier).outbox[id])
    ensures var (row, db) := (End(earlier).outbox[id], End(later));
      && !Sendable(db, LaneOf(row), now, id)
      && ClaimOutboxForSigning(db, other, LaneOf(row), now, ttl).reply != Ok(row.nonce.value)
  {
    var (row, db) := (End(earlier).outbox[id], End(later));
    var lane := LaneOf(row);
    SpentForever(earlier, later, id);
    NonceAllocation(later, lane);
    assert Holds(db, lane, id) && CursorAbove(db, lane);
    var claim := ClaimOutboxForSigning(db, other, lane, now, ttl);
    if claim.reply == Ok(row.nonce.value) {
      ClaimHandsOut(db, other, lane, now, ttl);
      assert SharesNonce(db.outbox[id], db.outbox[other]);
    }
  }

  /** Every row a step inserts, clones included, starts queued without a nonce, a pin or a cost. */
  lemma InsertedRowsAreBlank(db: Db, step: Step, id: nat)
    requires WellFormed(db) && Permitted(db, step)
    requires id in Next(db, step).outbox && id !in db.outbox
    ensures var row := Next(db, step).outbox[id];
      Blank(row) && row.status == Queued && row.nonce.None? && row.pin.None? && row.cost.dst.None?
  {
    StepEffect(db, step);
    NewcomersAreBlank(db, Next(db, step), Target(step), id);
  }

  lemma NewcomersAreBlank(db: Db, db': Db, target: Option<nat>, id: nat)
    requires Effect(db, db', target) && id in db'.outbox && id !in db.outbox
    ensures Blank(db'.outbox[id])
  {
  }
}
