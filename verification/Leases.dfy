/** Signing leases over whole runs, and what a signing claim grants
    (go/internal/db/tx_attempts.go, go/internal/db/outbox.go). */
module Leases {
  import opened Tables
  import opened SendScope
  import opened Outbox
  import opened Receipts
  import opened Runs
  import opened OutboxEffects
  import opened Nonces

  // ----- who may end a lease -----

  /** The holder's own progress and the terminal resolutions clear or replace a lease. */
  predicate Releases(step: Step, id: nat) {
    (step.DoSendProgress? || step.DoFinalize? || step.DoExternalRetry? || step.DoExternalAbandon?) && step.id == id
  }

  /** The row is reserved at every time before `until`. */
  predicate Reserved(row: Row, until: int) {
    row.signing.leaseUntil.Some? && row.signing.leaseUntil.value >= until
  }

  ghost predicate SameSigning(db: Db, db': Db, id: nat) {
    id in db.outbox && id in db'.outbox && db'.outbox[id].signing == db.outbox[id].signing
  }

  lemma EstimateKeepsSigning(db: Db, id: nat, now: int)
    requires id in db.outbox
    ensures SameSigning(db, MarkQueuedTxEstimateRevertFailed(db, id, now).db, id)
  {
  }

  lemma PinKeepsSigning(db: Db, id: nat, attempt: nat, cancelAttempt: bool, success: bool)
    requires id in db.outbox
    ensures SameSigning(db, PrepareReceiptResolution(db, id, attempt, cancelAttempt, success).db, id)
  {
  }

  /** A successful claim reserves its row for the whole ttl, and only a free row can be claimed. */
  lemma ClaimReserves(db: Db, id: nat, lane: Lane, now: int, ttl: nat)
    requires ClaimOutboxForSigning(db, id, lane, now, ttl).reply.Ok?
    ensures id in db.outbox && LeaseFree(db.outbox[id], now)
    ensures var db' := ClaimOutboxForSigning(db, id, lane, now, ttl).db;
      id in db'.outbox && db'.outbox[id].signing.leaseUntil == Some(now + ttl)
  {
  }

  lemma ReservedByClaim(db: Db, id: nat, lane: Lane, now: int, ttl: nat, until: int)
    requires id in db.outbox && Reserved(db.outbox[id], until)
    ensures var db' := ClaimOutboxForSigning(db, id, lane, now, ttl).db;
      id in db'.outbox && Reserved(db'.outbox[id], until)
  {
    if ClaimOutboxForSigning(db, id, lane, now, ttl).reply.Ok? {
      ClaimReserves(db, id, lane, now, ttl);
    } else {
      ClaimErr(db, id, lane, now, ttl);
    }
  }

  lemma TargetKeepsSigning(db: Db, step: Step, id: nat)
    requires WellFormed(db) && Permitted(db, step) && id in db.outbox && Target(step) == Some(id)
    requires step.DoEstimateRevert? || step.DoRetry? || step.DoAutoRetry? || step.DoPinReceipt?
    ensures SameSigning(db, SendingNext(db, step), id)
  {
    if step.DoEstimateRevert? {
      EstimateKeepsSigning(db, id, step.now);
    } else if step.DoRetry? {
      RetryRow(db, id, step.now);
    } else if step.DoAutoRetry? {
      AutoRetryRow(db, id, step.now);
    } else {
      PinKeepsSigning(db, id, step.attempt, step.cancelAttempt, step.success);
    }
  }

  lemma TargetStaysReserved(db: Db, step: Step, id: nat, until: int)
    requires WellFormed(db) && Permitted(db, step) && id in db.outbox && Reserved(db.outbox[id], until)
    requires SendingStep(step) && Target(step) == Some(id) && !Releases(step, id)
    ensures var db' := SendingNext(db, step); id in db'.outbox && Reserved(db'.outbox[id], until)
  {
    if step.DoClaim? {
      ReservedByClaim(db, id, step.lane, step.now, step.ttl, until);
    } else {
      TargetKeepsSigning(db, step, id);
    }
  }

  lemma StaysReserved(db: Db, step: Step, id: nat, until: int)
    requires WellFormed(db) && Permitted(db, step) && id in db.outbox && Reserved(db.outbox[id], until) && !Releases(step, id)
    ensures id in Next(db, step).outbox && Reserved(Next(db, step).outbox[id], until)
  {
    if Target(step) == Some(id) {
      AddressedIsSending(db, step);
      TargetStaysReserved(db, step, id, until);
    } else {
      UnaddressedStays(db, step, id);
    }
  }

  ghost predicate NotReleased(earlier: Run, later: Run, id: nat) {
    later != earlier && later.Then? ==> NotReleased(earlier, later.before, id) && !Releases(later.step, id)
  }

  lemma {:induction false} ReservedThroughout(earlier: Run, later: Run, id: nat, until: int)
    requires Legal(earlier) && Legal(later) && Continues(earlier, later) && WellFormed(Initial(later))
    requires id in End(earlier).outbox && Reserved(End(earlier).outbox[id], until) && NotReleased(earlier, later, id)
    ensures id in End(later).outbox && Reserved(End(later).outbox[id], until)
    decreases later
  {
    if later != earlier {
      ReservedThroughout(earlier, later.before, id, until);
      WellFormedRun(later.before);
      StaysReserved(End(later.before), later.step, id, until);
    }
  }

  lemma ReservedRefusesAll(db: Db, id: nat, until: int, lane: Lane, now: int, ttl: nat)
    requires id in db.outbox && Reserved(db.outbox[id], until) && now < until
    ensures ClaimOutboxForSigning(db, id, lane, now, ttl)
         == Unchanged(db, if lane.chain == 0 || lane.signer == "" || ttl == 0 then InvalidArgument else LeaseLost)
    ensures !Sendable(db, lane, now, id)
    ensures MarkQueuedTxEstimateRevertFailed(db, id, now) == Outcome(db, Ok(false))
  {
  }

  /** One signer at a time: after a claim at time `t` for `ttl`, and until its holder makes progress or
      the row is resolved, every claim of the row before `t + ttl` loses, the row is not offered, and
      no estimate revert can fail it. */
  lemma LeaseExcludes(earlier: Run, later: Run, id: nat, lane: Lane, t: int, ttl: nat, other: Lane, now: int, otherTtl: nat)
    requires Legal(earlier) && ClaimOutboxForSigning(End(earlier), id, lane, t, ttl).reply.Ok?
    requires Legal(later) && Continues(Then(earlier, DoClaim(id, lane, t, ttl)), later) && WellFormed(Initial(later))
    requires NotReleased(Then(earlier, DoClaim(id, lane, t, ttl)), later, id) && now < t + ttl
    ensures ClaimOutboxForSigning(End(later), id, other, now, otherTtl)
         == Unchanged(End(later), if other.chain == 0 || other.signer == "" || otherTtl == 0 then InvalidArgument else LeaseLost)
    ensures !Sendable(End(later), other, now, id)
    ensures MarkQueuedTxEstimateRevertFailed(End(later), id, now) == Outcome(End(later), Ok(false))
  {
    var claimed := Then(earlier, DoClaim(id, lane, t, ttl));
    Extended(earlier, DoClaim(id, lane, t, ttl));
    ClaimReserves(End(earlier), id, lane, t, ttl);
    ReservedThroughout(claimed, later, id, t + ttl);
    ReservedRefusesAll(End(later), id, t + ttl, other, now, otherTtl);
  }

  // ----- what a claim needs and grants -----

  /** A row between taking its nonce and its broadcast. */
  predicate InTheWay(db: Db, lane: Lane, o: nat) {
    o in db.outbox && LaneOf(db.outbox[o]) == lane && db.outbox[o].status in {NonceAssigned, Signed, Held}
  }

  /** Row `o` has to be broadcast before row `id` may be signed. */
  predicate Blocks(db: Db, lane: Lane, o: nat, id: nat)
    requires id in db.outbox
  {
    && InTheWay(db, lane, o)
    && (db.outbox[id].nonce.Some? ==> db.outbox[o].nonce.Some? && db.outbox[o].nonce.value < db.outbox[id].nonce.value)
  }

  /** Nobody else works on the row, and nothing about it is decided yet. */
  predicate Unreserved(row: Row, now: int) {
    && (row.signing.leaseUntil.Some? ==> row.signing.leaseUntil.value <= now)
    && !row.signing.cancelRequested && row.pin.None?
  }

  ghost predicate MayTakeNonce(db: Db, row: Row) {
    && Addressed(db, row.req) && NothingShut(db, row.req)
    && LaneOf(row) in db.cursors && db.cursors[LaneOf(row)] < MAX_DB_NONCE
  }

  lemma FreshClaimIff(db: Db, id: nat, lane: Lane, until: int)
    requires id in db.outbox && LaneOf(db.outbox[id]) == lane && db.outbox[id].nonce.None?
    ensures ClaimFresh(db, id, lane, until).reply.Ok? <==>
      MayTakeNonce(db, db.outbox[id]) && forall o :: !Blocks(db, lane, o, id)
  {
    ActiveIffNothingShut(db, db.outbox[id].req);
    if LaneBusy(db, lane) {
      var o :| o in db.outbox && LaneOf(db.outbox[o]) == lane && ShortOfBroadcast(db.outbox[o].status);
      assert Blocks(db, lane, o, id);
    }
    if o :| Blocks(db, lane, o, id) {
      assert ShortOfBroadcast(db.outbox[o].status);
    }
  }

  lemma RepeatClaimIff(db: Db, id: nat, lane: Lane, until: int)
    requires id in db.outbox && LaneOf(db.outbox[id]) == lane && db.outbox[id].nonce.Some?
    ensures ClaimAgain(db, id, lane, until).reply.Ok? <==>
      db.outbox[id].status in {Queued, NonceAssigned} && forall o :: !Blocks(db, lane, o, id)
  {
    var n := db.outbox[id].nonce.value;
    if LowerNonceBusy(db, lane, n) {
      var o :| o in db.outbox && LaneOf(db.outbox[o]) == lane && ShortOfBroadcast(db.outbox[o].status)
        && db.outbox[o].nonce.Some? && db.outbox[o].nonce.value < n;
      assert Blocks(db, lane, o, id);
    }
    if o :| Blocks(db, lane, o, id) {
      assert ShortOfBroadcast(db.outbox[o].status);
    }
  }

  ghost predicate MayClaim(db: Db, id: nat, lane: Lane, now: int) {
    && id in db.outbox && LaneOf(db.outbox[id]) == lane && Unreserved(db.outbox[id], now)
    && (forall o :: !Blocks(db, lane, o, id))
    && var row := db.outbox[id];
       row.status in {Queued, NonceAssigned} && (row.nonce.None? ==> MayTakeNonce(db, row))
  }

  /** A claim succeeds exactly when the row is free, unresolved and first in its lane, and, if it still
      needs a nonce, nothing in front of it is shut and the cursor has one to give. */
  lemma ClaimSucceedsIff(db: Db, id: nat, lane: Lane, now: int, ttl: nat)
    requires WellFormed(db) && lane.chain != 0 && lane.signer != "" && ttl != 0
    ensures ClaimOutboxForSigning(db, id, lane, now, ttl).reply.Ok? <==> MayClaim(db, id, lane, now)
  {
    if id in db.outbox && LaneOf(db.outbox[id]) == lane {
      if db.outbox[id].nonce.None? { FreshClaimIff(db, id, lane, now + ttl); } else { RepeatClaimIff(db, id, lane, now + ttl); }
    }
  }

  /** What a claim that returned `n` leaves: the row assigned under `n`, reserved until `until` and
      otherwise as it was, every other row untouched, and a cursor moved on only for a first nonce. */
  ghost predicate Granted(db: Db, db': Db, id: nat, lane: Lane, n: nat, until: int) {
    && id in db.outbox
    && var row := db.outbox[id];
       && db'.outbox == db.outbox[id := row.(status := NonceAssigned, nonce := Some(n), signing := row.signing.(leaseUntil := Some(until)))]
       && (row.nonce.Some? ==> row.nonce.value == n && db'.cursors == db.cursors)
       && (row.nonce.None? ==> lane in db.cursors && n == db.cursors[lane] && db'.cursors == db.cursors[lane := n + 1])
  }

  lemma FreshGrants(db: Db, id: nat, lane: Lane, until: int)
    requires id in db.outbox && db.outbox[id].nonce.None? && ClaimFresh(db, id, lane, until).reply.Ok?
    ensures Granted(db, ClaimFresh(db, id, lane, until).db, id, lane, ClaimFresh(db, id, lane, until).reply.value, until)
  {
  }

  lemma RepeatGrants(db: Db, id: nat, lane: Lane, until: int)
    requires id in db.outbox && ClaimAgain(db, id, lane, until).reply.Ok?
    ensures Granted(db, ClaimAgain(db, id, lane, until).db, id, lane, ClaimAgain(db, id, lane, until).reply.value, until)
  {
  }

  lemma ClaimGrants(db: Db, id: nat, lane: Lane, now: int, ttl: nat)
    requires ClaimOutboxForSigning(db, id, lane, now, ttl).reply.Ok?
    ensures var out := ClaimOutboxForSigning(db, id, lane, now, ttl);
      Granted(db, out.db, id, lane, out.reply.value, now + ttl)
  {
    ClaimOk(db, id, lane, now, ttl);
    if NeedsNonce(db.outbox[id]) { FreshGrants(db, id, lane, now + ttl); } else { RepeatGrants(db, id, lane, now + ttl); }
  }

  lemma ValidClaim(db: Db, id: nat, lane: Lane, now: int, ttl: nat)
    requires ClaimOutboxForSigning(db, id, lane, now, ttl).reply.Ok?
    ensures lane.chain != 0 && lane.signer != "" && ttl != 0 && id in db.outbox && LaneOf(db.outbox[id]) == lane
  {
  }

  lemma GrantedInOrder(db: Db, db': Db, id: nat, lane: Lane, n: nat, until: int, o: nat)
    requires NoncesOk(db) && Granted(db, db', id, lane, n, until) && LaneOf(db.outbox[id]) == lane
    requires o != id && Holds(db, lane, o) && !Blocks(db, lane, o, id)
    ensures db.outbox[o].nonce.value != n
    ensures db.outbox[o].nonce.value < n ==> db.outbox[o].status !in {NonceAssigned, Signed, Held}
  {
    if db.outbox[id].nonce.Some? {
      assert SharesNonce(db.outbox[id], db.outbox[o]) ==> id == o;
      assert db.outbox[o].nonce.value < n ==> !InTheWay(db, lane, o);
    } else {
      assert CursorAbove(db, lane);
    }
  }

  lemma NobodyBlocks(db: Db, id: nat, lane: Lane, now: int, ttl: nat, o: nat)
    requires WellFormed(db) && ClaimOutboxForSigning(db, id, lane, now, ttl).reply.Ok?
    ensures id in db.outbox && LaneOf(db.outbox[id]) == lane && !Blocks(db, lane, o, id)
  {
    ValidClaim(db, id, lane, now, ttl);
    ClaimSucceedsIff(db, id, lane, now, ttl);
  }

  lemma ClaimedInOrder(db: Db, id: nat, lane: Lane, now: int, ttl: nat, o: nat)
    requires WellFormed(db) && NoncesOk(db) && ClaimOutboxForSigning(db, id, lane, now, ttl).reply.Ok?
    requires o != id && Holds(db, lane, o)
    ensures var n := ClaimOutboxForSigning(db, id, lane, now, ttl).reply.value;
      && db.outbox[o].nonce.value != n
      && (db.outbox[o].nonce.value < n ==> db.outbox[o].status !in {NonceAssigned, Signed, Held})
  {
    var out := ClaimOutboxForSigning(db, id, lane, now, ttl);
    ClaimGrants(db, id, lane, now, ttl);
    NobodyBlocks(db, id, lane, now, ttl, o);
    GrantedInOrder(db, out.db, id, lane, out.reply.value, now + ttl, o);
  }

  /** Nonces of a lane are signed in order: whenever a claim hands out a nonce, no row of the lane with
      a lower one is still short of its broadcast, and no other row has the same. */
  lemma SignedInOrder(run: Run, id: nat, lane: Lane, now: int, ttl: nat, o: nat)
    requires Legal(run) && WellFormed(Initial(run)) && NoncesOk(Initial(run))
    requires ClaimOutboxForSigning(End(run), id, lane, now, ttl).reply.Ok?
    requires o != id && Holds(End(run), lane, o)
    ensures var n := ClaimOutboxForSigning(End(run), id, lane, now, ttl).reply.value;
      && End(run).outbox[o].nonce.value != n
      && (End(run).outbox[o].nonce.value < n ==> End(run).outbox[o].status !in {NonceAssigned, Signed, Held})
  {
    NonceAllocation(run, lane);
    ClaimedInOrder(End(run), id, lane, now, ttl, o);
  }

  // ----- the selection offers what can be claimed -----

  /** The selector's choice among the sendable rows of a lane. */
  ghost predicate Selected(db: Db, lane: Lane, now: int, id: nat) {
    && Sendable(db, lane, now, id)
    && forall o :: Sendable(db, lane, now, o) ==> SendsBefore(db.outbox[id], id, db.outbox[o], o)
  }

  /** What the selector offers, on the rows themselves. */
  lemma OfferedIff(db: Db, lane: Lane, now: int, id: nat)
    requires PacketChainsExist(db)
    ensures Sendable(db, lane, now, id) <==>
      && id in db.outbox && LaneOf(db.outbox[id]) == lane && Unreserved(db.outbox[id], now)
      && var row := db.outbox[id];
         && row.status in {Queued, NonceAssigned} && (row.signing.nextSignAt.Some? ==> row.signing.nextSignAt.value <= now)
         && (row.nonce.None? ==> Addressed(db, row.req) && NothingShut(db, row.req))
  {
    if id in db.outbox {
      SelectorAgreesWithGate(db, db.outbox[id]);
      ActiveIffNothingShut(db, db.outbox[id].req);
    }
  }

  /** The selection agrees with the claim: an offered row can be claimed at once unless the lane is
      blocked or its cursor cannot serve it. */
  lemma OfferedCanBeClaimed(db: Db, lane: Lane, now: int, id: nat)
    requires WellFormed(db) && PacketChainsExist(db) && Sendable(db, lane, now, id)
    ensures MayClaim(db, id, lane, now) <==>
      && (forall o :: !Blocks(db, lane, o, id))
      && (db.outbox[id].nonce.None? ==> lane in db.cursors && db.cursors[lane] < MAX_DB_NONCE)
  {
    OfferedIff(db, lane, now, id);
  }

  /** No row the selector could have offered instead blocks the row it offers, so a lane never waits
      for a row that is itself ready. */
  lemma SelectedIsNotBlockedByCandidates(db: Db, lane: Lane, now: int, id: nat, o: nat)
    requires WellFormed(db) && Selected(db, lane, now, id) && Sendable(db, lane, now, o) && o != id
    ensures !Blocks(db, lane, o, id)
  {
  }
}
