/** Nonce allocation per (chain, signer) lane over whole runs (go/internal/db/outbox.go). */
module Nonces {
  import opened Tables
  import opened Outbox
  import opened Receipts
  import opened Runs
  import opened OutboxEffects

  /** The unique index on (chain, signer, nonce). */
  ghost predicate NoSharedNonce(db: Db) {
    forall a, b :: a in db.outbox && b in db.outbox && SharesNonce(db.outbox[a], db.outbox[b]) ==> a == b
  }

  predicate SharesNonce(a: Row, b: Row) {
    LaneOf(a) == LaneOf(b) && a.nonce.Some? && a.nonce == b.nonce
  }

  /** A cursor stands above every recorded nonce of its lane and fits the column. */
  ghost predicate CursorAbove(db: Db, lane: Lane) {
    lane in db.cursors ==>
      && db.cursors[lane] <= MAX_DB_NONCE
      && forall id :: Holds(db, lane, id) ==> db.outbox[id].nonce.value < db.cursors[lane]
  }

  ghost predicate NoncesOk(db: Db) {
    NoSharedNonce(db) && forall lane :: lane in db.cursors ==> CursorAbove(db, lane)
  }

  /** The cursor value a lane started from: its bootstrap value, or what the starting state held. */
  ghost function Base(run: Run, lane: Lane): Option<nat>
    requires Legal(run)
  {
    if run.Then? && Base(run.before, lane).Some? then Base(run.before, lane)
    else if lane in End(run).cursors then Some(End(run).cursors[lane])
    else None
  }

  /** Nonces that reconciliation stepped over because the chain consumed them elsewhere. */
  ghost function Skipped(run: Run, lane: Lane): set<nat>
    requires Legal(run)
  {
    match run
    case Start(_) => {}
    case Then(before, step) =>
      Skipped(before, lane) +
      if step.DoForwardCursor? && step.lane == lane && lane in End(before).cursors && step.confirmed <= MAX_DB_NONCE
      then Range(End(before).cursors[lane], step.confirmed) else {}
  }

  predicate Between(lo: nat, n: nat, hi: nat) {
    lo <= n < hi
  }

  ghost function Range(lo: nat, hi: nat): set<nat> {
    set n: nat | n < hi && Between(lo, n, hi)
  }

  ghost predicate Owned(db: Db, lane: Lane, n: nat) {
    exists id :: Holds(db, lane, id) && db.outbox[id].nonce.value == n
  }

  /** From the base on, each nonce below the cursor is owned by a row or was skipped, never both. */
  ghost predicate Allocated(run: Run, lane: Lane)
    requires Legal(run)
  {
    var db := End(run);
    && (lane in db.cursors <==> Base(run, lane).Some?)
    && (lane in db.cursors ==>
          && Base(run, lane).value <= db.cursors[lane]
          && (forall n :: n in Skipped(run, lane) ==> Base(run, lane).value <= n < db.cursors[lane])
          && (forall n :: Base(run, lane).value <= n < db.cursors[lane] ==> (Owned(db, lane, n) <==> n !in Skipped(run, lane))))
    && (lane !in db.cursors ==> Skipped(run, lane) == {})
  }

  // ----- what a step does to cursors -----

  ghost predicate SameCursor(db: Db, db': Db, lane: Lane) {
    && (lane in db'.cursors <==> lane in db.cursors)
    && (lane in db.cursors ==> db'.cursors[lane] == db.cursors[lane])
  }

  /** The lane got its cursor, above everything recorded. */
  ghost predicate Bootstrapped(db: Db, db': Db, lane: Lane) {
    && lane !in db.cursors && lane in db'.cursors && db'.outbox == db.outbox
    && CursorAbove(db', lane)
  }

  ghost predicate Forwarded(db: Db, db': Db, lane: Lane) {
    && lane in db.cursors && lane in db'.cursors && db'.outbox == db.outbox
    && db.cursors[lane] < db'.cursors[lane] <= MAX_DB_NONCE
  }

  /** Row `id` took the cursor's nonce and the cursor moved on by one. */
  ghost predicate Claimed(db: Db, db': Db, lane: Lane, id: nat) {
    && lane in db.cursors && lane in db'.cursors && id in db.outbox && id in db'.outbox
    && db.cursors[lane] < MAX_DB_NONCE && db'.cursors[lane] == db.cursors[lane] + 1
    && LaneOf(db.outbox[id]) == lane && db.outbox[id].nonce.None? && db'.outbox[id].nonce == Some(db.cursors[lane])
  }

  lemma BootstrapEdge(db: Db, own: Lane, rpcPending: nat, local: nat, lane: Lane)
    requires LocalNext(db, own, local)
    ensures var db' := BootstrapTxNonceCursor(db, own, rpcPending, local).db;
      SameCursor(db, db', lane) || Bootstrapped(db, db', lane)
  {
    var db' := BootstrapTxNonceCursor(db, own, rpcPending, local).db;
    forall id | Holds(db', own, id) ensures db'.outbox[id].nonce.value < local { assert Holds(db, own, id); }
  }

  lemma ClaimEdge(db: Db, id: nat, own: Lane, now: int, ttl: nat, lane: Lane)
    ensures var db' := ClaimOutboxForSigning(db, id, own, now, ttl).db;
      SameCursor(db, db', lane) || Claimed(db, db', lane, id)
  {
  }

  ghost predicate CursorMoves(db: Db, step: Step, db': Db, lane: Lane) {
    || SameCursor(db, db', lane)
    || (step.DoBootstrap? && Bootstrapped(db, db', lane))
    || (step.DoForwardCursor? && step.lane == lane && Forwarded(db, db', lane) && db'.cursors[lane] == step.confirmed)
    || (step.DoClaim? && Claimed(db, db', lane, step.id))
  }

  lemma ForwardEdge(db: Db, own: Lane, confirmed: nat, lane: Lane)
    ensures var db' := ForwardCursor(db, own, confirmed).db;
      SameCursor(db, db', lane) || (own == lane && Forwarded(db, db', lane) && db'.cursors[lane] == confirmed)
  {
  }

  lemma SendingCursor(db: Db, step: Step, lane: Lane)
    requires Permitted(db, step) && SendingStep(step)
    ensures CursorMoves(db, step, SendingNext(db, step), lane)
  {
    match step
    case DoBootstrap(own, rpcPending, local) => BootstrapEdge(db, own, rpcPending, local, lane);
    case DoClaim(id, own, now, ttl) => ClaimEdge(db, id, own, now, ttl, lane);
    case DoForwardCursor(own, confirmed) => ForwardEdge(db, own, confirmed, lane);
    case _ => SendingFrame(db, step);
  }

  /** A cursor appears by bootstrap, moves by one with a claim, jumps with a reconciliation, and
      never moves otherwise. */
  lemma CursorEdge(db: Db, step: Step, lane: Lane)
    requires Permitted(db, step)
    ensures CursorMoves(db, step, Next(db, step), lane)
  {
    if SendingStep(step) { SendingCursor(db, step, lane); } else { WorkerFrame(db, step); }
  }

  // ----- uniqueness -----

  /** A nonce-holding row either held the same nonce before the step or has just taken the cursor's. */
  lemma HolderOrClaim(db: Db, db': Db, target: Option<nat>, lane: Lane, id: nat)
    requires Effect(db, db', target) && Holds(db', lane, id)
    ensures
      || (Holds(db, lane, id) && db.outbox[id].nonce == db'.outbox[id].nonce)
      || (target == Some(id) && lane in db.cursors && db'.outbox[id].nonce == Some(db.cursors[lane])
          && db'.cursors == db.cursors[lane := db.cursors[lane] + 1] && db.cursors[lane] < MAX_DB_NONCE)
  {
    if id in db.outbox { assert RowEdge(db, db', db.outbox[id], db'.outbox[id]); }
  }

  /** Rows never give a nonce back. */
  lemma HolderStays(db: Db, db': Db, target: Option<nat>, lane: Lane, id: nat)
    requires Effect(db, db', target) && Holds(db, lane, id)
    ensures Holds(db', lane, id) && db'.outbox[id].nonce == db.outbox[id].nonce
  {
    assert RowEdge(db, db', db.outbox[id], db'.outbox[id]);
  }

  lemma StillUnshared(db: Db, db': Db, target: Option<nat>, a: nat, b: nat)
    requires Effect(db, db', target) && NoncesOk(db)
    requires a in db'.outbox && b in db'.outbox && SharesNonce(db'.outbox[a], db'.outbox[b])
    ensures a == b
  {
    var lane := LaneOf(db'.outbox[a]);
    HolderOrClaim(db, db', target, lane, a);
    HolderOrClaim(db, db', target, lane, b);
    if Holds(db, lane, a) && Holds(db, lane, b) {
      assert SharesNonce(db.outbox[a], db.outbox[b]);
    } else if Holds(db, lane, a) || Holds(db, lane, b) {
      assert CursorAbove(db, lane);
    }
  }

  /** An existing cursor never moves down. */
  lemma CursorRises(db: Db, step: Step, db': Db, lane: Lane)
    requires CursorMoves(db, step, db', lane) && lane in db'.cursors
    ensures CursorAbove(db', lane) || (lane in db.cursors && db.cursors[lane] <= db'.cursors[lane])
  {
  }

  lemma HolderBelow(db: Db, step: Step, db': Db, lane: Lane, id: nat)
    requires Effect(db, db', Target(step)) && CursorAbove(db, lane)
    requires lane in db.cursors && lane in db'.cursors && db.cursors[lane] <= db'.cursors[lane] && Holds(db', lane, id)
    ensures db'.outbox[id].nonce.value < db'.cursors[lane]
  {
    HolderOrClaim(db, db', Target(step), lane, id);
    if Holds(db, lane, id) { assert db.outbox[id].nonce.value < db.cursors[lane]; }
  }

  lemma StillAbove(db: Db, step: Step, db': Db, lane: Lane)
    requires Effect(db, db', Target(step)) && CursorAbove(db, lane) && CursorMoves(db, step, db', lane)
    ensures CursorAbove(db', lane)
  {
    if lane in db'.cursors {
      CursorRises(db, step, db', lane);
      if !CursorAbove(db', lane) {
        forall id | Holds(db', lane, id) ensures db'.outbox[id].nonce.value < db'.cursors[lane] {
          HolderBelow(db, step, db', lane, id);
        }
      }
    }
  }

  lemma NoncesOkStep(db: Db, step: Step)
    requires WellFormed(db) && NoncesOk(db) && Permitted(db, step)
    ensures NoncesOk(Next(db, step))
  {
    var db' := Next(db, step);
    StepEffect(db, step);
    forall a, b | a in db'.outbox && b in db'.outbox && SharesNonce(db'.outbox[a], db'.outbox[b]) ensures a == b {
      StillUnshared(db, db', Target(step), a, b);
    }
    forall lane | lane in db'.cursors ensures CursorAbove(db', lane) {
      CursorEdge(db, step, lane);
      StillAbove(db, step, db', lane);
    }
  }

  // ----- allocation -----

  lemma SameOwners(db: Db, db': Db, target: Option<nat>, lane: Lane, n: nat)
    requires Effect(db, db', target)
    requires lane in db.cursors ==> n != db.cursors[lane] || SameCursor(db, db', lane)
    ensures Owned(db, lane, n) <==> Owned(db', lane, n)
  {
    if Owned(db, lane, n) {
      var id :| Holds(db, lane, id) && db.outbox[id].nonce.value == n;
      HolderStays(db, db', target, lane, id);
    }
    if Owned(db', lane, n) {
      var id :| Holds(db', lane, id) && db'.outbox[id].nonce.value == n;
      HolderOrClaim(db, db', target, lane, id);
    }
  }

  lemma AllocatedStep(run: Run, lane: Lane)
    requires run.Then? && Legal(run) && Allocated(run.before, lane) && CursorAbove(End(run.before), lane)
    requires Effect(End(run.before), End(run), Target(run.step))
    ensures Allocated(run, lane)
  {
    var db, db' := End(run.before), End(run);
    CursorEdge(db, run.step, lane);
    if lane in db'.cursors {
      forall n | Base(run, lane).value <= n < db'.cursors[lane]
        ensures Owned(db', lane, n) <==> n !in Skipped(run, lane)
      {
        if lane in db.cursors { NonceAccounted(run, lane, n); }
      }
    }
  }

  lemma NonceAccounted(run: Run, lane: Lane, n: nat)
    requires run.Then? && Legal(run) && Allocated(run.before, lane) && CursorAbove(End(run.before), lane)
    requires Effect(End(run.before), End(run), Target(run.step)) && CursorMoves(End(run.before), run.step, End(run), lane)
    requires lane in End(run.before).cursors && Base(run, lane).value <= n < End(run).cursors[lane]
    ensures Owned(End(run), lane, n) <==> n !in Skipped(run, lane)
  {
    var db, db' := End(run.before), End(run);
    var cursor := db.cursors[lane];
    if n != cursor || SameCursor(db, db', lane) { SameOwners(db, db', Target(run.step), lane, n); }
    if run.step.DoClaim? && Claimed(db, db', lane, run.step.id) && n == cursor {
      assert Holds(db', lane, run.step.id);
    }
  }

  /** For every lane and every run: no nonce is shared, the cursor never exceeds 2^63-1, and from the
      bootstrap value on each nonce below the cursor belongs to exactly one row or was consumed
      outside this system. */
  lemma {:induction false} NonceAllocation(run: Run, lane: Lane)
    requires Legal(run) && WellFormed(Initial(run)) && NoncesOk(Initial(run))
    ensures WellFormed(End(run)) && NoncesOk(End(run)) && Allocated(run, lane)
  {
    WellFormedRun(run);
    if run.Then? {
      NonceAllocation(run.before, lane);
      NoncesOkStep(End(run.before), run.step);
      StepEffect(End(run.before), run.step);
      assert CursorAbove(End(run.before), lane);
      AllocatedStep(run, lane);
    }
  }

  /** Nonces recorded before a lane had a cursor lie below its bootstrap value. */
  lemma {:induction false} EarlierNoncesBelowBase(earlier: Run, later: Run, lane: Lane, id: nat)
    requires Legal(earlier) && Legal(later) && Continues(earlier, later) && WellFormed(Initial(later))
    requires lane !in End(earlier).cursors && Holds(End(earlier), lane, id)
    ensures Holds(End(later), lane, id) && End(later).outbox[id].nonce == End(earlier).outbox[id].nonce
    ensures Base(later, lane).Some? ==> End(earlier).outbox[id].nonce.value < Base(later, lane).value
    ensures lane in End(later).cursors ==> Base(later, lane).Some?
    decreases later
  {
    if later != earlier {
      EarlierNoncesBelowBase(earlier, later.before, lane, id);
      WellFormedRun(later.before);
      StepEffect(End(later.before), later.step);
      HolderStays(End(later.before), End(later), Target(later.step), lane, id);
      CursorEdge(End(later.before), later.step, lane);
    } else {
      NoBaseYet(earlier, lane);
    }
  }

  lemma {:induction false} NoBaseYet(run: Run, lane: Lane)
    requires Legal(run) && lane !in End(run).cursors
    ensures Base(run, lane).None?
  {
    if run.Then? {
      CursorEdge(End(run.before), run.step, lane);
      NoBaseYet(run.before, lane);
    }
  }

  // ----- nonces the chain has already consumed -----

  /** The first bootstrap of a lane, and only the first, gives it a cursor: the chain's pending nonce or
      one past the largest recorded nonce, whichever is larger. */
  lemma BootstrapStartsAt(db: Db, lane: Lane, rpcPending: nat, local: nat)
    requires LocalNext(db, lane, local)
    ensures var out := BootstrapTxNonceCursor(db, lane, rpcPending, local);
      && (out.reply == Ok(true) <==>
            lane.chain != 0 && lane.signer != "" && rpcPending <= MAX_DB_NONCE && local <= MAX_DB_NONCE && lane !in db.cursors)
      && (out.reply != Ok(true) ==> out.db == db)
      && (out.reply == Ok(true) ==> exists base :: out.db == db.(cursors := db.cursors[lane := base]) && StartsAt(db, lane, rpcPending, base))
  {
    if BootstrapTxNonceCursor(db, lane, rpcPending, local).reply == Ok(true) {
      assert StartsAt(db, lane, rpcPending, if local < rpcPending then rpcPending else local);
    }
  }

  ghost predicate StartsAt(db: Db, lane: Lane, rpcPending: nat, base: nat) {
    && base >= rpcPending && (forall id :: Holds(db, lane, id) ==> db.outbox[id].nonce.value < base)
    && (base == rpcPending || OnePastRecorded(db, lane, base))
  }

  ghost predicate OnePastRecorded(db: Db, lane: Lane, base: nat) {
    exists id :: Holds(db, lane, id) && db.outbox[id].nonce.value + 1 == base
  }

  /** What the chain said its next nonce was when the run gave the lane its cursor. */
  ghost function ChainNonce(run: Run, lane: Lane): Option<nat>
    requires Legal(run)
  {
    match run
    case Start(_) => None
    case Then(before, step) =>
      if lane !in End(before).cursors && lane in End(run).cursors && step.DoBootstrap? then Some(step.rpcPending)
      else ChainNonce(before, lane)
  }

  lemma BootstrapGivesBase(db: Db, step: Step, lane: Lane)
    requires Permitted(db, step) && lane !in db.cursors && lane in Next(db, step).cursors
    ensures step.DoBootstrap? && StartsAt(db, lane, step.rpcPending, Next(db, step).cursors[lane])
  {
    CursorEdge(db, step, lane);
    BootstrapStartsAt(db, step.lane, step.rpcPending, step.local);
  }

  lemma CursorOnlyRises(db: Db, step: Step, lane: Lane)
    requires Permitted(db, step) && lane in db.cursors
    ensures lane in Next(db, step).cursors && Next(db, step).cursors[lane] >= db.cursors[lane]
  {
    CursorEdge(db, step, lane);
  }

  /** Once a lane has a cursor it never moves down. */
  lemma {:induction false} CursorNeverFalls(earlier: Run, later: Run, lane: Lane)
    requires Legal(earlier) && Legal(later) && Continues(earlier, later) && lane in End(earlier).cursors
    ensures lane in End(later).cursors && End(later).cursors[lane] >= End(earlier).cursors[lane]
    decreases later
  {
    if later != earlier {
      CursorNeverFalls(earlier, later.before, lane);
      CursorOnlyRises(End(later.before), later.step, lane);
    }
  }

  ghost predicate BaseMeetsChain(run: Run, lane: Lane)
    requires Legal(run)
  {
    && (lane in End(run).cursors <==> ChainNonce(run, lane).Some?)
    && (lane in End(run).cursors ==>
          && Base(run, lane).Some? && End(run).cursors[lane] >= Base(run, lane).value >= ChainNonce(run, lane).value
          && (Base(run, lane).value == ChainNonce(run, lane).value || OnePastRecorded(End(run), lane, Base(run, lane).value)))
  }

  lemma RecordedStays(db: Db, db': Db, target: Option<nat>, lane: Lane, base: nat)
    requires Effect(db, db', target)
    ensures OnePastRecorded(db, lane, base) ==> OnePastRecorded(db', lane, base)
  {
    if id :| Holds(db, lane, id) && db.outbox[id].nonce.value + 1 == base { HolderStays(db, db', target, lane, id); }
  }

  lemma BaseKept(run: Run, lane: Lane)
    requires run.Then? && Legal(run) && BaseMeetsChain(run.before, lane) && lane in End(run.before).cursors
    requires Effect(End(run.before), End(run), Target(run.step))
    ensures BaseMeetsChain(run, lane)
  {
    CursorOnlyRises(End(run.before), run.step, lane);
    RecordedStays(End(run.before), End(run), Target(run.step), lane, Base(run.before, lane).value);
  }

  lemma BaseSet(run: Run, lane: Lane)
    requires run.Then? && Legal(run) && BaseMeetsChain(run.before, lane) && lane !in End(run.before).cursors
    requires Effect(End(run.before), End(run), Target(run.step))
    ensures BaseMeetsChain(run, lane)
  {
    NoBaseYet(run.before, lane);
    if lane in End(run).cursors {
      BootstrapGivesBase(End(run.before), run.step, lane);
      RecordedStays(End(run.before), End(run), Target(run.step), lane, End(run).cursors[lane]);
    }
  }

  /** In every run that starts without a cursor for the lane: the lane starts at or above what the chain
      had consumed, and exactly there or one past a recorded nonce. */
  lemma {:induction false} BaseReachesChain(run: Run, lane: Lane)
    requires Legal(run) && WellFormed(Initial(run)) && lane !in Initial(run).cursors
    ensures BaseMeetsChain(run, lane)
  {
    if run.Then? {
      BaseReachesChain(run.before, lane);
      WellFormedRun(run.before);
      StepEffect(End(run.before), run.step);
      if lane in End(run.before).cursors { BaseKept(run, lane); } else { BaseSet(run, lane); }
    }
  }

  lemma FreshClaimTakesCursor(db: Db, id: nat, lane: Lane, now: int, ttl: nat)
    requires ClaimOutboxForSigning(db, id, lane, now, ttl).reply.Ok? && id in db.outbox && db.outbox[id].nonce.None?
    ensures lane in db.cursors && ClaimOutboxForSigning(db, id, lane, now, ttl).reply.value == db.cursors[lane]
  {
  }

  /** No first nonce of a lane is one the chain had consumed before the lane got its cursor. */
  lemma FreshNoncesAboveChain(run: Run, id: nat, lane: Lane, now: int, ttl: nat)
    requires Legal(run) && WellFormed(Initial(run)) && lane !in Initial(run).cursors
    requires ClaimOutboxForSigning(End(run), id, lane, now, ttl).reply.Ok? && id in End(run).outbox && End(run).outbox[id].nonce.None?
    ensures ChainNonce(run, lane).Some?
    ensures ClaimOutboxForSigning(End(run), id, lane, now, ttl).reply.value >= ChainNonce(run, lane).value
  {
    BaseReachesChain(run, lane);
    FreshClaimTakesCursor(End(run), id, lane, now, ttl);
  }

  /** Reconciliation brings an existing cursor up to the confirmed nonce and never moves it down. */
  lemma ForwardReaches(db: Db, lane: Lane, confirmed: nat)
    ensures var out := ForwardCursor(db, lane, confirmed);
      && (out.reply.Ok? <==> confirmed <= MAX_DB_NONCE && lane in db.cursors)
      && (out.reply == Ok(true) <==> confirmed <= MAX_DB_NONCE && lane in db.cursors && db.cursors[lane] < confirmed)
      && (if out.reply == Ok(true) then out.db == db.(cursors := db.cursors[lane := confirmed]) else out.db == db)
  {
  }

  /** After a reconciliation no first nonce below the confirmed one is ever handed out. */
  lemma NoNonceBelowConfirmed(earlier: Run, later: Run, lane: Lane, confirmed: nat, id: nat, now: int, ttl: nat)
    requires Legal(earlier) && ForwardCursor(End(earlier), lane, confirmed).reply.Ok?
    requires Legal(later) && Continues(Then(earlier, DoForwardCursor(lane, confirmed)), later)
    requires ClaimOutboxForSigning(End(later), id, lane, now, ttl).reply.Ok? && id in End(later).outbox && End(later).outbox[id].nonce.None?
    ensures ClaimOutboxForSigning(End(later), id, lane, now, ttl).reply.value >= confirmed
  {
    var forwarded := Then(earlier, DoForwardCursor(lane, confirmed));
    Extended(earlier, DoForwardCursor(lane, confirmed));
    ForwardReaches(End(earlier), lane, confirmed);
    CursorNeverFalls(forwarded, later, lane);
    FreshClaimTakesCursor(End(later), id, lane, now, ttl);
  }
}
