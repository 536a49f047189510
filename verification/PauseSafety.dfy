/** Pauses over whole runs (go/internal/db/pause.go, go/internal/db/send_scope.go). */
module PauseSafety {
  import opened Tables
  import opened SendScope
  import opened Outbox
  import opened Receipts
  import opened Jobs
  import opened Runs
  import opened OutboxEffects
  import ConfigSync

  ghost predicate Closed(db: Db, gate: Gate) {
    match gate
    case ChainGate(eid) => eid in db.chains && db.chains[eid].paused
    case PathwayGate(key) => key in db.pathways && db.pathways[key].paused
  }

  /** Behind the gate, or waiting for the packet that will decide whether it is. */
  ghost predicate NotClear(db: Db, req: TxRequest, gate: Gate) {
    Behind(db, req, gate) || (PacketPurpose(req.purpose) && req.guid.Some? && req.guid.value !in db.packets)
  }

  lemma NotClearIsInactive(db: Db, req: TxRequest, gate: Gate)
    requires Shut(db, gate) && NotClear(db, req, gate)
    ensures !ScopeOf(db, req).Active?
  {
    if Behind(db, req, gate) { ShutIsInactive(db, req, gate); }
  }

  // ----- flags and packet identities only ever move one way -----

  /** Pause flags stay set, and rows that carry one stay present. */
  ghost predicate FlagsLatched(db: Db, db': Db) {
    && (forall e :: e in db.chains ==> e in db'.chains && (db.chains[e].paused ==> db'.chains[e].paused))
    && (forall k :: k in db.pathways ==> k in db'.pathways && (db.pathways[k].paused ==> db'.pathways[k].paused))
  }

  /** A packet keeps the pathway its GUID commits to. */
  ghost predicate PathsLatched(db: Db, db': Db) {
    forall g :: g in db.packets ==> g in db'.packets && db'.packets[g].key == db.packets[g].key
  }

  ghost predicate Latched(db: Db, db': Db) {
    FlagsLatched(db, db') && PathsLatched(db, db')
  }

  lemma SyncLatched(db: Db, registry: ConfigSync.Registry)
    ensures FlagsLatched(db, ConfigSync.SyncConfig(db, registry).db)
  {
  }

  lemma ChainPauseLatched(db: Db, eid: Eid)
    ensures FlagsLatched(db, PauseChain(db, eid).db)
  {
  }

  lemma PathwayPauseLatched(db: Db, g: Guid)
    ensures FlagsLatched(db, PausePathwayForPacket(db, g).db)
  {
  }

  lemma ParkLatched(db: Db, g: Guid, from: DvnStatus)
    ensures FlagsLatched(db, MarkDvnManualReviewAndPausePathway(db, g, from).db)
  {
    PathwayPauseLatched(UpdateDvnStatus(db, g, from, DvnManualReview).db, g);
  }

  lemma PauseFlags(db: Db, step: Step)
    requires Permitted(db, step) && (step.DoPauseChain? || step.DoPausePathway? || step.DoDvnParkAndPause?)
    ensures FlagsLatched(db, WorkerNext(db, step))
  {
    if step.DoPauseChain? {
      ChainPauseLatched(db, step.eid);
    } else if step.DoPausePathway? {
      PathwayPauseLatched(db, step.g);
    } else {
      ParkLatched(db, step.g, step.from);
    }
  }

  lemma SyncFlags(db: Db, step: Step)
    requires Permitted(db, step) && step.DoSyncConfig?
    ensures FlagsLatched(db, WorkerNext(db, step))
  {
    SyncLatched(db, step.registry);
  }

  lemma SameFlags(db: Db, db': Db)
    requires db'.chains == db.chains && db'.pathways == db.pathways
    ensures FlagsLatched(db, db')
  {
  }

  lemma WorkerFlags(db: Db, step: Step)
    requires Permitted(db, step) && !SendingStep(step)
    ensures FlagsLatched(db, WorkerNext(db, step))
  {
    if step.DoSyncConfig? {
      SyncFlags(db, step);
    } else if TouchesFlags(step) {
      PauseFlags(db, step);
    } else {
      WorkerFrame(db, step);
      SameFlags(db, WorkerNext(db, step));
    }
  }

  lemma WorkerPaths(db: Db, step: Step)
    requires Permitted(db, step) && !SendingStep(step)
    ensures PathsLatched(db, WorkerNext(db, step))
  {
    if !step.DoUpsertPacket? { WorkerFrame(db, step); }
  }

  lemma StepLatched(db: Db, step: Step)
    requires Permitted(db, step)
    ensures Latched(db, Next(db, step))
  {
    if SendingStep(step) {
      SendingFrame(db, step);
      SameFlags(db, SendingNext(db, step));
    } else {
      WorkerFlags(db, step);
      WorkerPaths(db, step);
    }
  }

  /** A request behind a gate was there before the step, or its packet was not known yet. */
  lemma ClearStays(db: Db, db': Db, req: TxRequest, gate: Gate)
    requires Latched(db, db') && NotClear(db', req, gate)
    ensures NotClear(db, req, gate)
  {
  }

  /** A packet's pathway and a row's lane never change once they are stored. */
  lemma {:induction false} NamesStay(earlier: Run, later: Run, g: Guid, id: nat)
    requires Legal(earlier) && Legal(later) && Continues(earlier, later) && WellFormed(Initial(later))
    ensures g in End(earlier).packets ==> g in End(later).packets && End(later).packets[g].key == End(earlier).packets[g].key
    ensures id in End(earlier).outbox ==> id in End(later).outbox && LaneOf(End(later).outbox[id]) == LaneOf(End(earlier).outbox[id])
    decreases later
  {
    if later != earlier {
      NamesStay(earlier, later.before, g, id);
      WellFormedRun(later.before);
      StepEffect(End(later.before), later.step);
      StepLatched(End(later.before), later.step);
      if id in End(later.before).outbox {
        assert RowEdge(End(later.before), End(later), End(later.before).outbox[id], End(later).outbox[id]);
      }
    }
  }

  // ----- safety -----

  /** Nothing about the row spends: no attempt charged, no nonce taken, not (re)queued. */
  predicate Frozen(row: Row, after: Row) {
    && after.attempts == row.attempts && after.nonce == row.nonce && after.req == row.req
    && (after.status == Queued ==> row.status == Queued)
  }

  lemma FrozenStep(db: Db, db': Db, target: Option<nat>, gate: Gate, id: nat)
    requires Effect(db, db', target) && Latched(db, db') && Shut(db, gate)
    requires id in db'.outbox && NotClear(db', db'.outbox[id].req, gate)
    ensures id in db.outbox && NotClear(db, db.outbox[id].req, gate) && Frozen(db.outbox[id], db'.outbox[id])
  {
    var req := db'.outbox[id].req;
    ClearStays(db, db', req, gate);
    NotClearIsInactive(db, req, gate);
    if id in db.outbox { assert RowEdge(db, db', db.outbox[id], db'.outbox[id]); }
  }

  // ----- what can open a gate again -----

  /** The config enables the gate. */
  predicate Enables(registry: ConfigSync.Registry, gate: Gate) {
    match gate
    case ChainGate(eid) => eid in registry.chains
    case PathwayGate(key) => key in registry.pathways && registry.pathways[key].enabled
  }

  /** A config sync that enables a gate which is not paused. */
  ghost predicate Reopens(db: Db, step: Step, gate: Gate) {
    step.DoSyncConfig? && Enables(step.registry, gate) && !Closed(db, gate)
  }

  lemma SyncKeepsShut(db: Db, registry: ConfigSync.Registry, gate: Gate)
    requires Shut(db, gate) && (!Enables(registry, gate) || Closed(db, gate))
    ensures Shut(ConfigSync.SyncConfig(db, registry).db, gate)
  {
    if ConfigSync.ForeignKeysMet(db, registry) { ConfigSync.SyncMeaning(db, registry); }
  }

  lemma PauseKeepsShut(db: Db, step: Step, gate: Gate)
    requires Permitted(db, step) && Shut(db, gate)
    requires step.DoPauseChain? || step.DoPausePathway? || step.DoDvnParkAndPause?
    ensures Shut(WorkerNext(db, step), gate)
  {
  }

  lemma SameFlagsShut(db: Db, db': Db, gate: Gate)
    requires db'.chains == db.chains && db'.pathways == db.pathways && Shut(db, gate)
    ensures Shut(db', gate)
  {
  }

  lemma WorkerKeepsShut(db: Db, step: Step, gate: Gate)
    requires Permitted(db, step) && !SendingStep(step) && Shut(db, gate) && !Reopens(db, step, gate)
    ensures Shut(WorkerNext(db, step), gate)
  {
    if step.DoSyncConfig? {
      SyncKeepsShut(db, step.registry, gate);
    } else if TouchesFlags(step) {
      PauseKeepsShut(db, step, gate);
    } else {
      WorkerFrame(db, step);
      SameFlagsShut(db, WorkerNext(db, step), gate);
    }
  }

  /** Nothing but such a sync opens a shut gate. */
  lemma ShutStays(db: Db, step: Step, gate: Gate)
    requires Permitted(db, step) && Shut(db, gate) && !Reopens(db, step, gate)
    ensures Shut(Next(db, step), gate)
  {
    if SendingStep(step) {
      SendingFrame(db, step);
      SameFlagsShut(db, SendingNext(db, step), gate);
    } else {
      WorkerKeepsShut(db, step, gate);
    }
  }

  ghost predicate NeverReopened(earlier: Run, later: Run, gate: Gate)
    requires Legal(later)
  {
    later != earlier && later.Then? ==>
      NeverReopened(earlier, later.before, gate) && !Reopens(End(later.before), later.step, gate)
  }

  /** While a chain or a pathway is missing, disabled or paused and no sync enables it again, a row
      behind it is one that already existed, with the attempts and the nonce it had, and queued only
      if it was queued already. */
  lemma {:induction false} NothingSpendsWhileShut(shut: Run, later: Run, gate: Gate)
    requires Legal(shut) && Legal(later) && Continues(shut, later) && WellFormed(Initial(later))
    requires Shut(End(shut), gate) && NeverReopened(shut, later, gate)
    ensures Shut(End(later), gate)
    ensures forall id :: id in End(later).outbox && NotClear(End(later), End(later).outbox[id].req, gate) ==>
      id in End(shut).outbox && Frozen(End(shut).outbox[id], End(later).outbox[id])
    decreases later
  {
    if later != shut {
      NothingSpendsWhileShut(shut, later.before, gate);
      WellFormedRun(later.before);
      var (db, db') := (End(later.before), End(later));
      StepEffect(db, later.step);
      StepLatched(db, later.step);
      ShutStays(db, later.step, gate);
      forall id | id in db'.outbox && NotClear(db', db'.outbox[id].req, gate)
        ensures id in End(shut).outbox && Frozen(End(shut).outbox[id], db'.outbox[id])
      {
        FrozenStep(db, db', Target(later.step), gate, id);
      }
    }
  }

  lemma {:induction false} PausedStaysClosed(paused: Run, later: Run, gate: Gate)
    requires Legal(paused) && Legal(later) && Continues(paused, later) && Closed(End(paused), gate)
    ensures Closed(End(later), gate) && NeverReopened(paused, later, gate)
    decreases later
  {
    if later != paused {
      PausedStaysClosed(paused, later.before, gate);
      StepLatched(End(later.before), later.step);
    }
  }

  /** Once a chain or a pathway is paused it stays paused, and in every continuation, restarts with a
      config sync and any number of refused retries included, nothing behind it spends. */
  lemma NothingSpendsWhilePaused(paused: Run, later: Run, gate: Gate)
    requires Legal(paused) && Legal(later) && Continues(paused, later) && WellFormed(Initial(later))
    requires Closed(End(paused), gate)
    ensures Closed(End(later), gate)
    ensures forall id :: id in End(later).outbox && NotClear(End(later), End(later).outbox[id].req, gate) ==>
      id in End(paused).outbox && Frozen(End(paused).outbox[id], End(later).outbox[id])
  {
    PausedStaysClosed(paused, later, gate);
    NothingSpendsWhileShut(paused, later, gate);
  }

  // ----- what a shut gate refuses -----

  function Filled(req: TxRequest, g: Guid): TxRequest {
    if req.guid.None? then req.(guid := Some(g)) else req
  }

  lemma EnqueuesRefused(db: Db, gate: Gate, req: TxRequest, g: Guid, expected: ExecutorStatus, next: ExecutorStatus)
    requires Shut(db, gate) && Behind(db, Filled(req, g), gate)
    ensures EnqueueTx(db, Filled(req, g)).reply.Err?
    ensures EnqueueExecutorTx(db, g, expected, next, req).reply.Err?
    ensures EnqueueDvnVerifyTx(db, g, ReadyToVerify, VerifyTxEnqueued, req).reply.Err?
  {
    ShutIsInactive(db, Filled(req, g), gate);
  }

  /** A retry behind a shut gate is refused and charges no attempt, however often it is repeated. */
  lemma RefusedRetryChargesNothing(db: Db, gate: Gate, id: nat, now: int)
    requires WellFormed(db) && Shut(db, gate) && id in db.outbox && Behind(db, db.outbox[id].req, gate)
    ensures RetryFailedTx(db, id, now).reply.Err?
    ensures var db' := RetryFailedTx(db, id, now).db; id in db'.outbox && Frozen(db.outbox[id], db'.outbox[id])
  {
    var db' := RetryFailedTx(db, id, now).db;
    ShutIsInactive(db, db.outbox[id].req, gate);
    InactiveRefused(db, id, now);
    RetryEffect(db, id, now);
    assert RowEdge(db, db', db.outbox[id], db'.outbox[id]);
  }

  lemma InactiveRefused(db: Db, id: nat, now: int)
    requires id in db.outbox && RowOk(db.outbox[id]) && !ScopeOf(db, db.outbox[id].req).Active?
    ensures RetryFailedTx(db, id, now).reply.Err?
  {
  }

  /** A sync shuts every gate its config leaves out or disables. */
  lemma SyncShutsOmitted(db: Db, registry: ConfigSync.Registry, gate: Gate)
    requires ConfigSync.SyncConfig(db, registry).reply.Ok? && !Enables(registry, gate)
    ensures Shut(ConfigSync.SyncConfig(db, registry).db, gate)
  {
    ConfigSync.SyncMeaning(db, registry);
  }

  lemma OmittedStaysShut(run: Run, registry: ConfigSync.Registry, later: Run, gate: Gate)
    requires Legal(run) && ConfigSync.SyncConfig(End(run), registry).reply.Ok? && !Enables(registry, gate)
    requires Legal(later) && Continues(Then(run, DoSyncConfig(registry)), later) && WellFormed(Initial(later))
    requires NeverReopened(Then(run, DoSyncConfig(registry)), later, gate)
    ensures Shut(End(later), gate)
  {
    Extended(run, DoSyncConfig(registry));
    SyncShutsOmitted(End(run), registry, gate);
    NothingSpendsWhileShut(Then(run, DoSyncConfig(registry)), later, gate);
  }

  /** After a sync that leaves a chain or pathway out, every enqueue behind it is refused in every
      continuation in which no sync enables it again. */
  lemma OmittedIsRefused(
    run: Run, registry: ConfigSync.Registry, later: Run, gate: Gate,
    req: TxRequest, g: Guid, expected: ExecutorStatus, next: ExecutorStatus)
    requires Legal(run) && ConfigSync.SyncConfig(End(run), registry).reply.Ok? && !Enables(registry, gate)
    requires Legal(later) && Continues(Then(run, DoSyncConfig(registry)), later) && WellFormed(Initial(later))
    requires NeverReopened(Then(run, DoSyncConfig(registry)), later, gate) && Behind(End(later), Filled(req, g), gate)
    ensures EnqueueTx(End(later), Filled(req, g)).reply.Err?
    ensures EnqueueExecutorTx(End(later), g, expected, next, req).reply.Err?
    ensures EnqueueDvnVerifyTx(End(later), g, ReadyToVerify, VerifyTxEnqueued, req).reply.Err?
  {
    OmittedStaysShut(run, registry, later, gate);
    EnqueuesRefused(End(later), gate, req, g, expected, next);
  }

  lemma PauseChainCloses(db: Db, eid: Eid)
    ensures PauseChain(db, eid).reply.Ok? ==> Closed(PauseChain(db, eid).db, ChainGate(eid))
  {
  }

  lemma PausePathwayCloses(db: Db, g: Guid)
    ensures PausePathwayForPacket(db, g).reply.Ok? ==>
      g in db.packets && Closed(PausePathwayForPacket(db, g).db, PathwayGate(db.packets[g].key))
  {
  }

  lemma ParkCloses(db: Db, g: Guid, from: DvnStatus)
    ensures MarkDvnManualReviewAndPausePathway(db, g, from).reply.Ok? ==>
      g in db.packets && Closed(MarkDvnManualReviewAndPausePathway(db, g, from).db, PathwayGate(db.packets[g].key))
  {
  }

  /** Each of the three pausing calls closes its gate. */
  lemma PausesCloseGates(db: Db, eid: Eid, g: Guid, from: DvnStatus)
    ensures PauseChain(db, eid).reply.Ok? ==> Closed(PauseChain(db, eid).db, ChainGate(eid))
    ensures PausePathwayForPacket(db, g).reply.Ok? ==>
      g in db.packets && Closed(PausePathwayForPacket(db, g).db, PathwayGate(db.packets[g].key))
    ensures MarkDvnManualReviewAndPausePathway(db, g, from).reply.Ok? ==>
      g in db.packets && Closed(MarkDvnManualReviewAndPausePathway(db, g, from).db, PathwayGate(db.packets[g].key))
  {
    PauseChainCloses(db, eid);
    PausePathwayCloses(db, g);
    ParkCloses(db, g, from);
  }
}
