/** What the job, packet and flag tables remember: when each call goes ahead, what it changes, and, over
    whole runs, that every stored term is the one indexed last (go/internal/db/packets.go,
    go/internal/db/executor_jobs.go, go/internal/db/dvn_jobs.go, go/internal/db/pause.go). */
module Records {
  import opened Tables
  import opened SendScope
  import opened Outbox
  import opened Receipts
  import opened Jobs
  import opened Runs
  import opened OutboxEffects
  import Enqueues
  import JobEffects
  import ConfigSync

  // ----- indexing -----

  predicate PacketAccepted(db: Db, g: Guid, key: PathKey) {
    g != 0 && key.src != 0 && key.dst != 0 && key.src != key.dst && key.src in db.chains && key.dst in db.chains
  }

  /** A packet between two stored chains is stored as indexed, except that a known packet keeps its status. */
  lemma PacketIndexedIff(db: Db, g: Guid, packet: Packet)
    ensures var out := UpsertPacket(db, g, packet);
      && (out.reply.Ok? <==> PacketAccepted(db, g, packet.key))
      && (out.reply.Err? ==> out.db == db)
      && (out.reply.Ok? ==>
            && g in out.db.packets && out.db == db.(packets := db.packets[g := out.db.packets[g]])
            && var stored := out.db.packets[g];
               && stored.key == packet.key && stored.srcBlock == packet.srcBlock && stored.srcLog == packet.srcLog
               && stored.status == if g in db.packets then db.packets[g].status else packet.status)
  {
  }

  predicate JobAccepted(db: Db, g: Guid) {
    g != 0 && (g in db.jobs || g in db.packets)
  }

  /** An assignment of a known packet is stored; one that is known already only takes the fee. */
  lemma JobIndexedIff(db: Db, g: Guid, fee: Option<nat>, status: ExecutorStatus)
    ensures var out := UpsertExecutorJob(db, g, fee, status);
      && (out.reply.Ok? <==> JobAccepted(db, g))
      && (out.reply.Err? ==> out.db == db)
      && (out.reply.Ok? ==>
            && g in out.db.jobs && out.db == db.(jobs := db.jobs[g := out.db.jobs[g]]) && out.db.jobs[g].fee == fee
            && (g in db.jobs ==> out.db.jobs[g].(fee := db.jobs[g].fee) == db.jobs[g])
            && (g !in db.jobs ==> out.db.jobs[g].status == status && out.db.jobs[g].retryCount == 0))
  {
  }

  predicate DvnAccepted(db: Db, g: Guid, confirmations: nat) {
    g != 0 && confirmations != 0 && (g in db.dvn || g in db.packets)
  }

  lemma DvnIndexedIff(db: Db, g: Guid, fee: Option<nat>, confirmations: nat, status: DvnStatus)
    ensures var out := UpsertDvnJob(db, g, fee, confirmations, status);
      && (out.reply.Ok? <==> DvnAccepted(db, g, confirmations))
      && (out.reply.Err? ==> out.db == db)
      && (out.reply.Ok? ==>
            && g in out.db.dvn && out.db == db.(dvn := db.dvn[g := out.db.dvn[g]])
            && out.db.dvn[g].fee == fee && out.db.dvn[g].confirmations == confirmations
            && out.db.dvn[g].status == if g in db.dvn then db.dvn[g].status else status)
  {
  }

  // ----- transitions -----

  predicate MarkAccepted(db: Db, u: ExecutorUpdate) {
    && u.guid != 0 && u.guid in db.jobs && db.jobs[u.guid].status == u.expected
    && (u.countFailure ==> u.receiveHash.Some? && (u.guid, u.receiveHash.value) !in db.ledger)
  }

  /** A hash column takes what the caller reports and otherwise keeps what it has. */
  predicate HashKept(was: Option<Hash>, reported: Option<Hash>, now: Option<Hash>) {
    if reported.Some? then now == reported else now == was
  }

  /** An executor transition commits exactly from the status the caller saw, and counts a failure
      exactly when its hash is new. */
  lemma ExecutorMarkIff(db: Db, u: ExecutorUpdate)
    ensures var out := UpdateExecutorStatus(db, u);
      && (out.reply == Ok(true) <==> MarkAccepted(db, u))
      && (out.reply == Ok(false) <==> u.guid != 0 && u.countFailure && u.receiveHash.Some? && (u.guid, u.receiveHash.value) in db.ledger)
      && (out.reply != Ok(true) ==> out.db == db)
      && (out.reply == Ok(true) ==>
            && u.guid in out.db.jobs && out.db.jobs == db.jobs[u.guid := out.db.jobs[u.guid]]
            && var (job, after) := (db.jobs[u.guid], out.db.jobs[u.guid]);
               && after.status == u.next && after.fee == job.fee
               && after.retryCount == job.retryCount + (if u.countFailure then 1 else 0)
               && HashKept(job.commitHash, u.commitHash, after.commitHash) && HashKept(job.receiveHash, u.receiveHash, after.receiveHash)
               && out.db.ledger == db.ledger + (if u.countFailure then {(u.guid, u.receiveHash.value)} else {})
               && (u.guid in db.packets ==> out.db.packets == db.packets[u.guid := db.packets[u.guid].(status := u.next)]))
  {
  }

  /** Only the status of one job changes. */
  ghost predicate DvnMovedOnly(db: Db, db': Db, g: Guid, next: DvnStatus) {
    g in db.dvn && db'.dvn == db.dvn[g := DvnJob(next, db.dvn[g].fee, db.dvn[g].confirmations)]
  }

  lemma DvnMarkIff(db: Db, g: Guid, from: DvnStatus, to: DvnStatus)
    ensures var out := UpdateDvnStatus(db, g, from, to);
      && (out.reply == Ok(true) <==> g != 0 && g in db.dvn && db.dvn[g].status == from)
      && (if out.reply == Ok(true) then DvnMovedOnly(db, out.db, g, to) && out.db.packets == db.packets
          else out.reply.Err? && out.db == db)
  {
  }

  /** The reorg mark moves the packet's source exactly when it is still the one the caller read. */
  lemma ReorgIff(db: Db, g: Guid, from: DvnStatus, block: nat, log: nat, oldBlock: nat, oldLog: nat)
    ensures var out := MarkDvnReorgDetectedWithCoordinates(db, g, from, block, log, oldBlock, oldLog);
      && (out.reply == Ok(true) <==> g != 0 && g in db.dvn && db.dvn[g].status == from)
      && (if out.reply != Ok(true) then out.reply.Err? && out.db == db
          else
            && DvnMovedOnly(db, out.db, g, ReorgDetected)
            && (if SourceIs(db, g, oldBlock, oldLog)
                then out.db.packets == db.packets[g := Packet(db.packets[g].key, block, log, db.packets[g].status)]
                else out.db.packets == db.packets))
  {
  }

  predicate SourceIs(db: Db, g: Guid, block: nat, log: nat) {
    g in db.packets && db.packets[g].srcBlock == block && db.packets[g].srcLog == log
  }

  // ----- pauses -----

  ghost predicate PathwayPausedOnly(db: Db, db': Db, key: PathKey) {
    key in db.pathways && db'.pathways == db.pathways[key := Pathway(db.pathways[key].enabled, true, db.pathways[key].meta)]
  }

  /** Each pause finds its row or changes nothing, and pauses that row only. */
  lemma PauseIff(db: Db, eid: Eid, g: Guid)
    ensures var out := PauseChain(db, eid);
      && (out.reply.Ok? <==> eid != 0 && eid in db.chains)
      && (if out.reply.Ok? then out.db == db.(chains := db.chains[eid := Chain(db.chains[eid].enabled, true, db.chains[eid].meta)])
          else out.db == db)
    ensures var out := PausePathwayForPacket(db, g);
      && (out.reply.Ok? <==> g != 0 && g in db.packets && db.packets[g].key in db.pathways)
      && (if out.reply.Ok? then PathwayPausedOnly(db, out.db, db.packets[g].key) && out.db == db.(pathways := out.db.pathways)
          else out.db == db)
  {
  }

  /** Parking a DVN job and pausing its pathway happen together or not at all. */
  lemma ParkIff(db: Db, g: Guid, from: DvnStatus)
    ensures var out := MarkDvnManualReviewAndPausePathway(db, g, from);
      && (out.reply.Ok? <==>
            g != 0 && g in db.dvn && db.dvn[g].status == from && g in db.packets && db.packets[g].key in db.pathways)
      && (if out.reply.Ok? then
            && DvnMovedOnly(db, out.db, g, DvnManualReview) && PathwayPausedOnly(db, out.db, db.packets[g].key)
            && out.db == db.(dvn := out.db.dvn, pathways := out.db.pathways)
          else out.db == db)
  {
    DvnMarkIff(db, g, from, DvnManualReview);
    PauseIff(UpdateDvnStatus(db, g, from, DvnManualReview).db, 0, g);
  }

  // ----- the last indexing decides -----

  /** Jobs keep everything but their status. */
  ghost predicate JobsShift(db: Db, db': Db) {
    db'.jobs.Keys == db.jobs.Keys && forall g :: g in db.jobs ==> db'.jobs[g] == db.jobs[g].(status := db'.jobs[g].status)
  }

  lemma WorkflowShifts(db: Db, id: nat)
    requires id in db.outbox && !PrepareReceiptRetryWorkflow(db, id).WorkflowError?
    ensures JobsShift(db, PrepareReceiptRetryWorkflow(db, id).db)
  {
  }

  lemma CloneShifts(db: Db, id: nat, now: int, refusal: StoreError)
    requires id in db.outbox
    ensures JobsShift(db, GatedClone(db, id, now, refusal).db)
  {
    CloneEnds(db, id, now, refusal);
    if !PrepareReceiptRetryWorkflow(db, id).WorkflowError? { WorkflowShifts(db, id); }
  }

  lemma RetryShifts(db: Db, id: nat, now: int)
    ensures JobsShift(db, RetryFailedTx(db, id, now).db)
  {
    RetryPaths(db, id, now);
    if id in db.outbox { CloneShifts(db, id, now, ScopeInactive); }
  }

  lemma AutoRetryShifts(db: Db, pick: Option<nat>, now: int)
    requires pick.Some? ==> pick.value in db.outbox && db.outbox[pick.value].status == Failed
    ensures JobsShift(db, PrepareNextFailedTxRetry(db, pick, now).db)
  {
    if pick.Some? {
      AutoRetryPaths(db, pick.value, now);
      CloneShifts(db, pick.value, now, NoFailedTxRetry);
    }
  }

  lemma AbandonShifts(db: Db, id: nat)
    ensures JobsShift(db, ResolveExternalNonceAbandon(db, id).db)
  {
    JobEffects.AbandonCases(db, id);
  }

  lemma EnqueueShifts(db: Db, g: Guid, expected: ExecutorStatus, next: ExecutorStatus, req: TxRequest)
    ensures JobsShift(db, EnqueueExecutorTx(db, g, expected, next, req).db)
  {
    Enqueues.ExecutorEnqueueIff(db, g, expected, next, req);
  }

  /** Every step but an indexing one keeps the fee of every job. */
  ghost predicate SameFee(db: Db, db': Db, g: Guid) {
    (g in db'.jobs <==> g in db.jobs) && (g in db.jobs ==> db'.jobs[g].fee == db.jobs[g].fee)
  }

  lemma SendingKeepsFee(db: Db, step: Step, g: Guid)
    requires Permitted(db, step) && SendingStep(step)
    ensures SameFee(db, SendingNext(db, step), g)
  {
    if step.DoRetry? {
      RetryShifts(db, step.id, step.now);
    } else if step.DoAutoRetry? {
      AutoRetryShifts(db, step.pick, step.now);
    } else if step.DoExternalAbandon? {
      AbandonShifts(db, step.id);
    } else {
      SendingFrame(db, step);
    }
  }

  lemma WorkerKeepsFee(db: Db, step: Step, g: Guid)
    requires Permitted(db, step) && !SendingStep(step) && !(step.DoUpsertExecutorJob? && step.g == g)
    ensures SameFee(db, WorkerNext(db, step), g)
  {
    if step.DoEnqueueExecutor? {
      EnqueueShifts(db, step.g, step.expected, step.next, step.req);
    } else if step.DoExecutorMark? {
      ExecutorMarkIff(db, step.u);
    } else if step.DoUpsertExecutorJob? {
      JobIndexedIff(db, step.g, step.fee, Assigned);
    } else {
      WorkerFrame(db, step);
    }
  }

  /** The fee of the last accepted assignment of the packet. */
  ghost function LastFee(run: Run, g: Guid): Option<nat>
    requires Legal(run)
  {
    match run
    case Start(db) => if g in db.jobs then db.jobs[g].fee else None
    case Then(before, step) =>
      if step.DoUpsertExecutorJob? && step.g == g && JobAccepted(End(before), g) then step.fee else LastFee(before, g)
  }

  lemma FeeStep(db: Db, step: Step, g: Guid)
    requires Permitted(db, step)
    ensures var db' := Next(db, step);
      if step.DoUpsertExecutorJob? && step.g == g && JobAccepted(db, g) then g in db'.jobs && db'.jobs[g].fee == step.fee
      else SameFee(db, db', g)
  {
    if SendingStep(step) {
      SendingKeepsFee(db, step, g);
    } else if step.DoUpsertExecutorJob? && step.g == g {
      JobIndexedIff(db, g, step.fee, Assigned);
    } else {
      WorkerKeepsFee(db, step, g);
    }
  }

  /** In every run the fee of an executor job is the one of its last accepted assignment, whatever the
      job went through. */
  lemma {:induction false} FeeIsLastIndexed(run: Run, g: Guid)
    requires Legal(run) && g in End(run).jobs
    ensures End(run).jobs[g].fee == LastFee(run, g)
  {
    if run.Then? {
      FeeStep(End(run.before), run.step, g);
      if g in End(run.before).jobs { FeeIsLastIndexed(run.before, g); }
    }
  }

  // ----- DVN terms -----

  datatype Terms = Terms(fee: Option<nat>, confirmations: nat)

  ghost function LastTerms(run: Run, g: Guid): Terms
    requires Legal(run)
  {
    match run
    case Start(db) => if g in db.dvn then Terms(db.dvn[g].fee, db.dvn[g].confirmations) else Terms(None, 0)
    case Then(before, step) =>
      if IndexesTerms(End(before), step, g) then Terms(step.fee, step.confirmations) else LastTerms(before, g)
  }

  ghost predicate SameTerms(db: Db, db': Db, g: Guid) {
    && (g in db'.dvn <==> g in db.dvn)
    && (g in db.dvn ==> db'.dvn[g].fee == db.dvn[g].fee && db'.dvn[g].confirmations == db.dvn[g].confirmations)
  }

  lemma AbandonKeepsTerms(db: Db, id: nat, g: Guid)
    ensures SameTerms(db, ResolveExternalNonceAbandon(db, id).db, g)
  {
  }

  lemma DvnEnqueueKeepsTerms(db: Db, h: Guid, req: TxRequest, g: Guid)
    ensures SameTerms(db, EnqueueDvnVerifyTx(db, h, ReadyToVerify, VerifyTxEnqueued, req).db, g)
  {
  }

  lemma DvnStepKeepsTerms(db: Db, step: Step, g: Guid)
    requires Permitted(db, step) && DvnStep(step)
    ensures SameTerms(db, WorkerNext(db, step), g)
  {
    if step.DoConfirmationMark? {
      DvnMarkIff(db, step.g, step.from, QuorumChecking);
    } else if step.DoDvnMark? {
      DvnMarkIff(db, step.g, step.from, step.to);
    } else if step.DoEnqueueDvn? {
      DvnEnqueueKeepsTerms(db, step.g, step.req, g);
    } else if step.DoDvnReorg? {
      ReorgIff(db, step.g, QuorumChecking, step.block, step.log, step.oldBlock, step.oldLog);
    } else {
      ParkIff(db, step.g, step.from);
    }
  }

  ghost predicate IndexesTerms(db: Db, step: Step, g: Guid) {
    step.DoUpsertDvnJob? && step.g == g && DvnAccepted(db, g, step.confirmations)
  }

  lemma TermsIndexed(db: Db, step: Step, g: Guid)
    requires Permitted(db, step) && step.DoUpsertDvnJob?
    ensures var db' := WorkerNext(db, step);
      if IndexesTerms(db, step, g) then g in db'.dvn && db'.dvn[g].fee == step.fee && db'.dvn[g].confirmations == step.confirmations
      else SameTerms(db, db', g)
  {
    DvnIndexedIff(db, step.g, step.fee, step.confirmations, DvnAssigned);
  }

  lemma SendingKeepsTerms(db: Db, step: Step, g: Guid)
    requires Permitted(db, step) && SendingStep(step)
    ensures SameTerms(db, SendingNext(db, step), g)
  {
    if step.DoExternalAbandon? { AbandonKeepsTerms(db, step.id, g); } else { SendingFrame(db, step); }
  }

  lemma WorkerKeepsTerms(db: Db, step: Step, g: Guid)
    requires Permitted(db, step) && !SendingStep(step) && !step.DoUpsertDvnJob?
    ensures SameTerms(db, WorkerNext(db, step), g)
  {
    if DvnStep(step) { DvnStepKeepsTerms(db, step, g); } else { WorkerFrame(db, step); }
  }

  lemma TermsKept(db: Db, step: Step, g: Guid)
    requires Permitted(db, step) && !step.DoUpsertDvnJob?
    ensures SameTerms(db, Next(db, step), g)
  {
    if SendingStep(step) { SendingKeepsTerms(db, step, g); } else { WorkerKeepsTerms(db, step, g); }
  }

  /** In every run a DVN job carries fee and confirmations of its last accepted assignment. */
  lemma {:induction false} TermsAreLastIndexed(run: Run, g: Guid)
    requires Legal(run) && g in End(run).dvn
    ensures Terms(End(run).dvn[g].fee, End(run).dvn[g].confirmations) == LastTerms(run, g)
  {
    if run.Then? {
      if run.step.DoUpsertDvnJob? { TermsIndexed(End(run.before), run.step, g); } else { TermsKept(End(run.before), run.step, g); }
      if g in End(run.before).dvn { TermsAreLastIndexed(run.before, g); }
    }
  }

  // ----- where a packet was emitted -----

  datatype Source = Source(key: PathKey, block: nat, log: nat)

  function SourceOf(packet: Packet): Source {
    Source(packet.key, packet.srcBlock, packet.srcLog)
  }

  /** The reorg mark that moved the packet's source. */
  ghost predicate MovesSource(db: Db, step: Step, g: Guid) {
    && step.DoDvnReorg? && step.g == g && g != 0 && g in db.dvn && db.dvn[g].status == QuorumChecking
    && SourceIs(db, g, step.oldBlock, step.oldLog)
  }

  ghost predicate IndexesSource(db: Db, step: Step, g: Guid) {
    step.DoUpsertPacket? && step.g == g && PacketAccepted(db, g, step.packet.key)
  }

  /** The source that indexing or an accepted reorg reported last. */
  ghost function LastSource(run: Run, g: Guid): Option<Source>
    requires Legal(run)
  {
    match run
    case Start(db) => if g in db.packets then Some(SourceOf(db.packets[g])) else None
    case Then(before, step) =>
      if IndexesSource(End(before), step, g) then Some(SourceOf(step.packet))
      else if MovesSource(End(before), step, g) && LastSource(before, g).Some?
      then Some(Source(LastSource(before, g).value.key, step.block, step.log))
      else LastSource(before, g)
  }

  ghost predicate SameSource(db: Db, db': Db, g: Guid) {
    (g in db'.packets <==> g in db.packets) && (g in db.packets ==> SourceOf(db'.packets[g]) == SourceOf(db.packets[g]))
  }

  lemma SourceIndexed(db: Db, step: Step, g: Guid)
    requires Permitted(db, step) && step.DoUpsertPacket?
    ensures var db' := WorkerNext(db, step);
      if IndexesSource(db, step, g) then g in db'.packets && SourceOf(db'.packets[g]) == SourceOf(step.packet)
      else SameSource(db, db', g)
  {
    PacketIndexedIff(db, step.g, step.packet);
  }

  lemma SourceReorged(db: Db, step: Step, g: Guid)
    requires Permitted(db, step) && step.DoDvnReorg?
    ensures var db' := WorkerNext(db, step);
      if MovesSource(db, step, g)
      then g in db'.packets && SourceOf(db'.packets[g]) == Source(db.packets[g].key, step.block, step.log)
      else SameSource(db, db', g)
  {
    ReorgIff(db, step.g, QuorumChecking, step.block, step.log, step.oldBlock, step.oldLog);
  }

  lemma SourceKept(db: Db, step: Step, g: Guid)
    requires Permitted(db, step) && !step.DoUpsertPacket? && !step.DoDvnReorg?
    ensures SameSource(db, Next(db, step), g)
  {
    StepFrame(db, step);
  }

  /** In every run a packet's pathway, block and log are the ones reported last, and executor work never
      touches them. */
  lemma {:induction false} SourceIsLastReported(run: Run, g: Guid)
    requires Legal(run)
    ensures g in End(run).packets <==> LastSource(run, g).Some?
    ensures g in End(run).packets ==> SourceOf(End(run).packets[g]) == LastSource(run, g).value
  {
    if run.Then? {
      SourceIsLastReported(run.before, g);
      if run.step.DoUpsertPacket? {
        SourceIndexed(End(run.before), run.step, g);
      } else if run.step.DoDvnReorg? {
        SourceReorged(End(run.before), run.step, g);
      } else {
        SourceKept(End(run.before), run.step, g);
      }
    }
  }

  // ----- foreign keys -----

  predicate Joined(db: Db, key: PathKey) {
    key.src in db.chains && key.dst in db.chains
  }

  /** Packets and pathways only ever name stored chains. */
  ghost predicate KeysHold(db: Db) {
    PacketChainsExist(db) && forall k :: k in db.pathways ==> Joined(db, k)
  }

  lemma SyncKeepsKeys(db: Db, registry: ConfigSync.Registry)
    requires KeysHold(db)
    ensures KeysHold(ConfigSync.SyncConfig(db, registry).db)
  {
    ConfigSync.SyncSucceedsIff(db, registry);
    if ConfigSync.SyncConfig(db, registry).reply.Ok? { ConfigSync.SyncMeaning(db, registry); }
  }

  lemma PausesAddNothing(db: Db, step: Step)
    requires Permitted(db, step) && (step.DoPauseChain? || step.DoPausePathway? || step.DoDvnParkAndPause?)
    ensures WorkerNext(db, step).chains.Keys == db.chains.Keys && WorkerNext(db, step).pathways.Keys == db.pathways.Keys
  {
    if step.DoPauseChain? {
      PauseIff(db, step.eid, 0);
    } else if step.DoPausePathway? {
      PauseIff(db, 0, step.g);
    } else {
      ParkIff(db, step.g, step.from);
    }
  }

  lemma WorkerFlagRowsStay(db: Db, step: Step)
    requires Permitted(db, step) && !SendingStep(step) && !step.DoSyncConfig?
    ensures WorkerNext(db, step).chains.Keys == db.chains.Keys && WorkerNext(db, step).pathways.Keys == db.pathways.Keys
  {
    if TouchesFlags(step) { PausesAddNothing(db, step); } else { WorkerFrame(db, step); }
  }

  /** A step other than a sync adds no chain and no pathway. */
  lemma FlagRowsStay(db: Db, step: Step)
    requires Permitted(db, step) && !step.DoSyncConfig?
    ensures Next(db, step).chains.Keys == db.chains.Keys && Next(db, step).pathways.Keys == db.pathways.Keys
  {
    if SendingStep(step) { SendingFrame(db, step); } else { WorkerFlagRowsStay(db, step); }
  }

  /** A packet that a step brings in or moves joins stored chains. */
  lemma PacketsJoined(db: Db, step: Step, g: Guid)
    requires Permitted(db, step) && PacketChainsExist(db) && g in Next(db, step).packets
    ensures Joined(db, Next(db, step).packets[g].key)
  {
    if step.DoUpsertPacket? {
      SourceIndexed(db, step, g);
    } else if step.DoDvnReorg? {
      SourceReorged(db, step, g);
    } else {
      SourceKept(db, step, g);
    }
  }

  lemma StepKeepsKeys(db: Db, step: Step)
    requires Permitted(db, step) && KeysHold(db) && !step.DoSyncConfig?
    ensures KeysHold(Next(db, step))
  {
    FlagRowsStay(db, step);
    forall g | g in Next(db, step).packets ensures Joined(Next(db, step), Next(db, step).packets[g].key) {
      PacketsJoined(db, step, g);
    }
  }

  /** In every run packets and pathways name stored chains, so the selector's filter and the locking gate
      agree in every reachable state. */
  lemma {:induction false} KeysHoldRun(run: Run)
    requires Legal(run) && KeysHold(Initial(run))
    ensures KeysHold(End(run))
  {
    if run.Then? {
      KeysHoldRun(run.before);
      if run.step.DoSyncConfig? { SyncKeepsKeys(End(run.before), run.step.registry); } else { StepKeepsKeys(End(run.before), run.step); }
    }
  }
}
