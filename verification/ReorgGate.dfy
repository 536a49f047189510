/** The confirmation gate against source reorgs, over whole runs (go/internal/db/dvn_jobs.go,
    go/internal/dvn/dvn.go). */
module ReorgGate {
  import opened Tables
  import opened SendScope
  import opened Outbox
  import opened Receipts
  import opened Jobs
  import opened Runs

  /** Statuses a job may only have after the confirmation gate let it through. */
  predicate PastGate(status: DvnStatus) {
    status in {QuorumChecking, ReadyToVerify, VerifyTxEnqueued}
  }

  ghost predicate IsPastGate(db: Db, g: Guid) {
    g in db.dvn && PastGate(db.dvn[g].status)
  }

  /** A passage through the gate: the block whose depth was checked, the depth the job demands when
      the mark commits, and the head that was seen. */
  datatype Passage = Passage(block: nat, required: nat, head: nat)

  /** The mark into quorum checking commits. The depth was checked on an earlier read, and the mark
      compares only the status. */
  ghost predicate PassesGate(db: Db, step: Step, g: Guid) {
    && step.DoConfirmationMark? && step.g == g && g in db.dvn
    && UpdateDvnStatus(db, g, step.from, QuorumChecking).reply == Ok(true)
  }

  /** The job's latest passage through the gate. */
  ghost function LastPassage(run: Run, g: Guid): Option<Passage>
    requires Legal(run)
  {
    match run
    case Start(_) => None
    case Then(before, step) =>
      if PassesGate(End(before), step, g) then Some(Passage(step.seen, End(before).dvn[g].confirmations, step.head))
      else LastPassage(before, g)
  }

  /** A job past the gate passed it for the very block its packet now names, at sufficient depth. */
  ghost predicate GateHolds(run: Run, g: Guid)
    requires Legal(run)
  {
    IsPastGate(End(run), g) ==>
      && g in End(run).packets && LastPassage(run, g).Some?
      && var p := LastPassage(run, g).value;
         p.block == End(run).packets[g].srcBlock && HasRequiredConfirmations(p.block, p.required, p.head)
  }

  ghost predicate GateAlwaysHolds(run: Run, g: Guid)
    requires Legal(run)
  {
    GateHolds(run, g) && (run.Then? ==> GateAlwaysHolds(run.before, g))
  }

  /** The mark commits although the block or the demanded depth is no longer what was checked. */
  ghost predicate MarksStale(db: Db, step: Step, g: Guid) {
    && PassesGate(db, step, g)
    && !(&& g in db.packets && step.seen == db.packets[g].srcBlock
         && HasRequiredConfirmations(step.seen, db.dvn[g].confirmations, step.head))
  }

  /** Re-indexing gives a packet another source block while its job is already past the gate. */
  ghost predicate MovesGatedBlock(db: Db, step: Step, g: Guid) {
    && step.DoUpsertPacket? && step.g == g && IsPastGate(db, g)
    && g in db.packets && UpsertPacket(db, g, step.packet).reply.Ok? && step.packet.srcBlock != db.packets[g].srcBlock
  }

  /** No step of the run marks on a stale check or moves the block of a job past the gate. */
  ghost predicate GateRespected(run: Run, g: Guid)
    requires Legal(run)
  {
    run.Then? ==>
      && GateRespected(run.before, g)
      && !MarksStale(End(run.before), run.step, g) && !MovesGatedBlock(End(run.before), run.step, g)
  }

  // ----- what a step does to a DVN job and its source block -----

  /** Only the gate lets a job in, and only re-indexing moves the block under a job past the gate. */
  ghost predicate GateMove(db: Db, step: Step, db': Db, g: Guid) {
    && (IsPastGate(db', g) ==> IsPastGate(db, g) || PassesGate(db, step, g))
    && (g in db.packets ==> g in db'.packets)
    && (IsPastGate(db', g) && g in db.packets && db'.packets[g].srcBlock != db.packets[g].srcBlock ==> MovesGatedBlock(db, step, g))
    && (PassesGate(db, step, g) ==> IsPastGate(db', g))
    && (MovesGatedBlock(db, step, g) ==> IsPastGate(db', g) && db'.packets[g].srcBlock != db.packets[g].srcBlock)
  }

  lemma AbandonMove(db: Db, id: nat, g: Guid)
    ensures var db' := ResolveExternalNonceAbandon(db, id).db; IsPastGate(db', g) ==> IsPastGate(db, g)
  {
  }

  lemma PacketMove(db: Db, h: Guid, packet: Packet, g: Guid)
    ensures GateMove(db, DoUpsertPacket(h, packet), UpsertPacket(db, h, packet).db, g)
  {
  }

  lemma ReorgMove(db: Db, h: Guid, block: nat, log: nat, oldBlock: nat, oldLog: nat, g: Guid)
    ensures var db' := MarkDvnReorgDetectedWithCoordinates(db, h, QuorumChecking, block, log, oldBlock, oldLog).db;
      && (IsPastGate(db', g) ==> IsPastGate(db, g))
      && (IsPastGate(db', g) && g in db.packets ==> g in db'.packets && db'.packets[g] == db.packets[g])
  {
  }

  lemma ConfirmMove(db: Db, step: Step, g: Guid)
    requires step.DoConfirmationMark?
    ensures var db' := UpdateDvnStatus(db, step.g, step.from, QuorumChecking).db;
      IsPastGate(db', g) ==> IsPastGate(db, g) || PassesGate(db, step, g)
  {
  }

  lemma ConfirmPasses(db: Db, g: Guid, from: DvnStatus)
    requires UpdateDvnStatus(db, g, from, QuorumChecking).reply == Ok(true)
    ensures IsPastGate(UpdateDvnStatus(db, g, from, QuorumChecking).db, g)
  {
  }

  lemma DvnMarkMove(db: Db, h: Guid, from: DvnStatus, to: DvnStatus, g: Guid)
    requires DvnMark(from, to)
    ensures var db' := UpdateDvnStatus(db, h, from, to).db; IsPastGate(db', g) ==> IsPastGate(db, g)
  {
  }

  lemma EnqueueMove(db: Db, h: Guid, req: TxRequest, g: Guid)
    ensures var db' := EnqueueDvnVerifyTx(db, h, ReadyToVerify, VerifyTxEnqueued, req).db; IsPastGate(db', g) ==> IsPastGate(db, g)
  {
  }

  lemma UpsertMove(db: Db, h: Guid, fee: Option<nat>, confirmations: nat, g: Guid)
    ensures var db' := UpsertDvnJob(db, h, fee, confirmations, DvnAssigned).db; IsPastGate(db', g) ==> IsPastGate(db, g)
  {
  }

  lemma ParkMove(db: Db, h: Guid, from: DvnStatus, g: Guid)
    ensures var db' := MarkDvnManualReviewAndPausePathway(db, h, from).db; IsPastGate(db', g) ==> IsPastGate(db, g)
  {
  }

  lemma WorkerGate(db: Db, step: Step, g: Guid)
    requires Permitted(db, step) && !SendingStep(step) && !step.DoUpsertPacket?
    ensures var db' := WorkerNext(db, step);
      && (IsPastGate(db', g) ==> IsPastGate(db, g) || PassesGate(db, step, g))
      && (PassesGate(db, step, g) ==> IsPastGate(db', g))
  {
    match step
    case DoConfirmationMark(_, from, _, _, _) =>
      ConfirmMove(db, step, g);
      if PassesGate(db, step, g) { ConfirmPasses(db, g, from); }
    case DoDvnReorg(h, block, log, oldBlock, oldLog) => ReorgMove(db, h, block, log, oldBlock, oldLog, g);
    case DoDvnMark(h, from, to) => DvnMarkMove(db, h, from, to, g);
    case DoEnqueueDvn(h, req) => EnqueueMove(db, h, req, g);
    case DoUpsertDvnJob(h, fee, confirmations) => UpsertMove(db, h, fee, confirmations, g);
    case DoDvnParkAndPause(h, from) => ParkMove(db, h, from, g);
    case _ => WorkerFrame(db, step);
  }

  lemma SendingGate(db: Db, step: Step, g: Guid)
    requires Permitted(db, step) && SendingStep(step)
    ensures IsPastGate(SendingNext(db, step), g) ==> IsPastGate(db, g)
  {
    if step.DoExternalAbandon? { AbandonMove(db, step.id, g); } else { SendingFrame(db, step); }
  }

  lemma SendingGateMove(db: Db, step: Step, db': Db, g: Guid)
    requires SendingStep(step) && SameSources(db.packets, db'.packets) && (IsPastGate(db', g) ==> IsPastGate(db, g))
    ensures GateMove(db, step, db', g)
  {
  }

  lemma WorkerGateMove(db: Db, step: Step, db': Db, g: Guid)
    requires Frame(db, step, db') && !step.DoUpsertPacket?
    requires IsPastGate(db', g) ==> IsPastGate(db, g) || PassesGate(db, step, g)
    requires PassesGate(db, step, g) ==> IsPastGate(db', g)
    requires step.DoDvnReorg? && IsPastGate(db', g) && g in db.packets ==> g in db'.packets && db'.packets[g] == db.packets[g]
    ensures GateMove(db, step, db', g)
  {
  }

  lemma GateEdge(db: Db, step: Step, g: Guid)
    requires Permitted(db, step)
    ensures GateMove(db, step, Next(db, step), g)
  {
    StepFrame(db, step);
    if SendingStep(step) {
      SendingGate(db, step, g);
      SendingGateMove(db, step, Next(db, step), g);
    } else if step.DoUpsertPacket? {
      PacketMove(db, step.g, step.packet, g);
    } else {
      WorkerGate(db, step, g);
      if step.DoDvnReorg? { ReorgMove(db, step.g, step.block, step.log, step.oldBlock, step.oldLog, g); }
      WorkerGateMove(db, step, Next(db, step), g);
    }
  }

  lemma GateStep(run: Run, g: Guid)
    requires run.Then? && Legal(run) && GateHolds(run.before, g)
    ensures GateHolds(run, g) <==> !MarksStale(End(run.before), run.step, g) && !MovesGatedBlock(End(run.before), run.step, g)
  {
    GateEdge(End(run.before), run.step, g);
  }

  /** In every interleaving, a job in QUORUM_CHECKING, READY_TO_VERIFY or VERIFY_TX_ENQUEUED passed
      the gate for the block now stored on its packet, exactly as long as every mark commits on what
      was checked and no re-indexing moves the block of a job past the gate. */
  lemma {:induction false} GateHoldsIff(run: Run, g: Guid)
    requires Legal(run) && !IsPastGate(Initial(run), g)
    ensures GateAlwaysHolds(run, g) <==> GateRespected(run, g)
  {
    if run.Then? {
      GateHoldsIff(run.before, g);
      if GateAlwaysHolds(run.before, g) { GateStep(run, g); }
    }
  }

  /** The depth check would pass on the very rows that the mark commits on. */
  ghost predicate ChecksAsItMarks(db: Db, step: Step) {
    && step.DoConfirmationMark? && ConfirmationGate(db, step.g, step.from, step.head).reply == Ok(true)
    && step.g in db.packets && step.seen == db.packets[step.g].srcBlock
  }

  /** Every mark of the job checks and commits as one, and packets past the gate are not moved. */
  ghost predicate GateIsAtomic(run: Run, g: Guid)
    requires Legal(run)
  {
    run.Then? ==>
      && GateIsAtomic(run.before, g)
      && (PassesGate(End(run.before), run.step, g) ==> ChecksAsItMarks(End(run.before), run.step))
      && !MovesGatedBlock(End(run.before), run.step, g)
  }

  lemma AtomicMarkNotStale(db: Db, step: Step, g: Guid)
    requires ChecksAsItMarks(db, step)
    ensures !MarksStale(db, step, g)
  {
  }

  lemma {:induction false} AtomicRespectsGate(run: Run, g: Guid)
    requires Legal(run) && GateIsAtomic(run, g)
    ensures GateRespected(run, g)
  {
    if run.Then? {
      AtomicRespectsGate(run.before, g);
      if PassesGate(End(run.before), run.step, g) { AtomicMarkNotStale(End(run.before), run.step, g); }
    }
  }

  /** With check and mark in one transaction only re-indexing could break the gate. */
  lemma AtomicGateAlwaysHolds(run: Run, g: Guid)
    requires Legal(run) && !IsPastGate(Initial(run), g) && GateIsAtomic(run, g)
    ensures GateAlwaysHolds(run, g)
  {
    AtomicRespectsGate(run, g);
    GateHoldsIff(run, g);
  }

  // ----- depth -----

  /** A block is deep enough exactly when at least the required number of blocks, itself included, runs
      from it to the head; depth is never lost as the head grows, and a later block is never deeper. */
  lemma DepthCounts(block: nat, required: nat, head: nat)
    ensures HasRequiredConfirmations(block, required, head) <==> required >= 1 && head + 1 >= block + required
    ensures HasRequiredConfirmations(block, required, head) ==> HasRequiredConfirmations(block, required, head + 1)
    ensures HasRequiredConfirmations(block + 1, required, head) ==> HasRequiredConfirmations(block, required, head)
  {
  }

  /** The check as the machine computes it, on 64-bit numbers. */
  predicate HasRequiredConfirmations64(block: nat, required: nat, head: nat) {
    required != 0 && head >= block && (head - block + 1) % 0x1_0000_0000_0000_0000 >= required
  }

  /** The machine's answer differs from the exact one only for a genesis block under the largest head. */
  lemma DepthIsExactIff(block: nat, required: nat, head: nat)
    requires block < 0x1_0000_0000_0000_0000 && required < 0x1_0000_0000_0000_0000 && head < 0x1_0000_0000_0000_0000
    ensures (HasRequiredConfirmations64(block, required, head) <==> HasRequiredConfirmations(block, required, head))
       <==> !(block == 0 && head == 0xffff_ffff_ffff_ffff && required != 0)
  {
    if head >= block && !(block == 0 && head == 0xffff_ffff_ffff_ffff) {
      assert head - block + 1 < 0x1_0000_0000_0000_0000;
    }
  }

  // ----- why the reorg write and the gate are single commits -----

  /** A job checked at `oldBlock` whose transaction was re-included at `block`, which is too shallow. */
  ghost predicate Reincluded(db: Db, g: Guid, block: nat, oldBlock: nat, oldLog: nat, head: nat) {
    && g != 0 && g in db.dvn && g in db.packets
    && db.packets[g].srcBlock == oldBlock && db.packets[g].srcLog == oldLog
    && HasRequiredConfirmations(oldBlock, db.dvn[g].confirmations, head)
    && !HasRequiredConfirmations(block, db.dvn[g].confirmations, head)
  }

  /** The job is past the gate although its packet's block is too shallow. */
  ghost predicate SkippedGate(db: Db, g: Guid, block: nat, head: nat) {
    && IsPastGate(db, g) && g in db.packets && db.packets[g].srcBlock == block
    && !HasRequiredConfirmations(block, db.dvn[g].confirmations, head)
  }

  /** The status first and the coordinates in a later commit: another worker completes the round
      trip in between, and the job skips the gate of the new block. */
  lemma SplitReorgWriteSkipsGate(db: Db, g: Guid, block: nat, log: nat, oldBlock: nat, oldLog: nat, head: nat)
    requires Reincluded(db, g, block, oldBlock, oldLog, head) && db.dvn[g].status == QuorumChecking
    ensures var marked := UpdateDvnStatus(db, g, QuorumChecking, ReorgDetected).db;
      var waiting := UpdateDvnStatus(marked, g, ReorgDetected, WaitingConfirmations).db;
      var gated := ConfirmationGate(waiting, g, WaitingConfirmations, head).db;
      SkippedGate(gated.(packets := RefreshCoordinates(gated.packets, g, block, log, oldBlock, oldLog)), g, block, head)
  {
  }

  /** With both in one commit, the same schedule leaves the job waiting at the gate. */
  lemma OneReorgCommitGatesAgain(db: Db, g: Guid, block: nat, log: nat, oldBlock: nat, oldLog: nat, head: nat)
    requires Reincluded(db, g, block, oldBlock, oldLog, head) && db.dvn[g].status == QuorumChecking
    ensures var marked := MarkDvnReorgDetectedWithCoordinates(db, g, QuorumChecking, block, log, oldBlock, oldLog).db;
      var waiting := UpdateDvnStatus(marked, g, ReorgDetected, WaitingConfirmations).db;
      && ConfirmationGate(waiting, g, WaitingConfirmations, head) == Outcome(waiting, Ok(false))
      && !IsPastGate(waiting, g) && g in waiting.packets && waiting.packets[g].srcBlock == block
  {
  }

  /** A depth check made on an earlier read is not covered either: the mark compares only the status. */
  lemma SplitGateReadSkipsGate(db: Db, g: Guid, block: nat, log: nat, oldBlock: nat, oldLog: nat, head: nat)
    requires Reincluded(db, g, block, oldBlock, oldLog, head) && db.dvn[g].status == WaitingConfirmations
    ensures var other := ConfirmationGate(db, g, WaitingConfirmations, head).db;
      var marked := MarkDvnReorgDetectedWithCoordinates(other, g, QuorumChecking, block, log, oldBlock, oldLog).db;
      var waiting := UpdateDvnStatus(marked, g, ReorgDetected, WaitingConfirmations).db;
      SkippedGate(UpdateDvnStatus(waiting, g, WaitingConfirmations, QuorumChecking).db, g, block, head)
  {
  }

  /** Re-indexing does move a block past the gate: a legal run after which the property fails. */
  lemma ReindexingCanSkipGate(db: Db, g: Guid, packet: Packet, head: nat) returns (run: Run)
    requires g in db.packets
    requires Reincluded(db, g, packet.srcBlock, db.packets[g].srcBlock, db.packets[g].srcLog, head)
    requires db.dvn[g].status == WaitingConfirmations && packet.key == db.packets[g].key
    requires UpsertPacket(db, g, packet).reply.Ok?
    ensures Legal(run) && Initial(run) == db && SkippedGate(End(run), g, packet.srcBlock, head) && !GateHolds(run, g)
  {
    var confirm := DoConfirmationMark(g, WaitingConfirmations, db.packets[g].srcBlock, db.dvn[g].confirmations, head);
    var reindex := DoUpsertPacket(g, packet);
    var gated := Then(Start(db), confirm);
    run := Then(gated, reindex);
    Extended(Start(db), confirm);
    assert End(gated) == WorkerNext(db, confirm);
    Extended(gated, reindex);
    assert End(run) == WorkerNext(End(gated), reindex);
    assert LastPassage(run, g) == LastPassage(gated, g);
  }
}
