/** Executor jobs, DVN jobs, packets and pauses (go/internal/db/executor_jobs.go,
    go/internal/db/dvn_jobs.go, go/internal/db/packets.go, go/internal/db/pause.go). */
module Jobs {
  import opened Tables
  import opened SendScope
  import opened Outbox

  // ----- indexing -----

  /** Re-indexing a packet refreshes its coordinates and never touches its status. */
  function UpsertPacket(db: Db, g: Guid, packet: Packet): (out: Outcome<bool>)
    ensures out.db == db.(packets := out.db.packets)
  {
    if g == 0 || packet.key.src == 0 || packet.key.dst == 0 || packet.key.src == packet.key.dst then
      Unchanged(db, InvalidArgument)
    else if packet.key.src !in db.chains || packet.key.dst !in db.chains then Unchanged(db, ChainNotFound)
    else if g in db.packets then
      Outcome(db.(packets := db.packets[g := packet.(status := db.packets[g].status)]), Ok(true))
    else Outcome(db.(packets := db.packets[g := packet]), Ok(true))
  }

  function UpsertExecutorJob(db: Db, g: Guid, fee: Option<nat>, status: ExecutorStatus): (out: Outcome<bool>)
    ensures out.db == db.(jobs := out.db.jobs)
  {
    if g == 0 then Unchanged(db, InvalidArgument)
    else if g in db.jobs then Outcome(db.(jobs := db.jobs[g := db.jobs[g].(fee := fee)]), Ok(true))
    else if g !in db.packets then Unchanged(db, PacketNotFound)
    else Outcome(db.(jobs := db.jobs[g := ExecutorJob(status, fee, 0, None, None)]), Ok(true))
  }

  function UpsertDvnJob(db: Db, g: Guid, fee: Option<nat>, confirmations: nat, status: DvnStatus): (out: Outcome<bool>)
    ensures out.db == db.(dvn := out.db.dvn)
  {
    if g == 0 || confirmations == 0 then Unchanged(db, InvalidArgument)
    else if g in db.dvn then
      Outcome(db.(dvn := db.dvn[g := db.dvn[g].(fee := fee, confirmations := confirmations)]), Ok(true))
    else if g !in db.packets then Unchanged(db, PacketNotFound)
    else Outcome(db.(dvn := db.dvn[g := DvnJob(status, fee, confirmations)]), Ok(true))
  }

  // ----- executor transitions -----

  function SetPacketStatus(packets: map<Guid, Packet>, g: Guid, status: ExecutorStatus): (moved: map<Guid, Packet>)
    ensures SameSources(packets, moved)
  {
    if g in packets then packets[g := packets[g].(status := status)] else packets
  }

  /** Insert a transaction and advance the job and its packet together. */
  function EnqueueExecutorTx(db: Db, g: Guid, expected: ExecutorStatus, next: ExecutorStatus, request: TxRequest): (out: Outcome<nat>)
    ensures out.db == db.(outbox := out.db.outbox, nextId := out.db.nextId, jobs := out.db.jobs, packets := out.db.packets)
    ensures SameSources(db.packets, out.db.packets)
  {
    var req := if request.guid.None? then request.(guid := Some(g)) else request;
    if g == 0 || req.guid != Some(g) || !RequestComplete(req) then Unchanged(db, InvalidArgument)
    else if g !in db.jobs then Unchanged(db, JobNotFound)
    else if db.jobs[g].status != expected then Unchanged(db, WrongStatus)
    else
      var scope := ScopeOf(db, req);
      if !scope.Active? then Unchanged(db, GateError(scope))
      else
        var queued := InsertRow(db, FreshRow(req));
        Outcome(queued.(jobs := db.jobs[g := db.jobs[g].(status := next)],
                        packets := SetPacketStatus(db.packets, g, next)), Ok(db.nextId))
  }

  datatype ExecutorUpdate = ExecutorUpdate(
    guid: Guid, expected: ExecutorStatus, next: ExecutorStatus,
    commitHash: Option<Hash>, receiveHash: Option<Hash>, countFailure: bool)

  function Coalesce<T>(a: Option<T>, b: Option<T>): Option<T> {
    if a.Some? then a else b
  }

  function UpdatedJob(job: ExecutorJob, u: ExecutorUpdate): ExecutorJob {
    job.(status := u.next,
         commitHash := Coalesce(u.commitHash, job.commitHash),
         receiveHash := Coalesce(u.receiveHash, job.receiveHash),
         retryCount := if u.countFailure then job.retryCount + 1 else job.retryCount)
  }

  /** A compare-and-set executor transition. A failure is counted by inserting its hash into the
      ledger first: a hash already there ends the call with nothing changed. */
  function UpdateExecutorStatus(db: Db, u: ExecutorUpdate): (out: Outcome<bool>)
    ensures out.db == db.(ledger := out.db.ledger, jobs := out.db.jobs, packets := out.db.packets)
    ensures SameSources(db.packets, out.db.packets)
  {
    if u.guid == 0 || (u.countFailure && u.receiveHash.None?) then Unchanged(db, InvalidArgument)
    else if u.countFailure && (u.guid, u.receiveHash.value) in db.ledger then Outcome(db, Ok(false))
    else if u.guid !in db.jobs || db.jobs[u.guid].status != u.expected then Unchanged(db, WrongStatus)
    else
      Outcome(db.(
              ledger := if u.countFailure then db.ledger + {(u.guid, u.receiveHash.value)} else db.ledger,
              jobs := db.jobs[u.guid := UpdatedJob(db.jobs[u.guid], u)],
              packets := SetPacketStatus(db.packets, u.guid, u.next)), Ok(true))
  }

  // ----- DVN transitions -----

  function UpdateDvnStatus(db: Db, g: Guid, expected: DvnStatus, next: DvnStatus): (out: Outcome<bool>)
    ensures out.db == db.(dvn := out.db.dvn)
  {
    if g == 0 then Unchanged(db, InvalidArgument)
    else if g !in db.dvn || db.dvn[g].status != expected then Unchanged(db, WrongStatus)
    else Outcome(db.(dvn := db.dvn[g := db.dvn[g].(status := next)]), Ok(true))
  }

  function EnqueueDvnVerifyTx(db: Db, g: Guid, expected: DvnStatus, next: DvnStatus, request: TxRequest): (out: Outcome<nat>)
    ensures out.db == db.(outbox := out.db.outbox, nextId := out.db.nextId, dvn := out.db.dvn)
  {
    var req := if request.guid.None? then request.(guid := Some(g)) else request;
    if g == 0 || req.guid != Some(g) || !RequestComplete(req) then Unchanged(db, InvalidArgument)
    else if g !in db.dvn then Unchanged(db, JobNotFound)
    else if db.dvn[g].status != expected then Unchanged(db, WrongStatus)
    else
      var scope := ScopeOf(db, req);
      if !scope.Active? then Unchanged(db, GateError(scope))
      else Outcome(InsertRow(db, FreshRow(req)).(dvn := db.dvn[g := db.dvn[g].(status := next)]), Ok(db.nextId))
  }

  predicate SamePaths(packets: map<Guid, Packet>, moved: map<Guid, Packet>) {
    moved.Keys == packets.Keys && forall g :: g in packets ==> moved[g].key == packets[g].key
  }

  /** UPDATE packets ... WHERE the stored coordinates are still the ones that were read. */
  function RefreshCoordinates(packets: map<Guid, Packet>, g: Guid, block: nat, log: nat, oldBlock: nat, oldLog: nat): (moved: map<Guid, Packet>)
    ensures SamePaths(packets, moved)
  {
    if g in packets && packets[g].srcBlock == oldBlock && packets[g].srcLog == oldLog
    then packets[g := packets[g].(srcBlock := block, srcLog := log)] else packets
  }

  /** The reorg transition and the re-included coordinates land in one commit. */
  function MarkDvnReorgDetectedWithCoordinates(
    db: Db, g: Guid, expected: DvnStatus, block: nat, log: nat, oldBlock: nat, oldLog: nat): (out: Outcome<bool>)
    ensures out.db == db.(dvn := out.db.dvn, packets := out.db.packets)
    ensures SamePaths(db.packets, out.db.packets)
  {
    var marked := UpdateDvnStatus(db, g, expected, ReorgDetected);
    if marked.reply.Err? then marked
    else Outcome(marked.db.(packets := RefreshCoordinates(db.packets, g, block, log, oldBlock, oldLog)), Ok(true))
  }

  /** Enough blocks have been built on the source block. */
  predicate HasRequiredConfirmations(block: nat, required: nat, head: nat) {
    required != 0 && head >= block && head - block + 1 >= required
  }

  /** The confirmation gate: the depth check on the stored block together with the
      compare-and-set into quorum checking. */
  function ConfirmationGate(db: Db, g: Guid, expected: DvnStatus, head: nat): (out: Outcome<bool>)
    ensures out.db == db.(dvn := out.db.dvn)
  {
    if g !in db.dvn || g !in db.packets then Unchanged(db, JobNotFound)
    else if !HasRequiredConfirmations(db.packets[g].srcBlock, db.dvn[g].confirmations, head) then Outcome(db, Ok(false))
    else UpdateDvnStatus(db, g, expected, QuorumChecking)
  }

  // ----- pauses -----

  function PauseChain(db: Db, eid: Eid): (out: Outcome<bool>)
    ensures out.db == db.(chains := out.db.chains)
  {
    if eid == 0 then Unchanged(db, InvalidArgument)
    else if eid !in db.chains then Unchanged(db, ChainNotFound)
    else Outcome(db.(chains := db.chains[eid := db.chains[eid].(paused := true)]), Ok(true))
  }

  function PausePathwayForPacket(db: Db, g: Guid): (out: Outcome<bool>)
    ensures out.db == db.(pathways := out.db.pathways)
  {
    if g == 0 then Unchanged(db, InvalidArgument)
    else if g !in db.packets || db.packets[g].key !in db.pathways then Unchanged(db, PathwayNotFound)
    else
      var key := db.packets[g].key;
      Outcome(db.(pathways := db.pathways[key := db.pathways[key].(paused := true)]), Ok(true))
  }

  function MarkDvnManualReviewAndPausePathway(db: Db, g: Guid, expected: DvnStatus): (out: Outcome<bool>)
    ensures out.db == db.(dvn := out.db.dvn, pathways := out.db.pathways)
  {
    var parked := UpdateDvnStatus(db, g, expected, DvnManualReview);
    if parked.reply.Err? then parked
    else
      var paused := PausePathwayForPacket(parked.db, g);
      // Without a pathway to pause the parked job is rolled back.
      if paused.reply.Err? then Unchanged(db, paused.reply.error) else paused
  }
}
