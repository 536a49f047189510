/** The locks each store transaction takes, in order, and the shape of these lists that deadlock
    freedom rests on (go/internal/db/db.go, go/internal/db/send_scope.go). */
module Locks {
  import opened Tables

  datatype Mode = Share | Exclusive

  datatype Resource =
    | ConfigSyncKey
    | SignerKey(lane: Lane)
    | AttemptRow(attempt: nat)
    | OutboxRow(id: nat)
    | FeedKey(chain: Eid, feed: Address)
    | LedgerKey(guid: Guid, hash: Hash)
    | ExecutorRow(guid: Guid)
    | DvnRow(guid: Guid)
    | ChainRow(eid: Eid)
    | PathwayRow(key: PathKey)
    | CursorRow(lane: Lane)
    | PacketRow(guid: Guid)

  datatype Lock = Lock(on: Resource, mode: Mode)

  // ----- the order -----

  function Class(r: Resource): nat {
    match r
    case ConfigSyncKey => 0
    case SignerKey(_) => 1
    case AttemptRow(_) => 2
    case OutboxRow(_) => 3
    case FeedKey(_, _) => 4
    case LedgerKey(_, _) => 5
    case ExecutorRow(_) => 6
    case DvnRow(_) => 7
    case ChainRow(_) => 8
    case PathwayRow(_) => 9
    case CursorRow(_) => 10
    case PacketRow(_) => 11
  }

  predicate KeyBelow(a: PathKey, b: PathKey) {
    || a.src < b.src
    || (a.src == b.src && a.dst < b.dst)
    || (a.src == b.src && a.dst == b.dst && a.srcOApp < b.srcOApp)
    || (a.src == b.src && a.dst == b.dst && a.srcOApp == b.srcOApp && a.dstOApp < b.dstOApp)
  }

  /** Classes first; chains by ascending eid and pathways by ascending key inside their class. */
  predicate Below(a: Resource, b: Resource) {
    || Class(a) < Class(b)
    || (a.ChainRow? && b.ChainRow? && a.eid < b.eid)
    || (a.PathwayRow? && b.PathwayRow? && KeyBelow(a.key, b.key))
  }

  predicate Ascending(locks: seq<Lock>) {
    forall i, j :: 0 <= i < j < |locks| ==> Below(locks[i].on, locks[j].on)
  }

  // ----- what each transaction locks -----

  /** The pause carriers a scope gate share-locks. */
  datatype Scope = NoScope | OneChain(eid: Eid) | OnePathway(key: PathKey)

  function ScopeLocks(scope: Scope): seq<Lock> {
    match scope
    case NoScope => []
    case OneChain(eid) => [Lock(ChainRow(eid), Share)]
    case OnePathway(key) =>
      var chains :=
        if key.src < key.dst then [Lock(ChainRow(key.src), Share), Lock(ChainRow(key.dst), Share)]
        else if key.dst < key.src then [Lock(ChainRow(key.dst), Share), Lock(ChainRow(key.src), Share)]
        else [Lock(ChainRow(key.src), Share)];
      chains + [Lock(PathwayRow(key), Share)]
  }

  datatype Txn =
    | EnqueueTxn(scope: Scope)
    | EstimateRevertTxn(id: nat)
    | RetryTxn(id: nat, feed: Option<(Eid, Address)>, job: Option<Guid>, scope: Scope)
    | BootstrapTxn(lane: Lane)
    | ClaimTxn(lane: Lane, id: nat, scope: Scope, needsNonce: bool)
    | ReceiptTxn(attempt: nat, id: nat)
    | ExecutorEnqueueTxn(g: Guid, scope: Scope)
    | ExecutorMarkTxn(g: Guid, failure: Option<Hash>)
    | DvnEnqueueTxn(g: Guid, scope: Scope)
    | DvnMarkTxn(g: Guid)
    | DvnReorgTxn(g: Guid)
    | DvnParkTxn(g: Guid, key: PathKey)
    | PauseChainTxn(eid: Eid)
    | PausePathwayTxn(key: PathKey)
    | UpsertTxn(row: Resource)
    | SyncConfigTxn(eids: seq<Eid>, keys: seq<PathKey>)
    | AbandonTxn(id: nat, job: Option<Guid>, dvn: Option<Guid>)
    | ExternalRetryTxn(id: nat, scope: Scope, owner: Resource)
    | ReconcileTxn(lane: Lane, ids: seq<nat>)
    | PricingEnqueueTxn(chain: Eid, to: Address)

  /** Rows the source reads with ORDER BY ... FOR UPDATE come back in ascending order, a
      reconciliation decides each held row once, and single-row upserts lock one row. */
  predicate WellSorted(txn: Txn) {
    match txn
    case ReconcileTxn(_, ids) => forall i, j :: 0 <= i < j < |ids| ==> ids[i] != ids[j]
    case SyncConfigTxn(eids, keys) =>
      && (forall i, j :: 0 <= i < j < |eids| ==> eids[i] < eids[j])
      && (forall i, j :: 0 <= i < j < |keys| ==> KeyBelow(keys[i], keys[j]))
    case UpsertTxn(row) => row.PacketRow? || row.ExecutorRow? || row.DvnRow?
    case AbandonTxn(_, job, dvn) => job.None? || dvn.None?
    case ExternalRetryTxn(_, _, owner) => owner.ExecutorRow? || owner.DvnRow?
    case _ => true
  }

  /** The locks of a transaction that runs to its end; an early return or an error releases a prefix. */
  function Program(txn: Txn): seq<Lock> {
    match txn
    case EnqueueTxn(scope) => ScopeLocks(scope)
    case EstimateRevertTxn(id) => [Lock(OutboxRow(id), Exclusive)]
    case RetryTxn(id, feed, job, scope) =>
      [Lock(OutboxRow(id), Exclusive)]
      + (if feed.Some? then [Lock(FeedKey(feed.value.0, feed.value.1), Exclusive)] else [])
      + (if job.Some? then [Lock(ExecutorRow(job.value), Exclusive)] else [])
      + ScopeLocks(scope)
      + (if job.Some? then [Lock(PacketRow(job.value), Exclusive)] else [])
    case BootstrapTxn(lane) => [Lock(SignerKey(lane), Exclusive), Lock(CursorRow(lane), Exclusive)]
    case ClaimTxn(lane, id, scope, needsNonce) =>
      [Lock(SignerKey(lane), Exclusive), Lock(OutboxRow(id), Exclusive)]
      + (if needsNonce then ScopeLocks(scope) + [Lock(CursorRow(lane), Exclusive)] else [])
    case ReceiptTxn(attempt, id) => [Lock(AttemptRow(attempt), Exclusive), Lock(OutboxRow(id), Exclusive)]
    case ExecutorEnqueueTxn(g, scope) =>
      [Lock(ExecutorRow(g), Exclusive)] + ScopeLocks(scope) + [Lock(PacketRow(g), Exclusive)]
    case ExecutorMarkTxn(g, failure) =>
      (if failure.Some? then [Lock(LedgerKey(g, failure.value), Exclusive)] else [])
      + [Lock(ExecutorRow(g), Exclusive), Lock(PacketRow(g), Exclusive)]
    case DvnEnqueueTxn(g, scope) => [Lock(DvnRow(g), Exclusive)] + ScopeLocks(scope)
    case DvnMarkTxn(g) => [Lock(DvnRow(g), Exclusive)]
    case DvnReorgTxn(g) => [Lock(DvnRow(g), Exclusive), Lock(PacketRow(g), Exclusive)]
    case DvnParkTxn(g, key) => [Lock(DvnRow(g), Exclusive), Lock(PathwayRow(key), Exclusive)]
    case PauseChainTxn(eid) => [Lock(ChainRow(eid), Exclusive)]
    case PausePathwayTxn(key) => [Lock(PathwayRow(key), Exclusive)]
    case UpsertTxn(row) => [Lock(row, Exclusive)]
    case SyncConfigTxn(eids, keys) =>
      [Lock(ConfigSyncKey, Exclusive)]
      + seq(|eids|, i requires 0 <= i < |eids| => Lock(ChainRow(eids[i]), Exclusive))
      + seq(|keys|, i requires 0 <= i < |keys| => Lock(PathwayRow(keys[i]), Exclusive))
    case AbandonTxn(id, job, dvn) =>
      [Lock(OutboxRow(id), Exclusive)]
      + (if job.Some? then [Lock(ExecutorRow(job.value), Exclusive), Lock(PacketRow(job.value), Exclusive)] else [])
      + (if dvn.Some? then [Lock(DvnRow(dvn.value), Exclusive)] else [])
    case ExternalRetryTxn(id, scope, owner) =>
      [Lock(OutboxRow(id), Exclusive)] + ScopeLocks(scope) + [Lock(owner, Exclusive)]
    case ReconcileTxn(lane, ids) =>
      [Lock(SignerKey(lane), Exclusive), Lock(CursorRow(lane), Exclusive)]
      + seq(|ids|, i requires 0 <= i < |ids| => Lock(OutboxRow(ids[i]), Exclusive))
    case PricingEnqueueTxn(chain, to) => [Lock(FeedKey(chain, to), Exclusive), Lock(ChainRow(chain), Share)]
  }

  /** The locks' classes lie in [lo, hi). */
  predicate Between(locks: seq<Lock>, lo: nat, hi: nat) {
    forall i :: 0 <= i < |locks| ==> lo <= Class(locks[i].on) < hi
  }

  predicate AscendsIn(locks: seq<Lock>, lo: nat, hi: nat) {
    Ascending(locks) && Between(locks, lo, hi)
  }

  lemma Join(a: seq<Lock>, b: seq<Lock>, lo: nat, mid: nat, hi: nat)
    requires lo <= mid <= hi && AscendsIn(a, lo, mid) && AscendsIn(b, mid, hi)
    ensures AscendsIn(a + b, lo, hi)
  {
  }

  lemma ScopeAscends(scope: Scope)
    ensures AscendsIn(ScopeLocks(scope), 8, 10)
  {
  }

  lemma RetryAscends(txn: Txn)
    requires txn.RetryTxn?
    ensures Ascending(Program(txn))
  {
    var row := [Lock(OutboxRow(txn.id), Exclusive)];
    var feed := if txn.feed.Some? then [Lock(FeedKey(txn.feed.value.0, txn.feed.value.1), Exclusive)] else [];
    var job := if txn.job.Some? then [Lock(ExecutorRow(txn.job.value), Exclusive)] else [];
    var packet := if txn.job.Some? then [Lock(PacketRow(txn.job.value), Exclusive)] else [];
    Join(row, feed, 3, 4, 5);
    Join(row + feed, job, 3, 5, 8);
    ScopeAscends(txn.scope);
    Join(row + feed + job, ScopeLocks(txn.scope), 3, 8, 10);
    Join(row + feed + job + ScopeLocks(txn.scope), packet, 3, 10, 12);
  }

  lemma ClaimAscends(txn: Txn)
    requires txn.ClaimTxn?
    ensures Ascending(Program(txn))
  {
    var rows := [Lock(SignerKey(txn.lane), Exclusive), Lock(OutboxRow(txn.id), Exclusive)];
    var cursor := [Lock(CursorRow(txn.lane), Exclusive)];
    ScopeAscends(txn.scope);
    Join(ScopeLocks(txn.scope), cursor, 8, 10, 11);
    Join(rows, ScopeLocks(txn.scope) + cursor, 1, 4, 11);
  }

  lemma ExecutorEnqueueAscends(g: Guid, scope: Scope)
    ensures Ascending(Program(ExecutorEnqueueTxn(g, scope)))
  {
    ScopeAscends(scope);
    Join([Lock(ExecutorRow(g), Exclusive)], ScopeLocks(scope), 6, 8, 10);
    Join([Lock(ExecutorRow(g), Exclusive)] + ScopeLocks(scope), [Lock(PacketRow(g), Exclusive)], 6, 10, 12);
  }

  lemma DvnEnqueueAscends(g: Guid, scope: Scope)
    ensures Ascending(Program(DvnEnqueueTxn(g, scope)))
  {
    ScopeAscends(scope);
    Join([Lock(DvnRow(g), Exclusive)], ScopeLocks(scope), 7, 8, 10);
  }

  lemma SyncAscends(txn: Txn)
    requires txn.SyncConfigTxn? && WellSorted(txn)
    ensures Ascending(Program(txn))
  {
    var (eids, keys) := (txn.eids, txn.keys);
    var chains := seq(|eids|, i requires 0 <= i < |eids| => Lock(ChainRow(eids[i]), Exclusive));
    var pathways := seq(|keys|, i requires 0 <= i < |keys| => Lock(PathwayRow(keys[i]), Exclusive));
    Join([Lock(ConfigSyncKey, Exclusive)], chains, 0, 8, 9);
    Join([Lock(ConfigSyncKey, Exclusive)] + chains, pathways, 0, 9, 10);
  }

  /** Locking the job after the scope goes down the order, unless there is no scope. */
  lemma ExternalRetryDescends(txn: Txn)
    requires txn.ExternalRetryTxn? && WellSorted(txn)
    ensures Ascending(Program(txn)) <==> txn.scope.NoScope?
  {
    var p := Program(txn);
    if !txn.scope.NoScope? {
      assert p[1].on == ScopeLocks(txn.scope)[0].on && p[|p| - 1].on == txn.owner;
      assert !Below(p[1].on, p[|p| - 1].on);
    }
  }

  lemma ReconcileDescends(txn: Txn)
    requires txn.ReconcileTxn?
    ensures Ascending(Program(txn)) <==> txn.ids == []
  {
    var p := Program(txn);
    if txn.ids != [] {
      assert p[1].on == CursorRow(txn.lane) && p[2].on == OutboxRow(txn.ids[0]);
      assert !Below(p[1].on, p[2].on);
    }
  }

  /** The transactions that leave the order: resolving an external nonce by retry locks the job after
      the pause carriers it gated on, and a reconciliation locks outbox rows after the cursor. */
  predicate OutOfOrder(txn: Txn) {
    (txn.ExternalRetryTxn? && !txn.scope.NoScope?) || (txn.ReconcileTxn? && txn.ids != [])
  }

  predicate SingleRow(txn: Txn) {
    || txn.EstimateRevertTxn? || txn.DvnMarkTxn? || txn.PauseChainTxn? || txn.PausePathwayTxn? || txn.UpsertTxn?
  }

  predicate FewRows(txn: Txn) {
    || txn.BootstrapTxn? || txn.ReceiptTxn? || txn.ExecutorMarkTxn? || txn.DvnReorgTxn? || txn.DvnParkTxn?
    || txn.AbandonTxn?
  }

  lemma SingleRowLocks(txn: Txn)
    requires SingleRow(txn)
    ensures |Program(txn)| == 1
  {
  }

  lemma SingleRowAscends(txn: Txn)
    requires SingleRow(txn)
    ensures Ascending(Program(txn))
  {
    SingleRowLocks(txn);
  }

  lemma FewRowsAscend(txn: Txn)
    requires FewRows(txn) && WellSorted(txn)
    ensures Ascending(Program(txn))
  {
  }

  lemma PricingAscends(txn: Txn)
    requires txn.PricingEnqueueTxn?
    ensures Ascending(Program(txn))
  {
  }

  lemma OrderedAscends(txn: Txn)
    requires WellSorted(txn) && !txn.ExternalRetryTxn? && !txn.ReconcileTxn?
    ensures Ascending(Program(txn))
  {
    if txn.EnqueueTxn? {
      ScopeAscends(txn.scope);
    } else if txn.RetryTxn? {
      RetryAscends(txn);
    } else if txn.ClaimTxn? {
      ClaimAscends(txn);
    } else if txn.ExecutorEnqueueTxn? {
      ExecutorEnqueueAscends(txn.g, txn.scope);
    } else if txn.DvnEnqueueTxn? {
      DvnEnqueueAscends(txn.g, txn.scope);
    } else if txn.SyncConfigTxn? {
      SyncAscends(txn);
    } else if txn.PricingEnqueueTxn? {
      PricingAscends(txn);
    } else if SingleRow(txn) {
      SingleRowAscends(txn);
    } else {
      FewRowsAscend(txn);
    }
  }

  /** Exactly the transactions that are not out of order take their locks in ascending order. */
  lemma ProgramsAscend(txn: Txn)
    requires WellSorted(txn)
    ensures Ascending(Program(txn)) <==> !OutOfOrder(txn)
  {
    if txn.ExternalRetryTxn? {
      ExternalRetryDescends(txn);
    } else if txn.ReconcileTxn? {
      ReconcileDescends(txn);
    } else {
      OrderedAscends(txn);
    }
  }

  // ----- what the rows say -----

  /** Facts that no step changes, and how the lock manager treats shared requests: a packet's pathway
      follows from its GUID, a row's lane from its id, and shared requests may or may not queue
      behind a waiting writer. */
  datatype World = World(keyOf: Guid -> PathKey, laneOf: nat -> Lane, readersQueue: bool)

  predicate ScopeFor(world: World, scope: Scope, g: Guid) {
    scope.NoScope? || scope == OnePathway(world.keyOf(g))
  }

  /** The transaction's arguments agree with the stored rows: it gates on its packet's own pathway
      and locks rows of its own lane. */
  predicate Consistent(world: World, txn: Txn) {
    && WellSorted(txn)
    && match txn
       case RetryTxn(_, _, job, scope) => job.Some? ==> ScopeFor(world, scope, job.value)
       case ExecutorEnqueueTxn(g, scope) => ScopeFor(world, scope, g)
       case DvnEnqueueTxn(g, scope) => ScopeFor(world, scope, g)
       case ExternalRetryTxn(_, scope, owner) => scope == OnePathway(world.keyOf(owner.guid))
       case ClaimTxn(lane, id, _, _) => world.laneOf(id) == lane
       case ReconcileTxn(lane, ids) => forall i :: 0 <= i < |ids| ==> world.laneOf(ids[i]) == lane
       case _ => true
  }

  // ----- the shape of a lock list -----

  /** What matters about a transaction beyond its list. */
  datatype Kind = Plain | Retry(owner: Resource) | Reconcile(lane: Lane) | Park(g: Guid)

  function KindOf(txn: Txn): Kind {
    match txn
    case ExternalRetryTxn(_, _, owner) => Retry(owner)
    case ReconcileTxn(lane, _) => Reconcile(lane)
    case DvnParkTxn(g, _) => Park(g)
    case _ => Plain
  }

  predicate IsJob(r: Resource) {
    r.ExecutorRow? || r.DvnRow?
  }

  function CarriersOf(world: World, job: Resource): seq<Lock>
    requires IsJob(job)
  {
    ScopeLocks(OnePathway(world.keyOf(job.guid)))
  }

  /** After a job come the pause carriers of its own packet, to be shared, or a packet; only a park
      goes on to write the pathway. */
  ghost predicate JobThenCarriers(world: World, kind: Kind, p: seq<Lock>) {
    forall i, k :: 0 <= i < k < |p| && IsJob(p[i].on) ==>
      p[k] in CarriersOf(world, p[i].on) || p[k].on.PacketRow? || (kind.Park? && p[i].on == DvnRow(kind.g))
  }

  ghost predicate PacketsLast(p: seq<Lock>) {
    forall i :: 0 <= i < |p| && p[i].on.PacketRow? ==> i == |p| - 1
  }

  /** Whoever asks for a lane's cursor holds the lane's signer key. */
  ghost predicate CursorsGuarded(p: seq<Lock>) {
    forall k :: 0 <= k < |p| && p[k].on.CursorRow? ==> k > 0 && p[0] == Lock(SignerKey(p[k].on.lane), Exclusive)
  }

  /** An external-nonce retry: its row, all carriers of its packet to be shared, and then the job. */
  ghost predicate RetryShape(world: World, owner: Resource, p: seq<Lock>) {
    && IsJob(owner) && |p| >= 2 && p[|p| - 1] == Lock(owner, Exclusive) && Ascending(p[..|p| - 1])
    && p[0].on.OutboxRow? && (forall i :: 0 < i < |p| - 1 ==> p[i].mode == Share)
    && forall lock :: lock in CarriersOf(world, owner) ==> lock in p[..|p| - 1]
  }

  /** A reconciliation: signer key, cursor, and then rows of its lane, each once. */
  ghost predicate ReconcileShape(world: World, lane: Lane, p: seq<Lock>) {
    && |p| >= 2 && p[0] == Lock(SignerKey(lane), Exclusive) && p[1] == Lock(CursorRow(lane), Exclusive)
    && (forall i :: 2 <= i < |p| ==> p[i].on.OutboxRow? && world.laneOf(p[i].on.id) == lane)
    && forall i, j :: 2 <= i < j < |p| ==> p[i].on != p[j].on
  }

  ghost predicate OrderShape(world: World, kind: Kind, p: seq<Lock>) {
    match kind
    case Retry(owner) => RetryShape(world, owner, p)
    case Reconcile(lane) => ReconcileShape(world, lane, p)
    case _ => Ascending(p)
  }

  ghost predicate Shape(world: World, kind: Kind, p: seq<Lock>) {
    OrderShape(world, kind, p) && JobThenCarriers(world, kind, p) && PacketsLast(p) && CursorsGuarded(p)
  }

  lemma ScopeIsShared(scope: Scope, lock: Lock)
    requires lock in ScopeLocks(scope)
    ensures lock.mode == Share && (lock.on.ChainRow? || lock.on.PathwayRow?)
  {
  }

  /** In an ascending list nothing follows a packet. */
  lemma AscendingEndsWithPacket(p: seq<Lock>)
    requires Ascending(p)
    ensures PacketsLast(p)
  {
    forall i | 0 <= i < |p| && p[i].on.PacketRow? ensures i == |p| - 1 {
      var last := p[|p| - 1];
      assert i < |p| - 1 ==> Below(p[i].on, last.on);
    }
  }

  /** A list without jobs and cursors has nothing to prove about them. */
  lemma NoJobNoCursor(world: World, kind: Kind, p: seq<Lock>)
    requires forall i :: 0 <= i < |p| ==> !IsJob(p[i].on) && !p[i].on.CursorRow?
    ensures JobThenCarriers(world, kind, p) && CursorsGuarded(p)
  {
  }

  /** A prefix without jobs, then a job, its carriers (or none), and perhaps a packet. */
  lemma JobLists(world: World, kind: Kind, prefix: seq<Lock>, job: Resource, scope: Scope, packet: seq<Lock>)
    requires IsJob(job) && ScopeFor(world, scope, job.guid)
    requires forall i :: 0 <= i < |prefix| ==> !IsJob(prefix[i].on) && !prefix[i].on.CursorRow?
    requires forall i :: 0 <= i < |packet| ==> packet[i].on.PacketRow?
    ensures var p := prefix + [Lock(job, Exclusive)] + ScopeLocks(scope) + packet; JobThenCarriers(world, kind, p) && CursorsGuarded(p)
  {
    var p := prefix + [Lock(job, Exclusive)] + ScopeLocks(scope) + packet;
    var (n, m) := (|prefix|, |ScopeLocks(scope)|);
    assert forall i :: 0 <= i < n ==> p[i] == prefix[i];
    assert p[n] == Lock(job, Exclusive);
    forall i | n < i <= n + m ensures p[i] in ScopeLocks(scope) && p[i].mode == Share && (p[i].on.ChainRow? || p[i].on.PathwayRow?) {
      assert p[i] == ScopeLocks(scope)[i - n - 1];
      ScopeIsShared(scope, p[i]);
    }
    assert forall i :: n + m < i < |p| ==> p[i] == packet[i - n - m - 1];
  }

  lemma RetryListShape(world: World, txn: Txn)
    requires txn.RetryTxn? && Consistent(world, txn)
    ensures JobThenCarriers(world, Plain, Program(txn)) && CursorsGuarded(Program(txn))
  {
    var prefix := [Lock(OutboxRow(txn.id), Exclusive)]
      + if txn.feed.Some? then [Lock(FeedKey(txn.feed.value.0, txn.feed.value.1), Exclusive)] else [];
    if txn.job.Some? {
      var packet := [Lock(PacketRow(txn.job.value), Exclusive)];
      JobLists(world, Plain, prefix, ExecutorRow(txn.job.value), txn.scope, packet);
      assert Program(txn) == prefix + [Lock(ExecutorRow(txn.job.value), Exclusive)] + ScopeLocks(txn.scope) + packet;
    } else {
      NoJobsInScope(prefix, txn.scope, []);
      assert Program(txn) == prefix + ScopeLocks(txn.scope) + [];
      NoJobNoCursor(world, Plain, Program(txn));
    }
  }

  lemma NoJobsInScope(prefix: seq<Lock>, scope: Scope, suffix: seq<Lock>)
    requires forall i :: 0 <= i < |prefix| ==> !IsJob(prefix[i].on) && !prefix[i].on.CursorRow?
    requires forall i :: 0 <= i < |suffix| ==> !IsJob(suffix[i].on)
    ensures var p := prefix + ScopeLocks(scope) + suffix;
      && (forall i :: 0 <= i < |p| ==> !IsJob(p[i].on))
      && (forall i :: 0 <= i < |prefix| + |ScopeLocks(scope)| ==> !p[i].on.CursorRow?)
  {
    var p := prefix + ScopeLocks(scope) + suffix;
    forall i | 0 <= i < |prefix| + |ScopeLocks(scope)| ensures !IsJob(p[i].on) && !p[i].on.CursorRow? {
      if i >= |prefix| {
        assert p[i] == ScopeLocks(scope)[i - |prefix|];
        ScopeIsShared(scope, p[i]);
      }
    }
  }

  lemma ClaimListShape(world: World, txn: Txn)
    requires txn.ClaimTxn? && Consistent(world, txn)
    ensures JobThenCarriers(world, Plain, Program(txn)) && CursorsGuarded(Program(txn))
  {
    var rows := [Lock(SignerKey(txn.lane), Exclusive), Lock(OutboxRow(txn.id), Exclusive)];
    var cursor := [Lock(CursorRow(txn.lane), Exclusive)];
    if txn.needsNonce {
      NoJobsInScope(rows, txn.scope, cursor);
      assert Program(txn) == rows + ScopeLocks(txn.scope) + cursor;
    }
  }

  lemma EnqueueListShape(world: World, txn: Txn)
    requires (txn.ExecutorEnqueueTxn? || txn.DvnEnqueueTxn?) && Consistent(world, txn)
    ensures JobThenCarriers(world, Plain, Program(txn)) && CursorsGuarded(Program(txn))
  {
    if txn.ExecutorEnqueueTxn? {
      var packet := [Lock(PacketRow(txn.g), Exclusive)];
      JobLists(world, Plain, [], ExecutorRow(txn.g), txn.scope, packet);
      assert Program(txn) == [] + [Lock(ExecutorRow(txn.g), Exclusive)] + ScopeLocks(txn.scope) + packet;
    } else {
      JobLists(world, Plain, [], DvnRow(txn.g), txn.scope, []);
      assert Program(txn) == [] + [Lock(DvnRow(txn.g), Exclusive)] + ScopeLocks(txn.scope) + [];
    }
  }

  lemma ScopeListShape(world: World, txn: Txn)
    requires txn.EnqueueTxn? || txn.PricingEnqueueTxn?
    ensures JobThenCarriers(world, Plain, Program(txn)) && CursorsGuarded(Program(txn))
  {
    if txn.EnqueueTxn? {
      NoJobsInScope([], txn.scope, []);
      assert Program(txn) == [] + ScopeLocks(txn.scope) + [];
    }
    NoJobNoCursor(world, Plain, Program(txn));
  }

  lemma SyncListShape(world: World, txn: Txn)
    requires txn.SyncConfigTxn?
    ensures JobThenCarriers(world, Plain, Program(txn)) && CursorsGuarded(Program(txn))
  {
    NoJobNoCursor(world, Plain, Program(txn));
  }

  lemma SingleRowShape(world: World, txn: Txn)
    requires Consistent(world, txn) && SingleRow(txn)
    ensures JobThenCarriers(world, KindOf(txn), Program(txn)) && CursorsGuarded(Program(txn))
  {
    SingleRowLocks(txn);
    assert !Program(txn)[0].on.CursorRow?;
  }

  lemma FewRowsShape(world: World, txn: Txn)
    requires Consistent(world, txn) && FewRows(txn)
    ensures JobThenCarriers(world, KindOf(txn), Program(txn)) && CursorsGuarded(Program(txn))
  {
  }

  lemma ExternalRetryShape(world: World, txn: Txn)
    requires txn.ExternalRetryTxn? && Consistent(world, txn)
    ensures Shape(world, KindOf(txn), Program(txn))
  {
    var row, carriers := [Lock(OutboxRow(txn.id), Exclusive)], ScopeLocks(txn.scope);
    var p := Program(txn);
    ScopeAscends(txn.scope);
    Join(row, carriers, 3, 8, 10);
    assert p[..|p| - 1] == row + carriers;
    NoJobsInScope(row, txn.scope, []);
    assert row + carriers + [] == row + carriers;
    forall i | 0 < i < |p| - 1 ensures p[i].mode == Share && (p[i].on.ChainRow? || p[i].on.PathwayRow?) {
      assert p[i] == carriers[i - 1];
      ScopeIsShared(txn.scope, p[i]);
    }
    assert forall i :: 0 <= i < |p| - 1 ==> p[i] == (row + carriers)[i];
  }

  lemma ReconcileListShape(world: World, txn: Txn)
    requires txn.ReconcileTxn? && Consistent(world, txn)
    ensures Shape(world, KindOf(txn), Program(txn))
  {
    var p := Program(txn);
    assert forall i :: 2 <= i < |p| ==> p[i] == Lock(OutboxRow(txn.ids[i - 2]), Exclusive);
  }

  /** Every transaction whose arguments agree with the rows has its kind's shape. */
  lemma ProgramShape(world: World, txn: Txn)
    requires Consistent(world, txn)
    ensures Shape(world, KindOf(txn), Program(txn))
  {
    if txn.ExternalRetryTxn? {
      ExternalRetryShape(world, txn);
    } else if txn.ReconcileTxn? {
      ReconcileListShape(world, txn);
    } else {
      ProgramsAscend(txn);
      AscendingEndsWithPacket(Program(txn));
      OrderedListShape(world, txn);
    }
  }

  lemma OrderedListShape(world: World, txn: Txn)
    requires Consistent(world, txn) && !txn.ExternalRetryTxn? && !txn.ReconcileTxn?
    ensures JobThenCarriers(world, KindOf(txn), Program(txn)) && CursorsGuarded(Program(txn))
  {
    if txn.RetryTxn? {
      RetryListShape(world, txn);
    } else if txn.ClaimTxn? {
      ClaimListShape(world, txn);
    } else if txn.ExecutorEnqueueTxn? || txn.DvnEnqueueTxn? {
      EnqueueListShape(world, txn);
    } else if txn.EnqueueTxn? || txn.PricingEnqueueTxn? {
      ScopeListShape(world, txn);
    } else if txn.SyncConfigTxn? {
      SyncListShape(world, txn);
    } else if SingleRow(txn) {
      SingleRowShape(world, txn);
    } else {
      FewRowsShape(world, txn);
    }
  }
}
