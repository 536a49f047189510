/** Send scopes: which pause flags stand in front of a transaction (go/internal/db/send_scope.go). */
module SendScope {
  import opened Tables

  datatype ScopeState = Active | Inactive | Malformed

  predicate ChainActive(db: Db, eid: Eid) {
    eid in db.chains && db.chains[eid].enabled && !db.chains[eid].paused
  }

  predicate PathwayActive(db: Db, key: PathKey) {
    key in db.pathways && db.pathways[key].enabled && !db.pathways[key].paused
  }

  /** The gate in front of every new spend: it answers under share locks, so the answer is
      part of the same atomic step as the spend it guards. */
  function LockTxSendScope(db: Db, chain: Eid, purpose: Purpose, guid: Option<Guid>): ScopeState {
    if purpose.PricingSnapshot? then
      if guid.Some? then Malformed
      else if ChainActive(db, chain) then Active else Inactive
    else if PacketPurpose(purpose) then
      if guid.None? || guid.value !in db.packets then Malformed
      else
        var key := db.packets[guid.value].key;
        if chain != key.dst then Malformed
        else if !ChainActive(db, key.src) || !ChainActive(db, key.dst) then Inactive
        else if PathwayActive(db, key) then Active else Inactive
    else Malformed
  }

  function ScopeOf(db: Db, req: TxRequest): ScopeState {
    LockTxSendScope(db, req.chain, req.purpose, req.guid)
  }

  /** The lock-free filter the signing selector applies to candidate rows. */
  predicate SendScopeActiveSql(db: Db, row: Row) {
    || row.nonce.Some?
    || (row.req.purpose.PricingSnapshot? && row.req.guid.None? && ChainActive(db, row.req.chain))
    || (&& PacketPurpose(row.req.purpose)
        && row.req.guid.Some? && row.req.guid.value in db.packets
        && var key := db.packets[row.req.guid.value].key;
           && key.dst == row.req.chain
           && PathwayActive(db, key)
           && !Blocked(db, key.src) && !Blocked(db, key.dst))
  }

  predicate Blocked(db: Db, eid: Eid) {
    eid in db.chains && (!db.chains[eid].enabled || db.chains[eid].paused)
  }

  /** Foreign keys from packets to the chains they name. */
  ghost predicate PacketChainsExist(db: Db) {
    forall g :: g in db.packets ==> db.packets[g].key.src in db.chains && db.packets[g].key.dst in db.chains
  }

  /** The selector's filter and the locking gate agree on every row that still needs a nonce. */
  lemma SelectorAgreesWithGate(db: Db, row: Row)
    requires PacketChainsExist(db)
    ensures row.nonce.None? ==> (SendScopeActiveSql(db, row) <==> ScopeOf(db, row.req).Active?)
  {
    if PacketPurpose(row.req.purpose) && row.req.guid.Some? && row.req.guid.value in db.packets {
      var key := db.packets[row.req.guid.value].key;
      assert key.src in db.chains && key.dst in db.chains;
    }
  }

  // ----- what the gate decides -----

  /** A stored row whose flags can stand in front of a transaction. */
  datatype Gate = ChainGate(eid: Eid) | PathwayGate(key: PathKey)

  /** The flags of the gate forbid spending: its row is missing, disabled or paused. */
  ghost predicate Shut(db: Db, gate: Gate) {
    match gate
    case ChainGate(eid) => eid !in db.chains || !db.chains[eid].enabled || db.chains[eid].paused
    case PathwayGate(key) => key !in db.pathways || !db.pathways[key].enabled || db.pathways[key].paused
  }

  /** The gate stands in front of the request: a price snapshot passes its own chain, a packet's
      transaction both chains of the packet and its pathway. */
  ghost predicate Behind(db: Db, req: TxRequest, gate: Gate) {
    || (req.purpose.PricingSnapshot? && gate == ChainGate(req.chain))
    || (&& PacketPurpose(req.purpose) && req.guid.Some? && req.guid.value in db.packets
        && var key := db.packets[req.guid.value].key;
           gate == ChainGate(key.src) || gate == ChainGate(key.dst) || gate == PathwayGate(key))
  }

  /** The request says what it spends for: a snapshot no packet, a packet's transaction a stored
      packet that ends on the request's chain. */
  predicate Addressed(db: Db, req: TxRequest) {
    || (req.purpose.PricingSnapshot? && req.guid.None?)
    || (&& PacketPurpose(req.purpose) && req.guid.Some? && req.guid.value in db.packets
        && db.packets[req.guid.value].key.dst == req.chain)
  }

  ghost predicate NothingShut(db: Db, req: TxRequest) {
    forall gate :: Behind(db, req, gate) ==> !Shut(db, gate)
  }

  lemma ShutIsInactive(db: Db, req: TxRequest, gate: Gate)
    requires Behind(db, req, gate) && Shut(db, gate)
    ensures !ScopeOf(db, req).Active?
  {
  }

  /** The gate answers from the flags alone: active exactly when the request is addressed and none of
      the rows in front of it is missing, disabled or paused. */
  lemma ActiveIffNothingShut(db: Db, req: TxRequest)
    ensures ScopeOf(db, req).Active? <==> Addressed(db, req) && NothingShut(db, req)
    ensures ScopeOf(db, req).Malformed? <==> !Addressed(db, req)
  {
    if !ScopeOf(db, req).Active? && Addressed(db, req) {
      if req.purpose.PricingSnapshot? {
        assert Behind(db, req, ChainGate(req.chain));
      } else {
        var key := db.packets[req.guid.value].key;
        assert Behind(db, req, ChainGate(key.src)) && Behind(db, req, ChainGate(key.dst)) && Behind(db, req, PathwayGate(key));
      }
    }
    forall gate | ScopeOf(db, req).Active? && Behind(db, req, gate) ensures !Shut(db, gate) {
      if Shut(db, gate) { ShutIsInactive(db, req, gate); }
    }
  }
}
