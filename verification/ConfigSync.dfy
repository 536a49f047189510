/** Reconciling chains and pathways with the validated startup config (go/internal/db/db.go). */
module ConfigSync {
  import opened Tables

  datatype PathwayConfig = PathwayConfig(enabled: bool, meta: int)

  /** The registry is keyed; Go iterates over it in no particular order. */
  datatype Registry = Registry(chains: map<Eid, int>, pathways: map<PathKey, PathwayConfig>)

  /** A configured chain row: enabled, with the pause flag of the row it replaces. */
  function SyncedChain(was: map<Eid, Chain>, eid: Eid, meta: int): Chain {
    Chain(true, eid in was && was[eid].paused, meta)
  }

  function SyncedPathway(was: map<PathKey, Pathway>, key: PathKey, config: PathwayConfig): Pathway {
    Pathway(config.enabled, key in was && was[key].paused, config.meta)
  }

  function DisabledChains(was: map<Eid, Chain>): map<Eid, Chain> {
    map e | e in was :: was[e].(enabled := false)
  }

  function DisabledPathways(was: map<PathKey, Pathway>): map<PathKey, Pathway> {
    map k | k in was :: was[k].(enabled := false)
  }

  function SyncedChains(was: map<Eid, Chain>, config: map<Eid, int>): map<Eid, Chain> {
    map e | e in was.Keys + config.Keys ::
      if e in config then SyncedChain(was, e, config[e]) else was[e].(enabled := false)
  }

  function SyncedPathways(was: map<PathKey, Pathway>, config: map<PathKey, PathwayConfig>): map<PathKey, Pathway> {
    map k | k in was.Keys + config.Keys ::
      if k in config then SyncedPathway(was, k, config[k]) else was[k].(enabled := false)
  }

  lemma NoChainsYet(was: map<Eid, Chain>)
    ensures DisabledChains(was) == SyncedChains(was, map[])
  {
  }

  lemma NoPathwaysYet(was: map<PathKey, Pathway>)
    ensures DisabledPathways(was) == SyncedPathways(was, map[])
  {
  }

  /** One upsert extends the configured part by one key, whatever keys came before. */
  lemma OneMoreChain(was: map<Eid, Chain>, done: map<Eid, int>, e: Eid, meta: int)
    requires e !in done
    ensures SyncedChains(was, done[e := meta]) == SyncedChains(was, done)[e := SyncedChain(was, e, meta)]
    ensures e in SyncedChains(was, done) <==> e in was
    ensures e in was ==> SyncedChains(was, done)[e] == was[e].(enabled := false)
  {
  }

  lemma OneMorePathway(was: map<PathKey, Pathway>, done: map<PathKey, PathwayConfig>, k: PathKey, config: PathwayConfig)
    requires k !in done
    ensures SyncedPathways(was, done[k := config]) == SyncedPathways(was, done)[k := SyncedPathway(was, k, config)]
    ensures k in SyncedPathways(was, done) <==> k in was
    ensures k in was ==> SyncedPathways(was, done)[k] == was[k].(enabled := false)
    ensures SyncedPathway(SyncedPathways(was, done), k, config) == SyncedPathway(was, k, config)
  {
  }

  /** A pathway that is new to the table must name stored chains. */
  predicate ChainsKnown(chains: map<Eid, Chain>, was: map<PathKey, Pathway>, k: PathKey) {
    k in was || (k.src in chains && k.dst in chains)
  }

  predicate ForeignKeysMet(db: Db, registry: Registry) {
    forall k :: k in registry.pathways ==> ChainsKnown(SyncedChains(db.chains, registry.chains), db.pathways, k)
  }

  /** The set-level effect of a sync, free of any iteration order. */
  function SyncConfig(db: Db, registry: Registry): (out: Outcome<bool>)
    ensures out.db == db.(chains := out.db.chains, pathways := out.db.pathways)
  {
    if !ForeignKeysMet(db, registry) then Unchanged(db, ChainNotFound)
    else
      Outcome(db.(chains := SyncedChains(db.chains, registry.chains),
                  pathways := SyncedPathways(db.pathways, registry.pathways)), Ok(true))
  }

  /** A sync succeeds exactly when every configured pathway that is not stored yet joins two chains that are
      stored or configured; otherwise it changes nothing. */
  lemma SyncSucceedsIff(db: Db, registry: Registry)
    ensures SyncConfig(db, registry).reply.Ok? <==>
      forall k :: k in registry.pathways && k !in db.pathways ==>
        (k.src in db.chains || k.src in registry.chains) && (k.dst in db.chains || k.dst in registry.chains)
    ensures SyncConfig(db, registry).reply.Err? ==> SyncConfig(db, registry).db == db
  {
  }

  /** What a sync leaves behind: a chain is enabled exactly when configured, a pathway exactly when
      configured and enabled there; pause flags of existing rows survive; no row is lost. */
  lemma SyncMeaning(db: Db, registry: Registry)
    requires ForeignKeysMet(db, registry)
    ensures var after := SyncConfig(db, registry).db;
      && after.chains.Keys == db.chains.Keys + registry.chains.Keys
      && after.pathways.Keys == db.pathways.Keys + registry.pathways.Keys
      && (forall e :: e in after.chains ==> (after.chains[e].enabled <==> e in registry.chains))
      && (forall k :: k in after.pathways ==>
            (after.pathways[k].enabled <==> k in registry.pathways && registry.pathways[k].enabled))
      && (forall e :: e in db.chains ==> after.chains[e].paused == db.chains[e].paused)
      && (forall k :: k in db.pathways ==> after.pathways[k].paused == db.pathways[k].paused)
      && (forall e :: e in after.chains && e !in db.chains ==> !after.chains[e].paused)
      && (forall k :: k in after.pathways && k !in db.pathways ==> !after.pathways[k].paused)
      && after == db.(chains := after.chains, pathways := after.pathways)
  {
  }

  /** Syncing twice is syncing once: a restart with the same config changes nothing. */
  lemma SyncIdempotent(db: Db, registry: Registry)
    requires ForeignKeysMet(db, registry)
    ensures SyncConfig(SyncConfig(db, registry).db, registry).db == SyncConfig(db, registry).db
  {
    ChainsIdempotent(db.chains, registry.chains);
    PathwaysIdempotent(db.pathways, registry.pathways);
    assert ForeignKeysMet(SyncConfig(db, registry).db, registry);
  }

  lemma ChainsIdempotent(was: map<Eid, Chain>, config: map<Eid, int>)
    ensures SyncedChains(SyncedChains(was, config), config) == SyncedChains(was, config)
  {
  }

  lemma PathwaysIdempotent(was: map<PathKey, Pathway>, config: map<PathKey, PathwayConfig>)
    ensures SyncedPathways(SyncedPathways(was, config), config) == SyncedPathways(was, config)
  {
  }

  /** The last sync wins: what an earlier config said about enablement leaves no trace. */
  lemma LastSyncDecides(db: Db, first: Registry, second: Registry)
    requires ForeignKeysMet(db, first) && ForeignKeysMet(SyncConfig(db, first).db, second)
    ensures var after := SyncConfig(SyncConfig(db, first).db, second).db;
      && (forall e :: e in after.chains ==> (after.chains[e].enabled <==> e in second.chains))
      && (forall k :: k in after.pathways ==>
            (after.pathways[k].enabled <==> k in second.pathways && second.pathways[k].enabled))
      && (forall e :: e in db.chains ==> e in after.chains && after.chains[e].paused == db.chains[e].paused)
      && (forall k :: k in db.pathways ==> k in after.pathways && after.pathways[k].paused == db.pathways[k].paused)
  {
    SyncMeaning(db, first);
    SyncMeaning(SyncConfig(db, first).db, second);
  }

  /** Taking one key off the to-do set adds it to the part of the config already done. */
  lemma OneMoreDone<K, V>(config: map<K, V>, todo: set<K>, k: K)
    requires k in todo && todo <= config.Keys
    ensures config - (todo - {k}) == (config - todo)[k := config[k]]
  {
  }
}
