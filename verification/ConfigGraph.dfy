/** Config validation and what it implies for the graph of pathways (go/internal/config/config.go).

Checks of URLs, signers, key references and transaction roles are opaque here: their outcomes are
fields of the config. */
module ConfigGraph {
  import opened Tables
  import PricingTiming
  import Uln

  type Uint64 = PricingTiming.Uint64

  datatype ChainConfig = ChainConfig(
    eid: Eid, name: string, family: string, chainId: nat, endpoint: Address,
    executorRoleOk: bool, optionalDvnRoleOk: bool, requiredDvnRoleOk: bool,
    confirmations: nat, queryRange: nat, pollSeconds: Uint64, rpcUrlOk: seq<bool>)

  datatype DvnMode = Shadow | Active | OtherMode

  datatype PathwayConfig = PathwayConfig(
    key: PathKey, libraries: seq<Address>, sourceOpenDvn: Address, destinationOpenDvn: Address,
    sendDvns: seq<Address>, receiveDvns: seq<Address>, mode: DvnMode,
    maxMessageSize: nat, minGas: nat, maxGas: nat, pricingOk: bool)

  datatype Config = Config(
    referencesOk: bool, databaseUrl: string, staleReplacementSeconds: Uint64, signersOk: bool,
    executorEnabled: bool, dvnEnabled: bool, pricing: PricingTiming.Pricing, pricingChainsOk: bool,
    chains: seq<ChainConfig>, pathways: seq<PathwayConfig>)

  const MAX_INT32: nat := 0x7fff_ffff

  // ----- what is accepted -----

  predicate ChainOk(c: Config, chain: ChainConfig) {
    && chain.eid != 0 && chain.name != "" && chain.family == "evm" && chain.chainId > 0 && chain.endpoint != 0
    && (c.executorEnabled ==> chain.executorRoleOk) && (c.dvnEnabled ==> chain.optionalDvnRoleOk)
    && chain.confirmations != 0 && chain.queryRange != 0
    && chain.pollSeconds != 0 && PricingTiming.DurationOk(chain.pollSeconds)
    && chain.rpcUrlOk != [] && forall i :: 0 <= i < |chain.rpcUrlOk| ==> chain.rpcUrlOk[i]
  }

  /** The chain table as it is filled, in order. */
  function ByEid(chains: seq<ChainConfig>): map<Eid, ChainConfig> {
    if chains == [] then map[]
    else ByEid(chains[..|chains| - 1])[chains[|chains| - 1].eid := chains[|chains| - 1]]
  }

  predicate PathwayOk(c: Config, byEid: map<Eid, ChainConfig>, p: PathwayConfig) {
    && p.key.src in byEid && p.key.dst in byEid && p.key.src != p.key.dst
    && byEid[p.key.src].confirmations >= byEid[p.key.dst].confirmations
    && p.key.srcOApp != 0 && p.key.dstOApp != 0 && p.sourceOpenDvn != 0 && p.destinationOpenDvn != 0 && 0 !in p.libraries
    && Uln.ApprovedSet(p.sendDvns, p.sourceOpenDvn) && Uln.ApprovedSet(p.receiveDvns, p.destinationOpenDvn)
    && !p.mode.OtherMode?
    && 1 <= p.maxMessageSize <= MAX_INT32 && p.maxGas != 0 && p.minGas <= p.maxGas
    && (c.pricing.enabled ==> p.pricingOk)
  }

  predicate PreambleOk(c: Config) {
    && c.referencesOk && c.databaseUrl != ""
    && c.staleReplacementSeconds != 0 && PricingTiming.DurationOk(c.staleReplacementSeconds)
    && c.chains != [] && c.signersOk
  }

  predicate DistinctEids(chains: seq<ChainConfig>) {
    forall i, j :: 0 <= i < j < |chains| ==> chains[i].eid != chains[j].eid
  }

  predicate DistinctKeys(pathways: seq<PathwayConfig>) {
    forall i, j :: 0 <= i < j < |pathways| ==> pathways[i].key != pathways[j].key
  }

  predicate PricingOk(c: Config) {
    PricingTiming.ValidateSchedule(c.pricing).Accepted? && (c.pricing.enabled ==> c.pricingChainsOk)
  }

  predicate Accepted(c: Config) {
    && PreambleOk(c)
    && (forall i :: 0 <= i < |c.chains| ==> ChainOk(c, c.chains[i])) && DistinctEids(c.chains)
    && PricingOk(c)
    && (forall i :: 0 <= i < |c.pathways| ==> PathwayOk(c, ByEid(c.chains), c.pathways[i])) && DistinctKeys(c.pathways)
    && (c.dvnEnabled ==> forall i :: 0 <= i < |c.pathways| && c.pathways[i].mode.Active? ==>
          ByEid(c.chains)[c.pathways[i].key.dst].requiredDvnRoleOk)
  }

  // ----- the validator -----

  lemma {:induction false} ByEidKeys(chains: seq<ChainConfig>, eid: Eid)
    ensures eid in ByEid(chains) <==> exists i :: 0 <= i < |chains| && chains[i].eid == eid
  {
    if chains != [] {
      var n := |chains| - 1;
      ByEidKeys(chains[..n], eid);
      if eid in ByEid(chains[..n]) {
        var i :| 0 <= i < n && chains[..n][i].eid == eid;
        assert chains[i].eid == eid;
      }
      if i :| 0 <= i < |chains| && chains[i].eid == eid && i != n { assert chains[..n][i].eid == eid; }
    }
  }

  method ValidateChain(c: Config, chain: ChainConfig) returns (ok: bool)
    ensures ok <==> ChainOk(c, chain)
  {
    if chain.eid == 0 || chain.name == "" || chain.family != "evm" || chain.chainId == 0 || chain.endpoint == 0 { return false; }
    if c.executorEnabled && !chain.executorRoleOk { return false; }
    if c.dvnEnabled && !chain.optionalDvnRoleOk { return false; }
    if chain.confirmations == 0 || chain.queryRange == 0 { return false; }
    if chain.pollSeconds == 0 || !PricingTiming.DurationOk(chain.pollSeconds) { return false; }
    if |chain.rpcUrlOk| == 0 { return false; }
    for i := 0 to |chain.rpcUrlOk|
      invariant forall j :: 0 <= j < i ==> chain.rpcUrlOk[j]
    {
      if !chain.rpcUrlOk[i] { return false; }
    }
    return true;
  }

  method ValidateChains(c: Config) returns (ok: bool, byEid: map<Eid, ChainConfig>)
    ensures ok <==> (forall i :: 0 <= i < |c.chains| ==> ChainOk(c, c.chains[i])) && DistinctEids(c.chains)
    ensures ok ==> byEid == ByEid(c.chains)
  {
    byEid := map[];
    for i := 0 to |c.chains|
      invariant forall j :: 0 <= j < i ==> ChainOk(c, c.chains[j])
      invariant DistinctEids(c.chains[..i]) && byEid == ByEid(c.chains[..i])
    {
      var chainOk := ValidateChain(c, c.chains[i]);
      if !chainOk { return false, byEid; }
      ByEidKeys(c.chains[..i], c.chains[i].eid);
      if c.chains[i].eid in byEid {
        assert !DistinctEids(c.chains);
        return false, byEid;
      }
      assert c.chains[..i + 1][..i] == c.chains[..i];
      byEid := byEid[c.chains[i].eid := c.chains[i]];
    }
    assert c.chains[..|c.chains|] == c.chains;
    ok := true;
  }

  method ValidatePathway(c: Config, byEid: map<Eid, ChainConfig>, p: PathwayConfig) returns (ok: bool)
    ensures ok <==> PathwayOk(c, byEid, p)
  {
    if p.key.src !in byEid || p.key.dst !in byEid || p.key.src == p.key.dst { return false; }
    if byEid[p.key.src].confirmations < byEid[p.key.dst].confirmations { return false; }
    if p.key.srcOApp == 0 || p.key.dstOApp == 0 || p.sourceOpenDvn == 0 || p.destinationOpenDvn == 0 || 0 in p.libraries { return false; }
    var sendOk := Uln.ValidateRequiredDvnSet(p.sendDvns, p.sourceOpenDvn);
    if !sendOk { return false; }
    var receiveOk := Uln.ValidateRequiredDvnSet(p.receiveDvns, p.destinationOpenDvn);
    if !receiveOk || p.mode.OtherMode? { return false; }
    if p.maxMessageSize == 0 || p.maxMessageSize > MAX_INT32 || p.maxGas == 0 || p.minGas > p.maxGas { return false; }
    return !c.pricing.enabled || p.pricingOk;
  }

  function KeysOf(pathways: seq<PathwayConfig>): set<PathKey> {
    set i | 0 <= i < |pathways| :: pathways[i].key
  }

  /** Destinations of active pathways. */
  function ActiveDestinations(pathways: seq<PathwayConfig>): set<Eid> {
    set i | 0 <= i < |pathways| && pathways[i].mode.Active? :: pathways[i].key.dst
  }

  lemma OneMorePathway(done: seq<PathwayConfig>, p: PathwayConfig)
    ensures KeysOf(done + [p]) == KeysOf(done) + {p.key}
    ensures ActiveDestinations(done + [p]) == ActiveDestinations(done) + if p.mode.Active? then {p.key.dst} else {}
    ensures DistinctKeys(done + [p]) <==> DistinctKeys(done) && p.key !in KeysOf(done)
  {
    var next := done + [p];
    assert next[|done|] == p && forall i :: 0 <= i < |done| ==> next[i] == done[i];
    assert forall k :: k in KeysOf(next) ==> k in KeysOf(done) + {p.key};
    assert forall e :: e in ActiveDestinations(done) ==> e in ActiveDestinations(next);
  }

  method ValidatePathways(c: Config, byEid: map<Eid, ChainConfig>) returns (ok: bool, active: set<Eid>)
    ensures ok <==> (forall i :: 0 <= i < |c.pathways| ==> PathwayOk(c, byEid, c.pathways[i])) && DistinctKeys(c.pathways)
    ensures ok ==> active == ActiveDestinations(c.pathways)
  {
    var keys: set<PathKey> := {};
    active := {};
    for i := 0 to |c.pathways|
      invariant forall j :: 0 <= j < i ==> PathwayOk(c, byEid, c.pathways[j])
      invariant keys == KeysOf(c.pathways[..i]) && active == ActiveDestinations(c.pathways[..i])
      invariant DistinctKeys(c.pathways[..i])
    {
      var p := c.pathways[i];
      var pathwayOk := ValidatePathway(c, byEid, p);
      if !pathwayOk { return false, active; }
      assert c.pathways[..i + 1] == c.pathways[..i] + [p];
      OneMorePathway(c.pathways[..i], p);
      if p.key in keys { return false, active; }
      keys := keys + {p.key};
      if p.mode.Active? { active := active + {p.key.dst}; }
    }
    assert c.pathways[..|c.pathways|] == c.pathways;
    ok := true;
  }

  method ValidateActiveRoles(byEid: map<Eid, ChainConfig>, active: set<Eid>) returns (ok: bool)
    requires active <= byEid.Keys
    ensures ok <==> forall eid :: eid in active ==> byEid[eid].requiredDvnRoleOk
  {
    var todo := active;
    while todo != {}
      invariant todo <= active && forall eid :: eid in active - todo ==> byEid[eid].requiredDvnRoleOk
      decreases |todo|
    {
      var eid :| eid in todo;
      if !byEid[eid].requiredDvnRoleOk { return false; }
      todo := todo - {eid};
    }
    return true;
  }

  /** The validator accepts exactly the accepted configs. */
  method Validate(c: Config) returns (ok: bool)
    ensures ok <==> Accepted(c)
  {
    if !PreambleOk(c) { return false; }
    var chainsOk, byEid := ValidateChains(c);
    if !chainsOk { return false; }
    if PricingTiming.ValidateSchedule(c.pricing) != PricingTiming.Accepted || (c.pricing.enabled && !c.pricingChainsOk) { return false; }
    var pathwaysOk, active := ValidatePathways(c, byEid);
    if !pathwaysOk { return false; }
    if c.dvnEnabled {
      RolesPerPathway(c, byEid);
      ok := ValidateActiveRoles(byEid, active);
      return;
    }
    return true;
  }

  lemma RolesPerPathway(c: Config, byEid: map<Eid, ChainConfig>)
    requires forall i :: 0 <= i < |c.pathways| ==> PathwayOk(c, byEid, c.pathways[i])
    ensures forall eid :: eid in ActiveDestinations(c.pathways) ==> eid in byEid
    ensures (forall eid :: eid in ActiveDestinations(c.pathways) ==> eid in byEid && byEid[eid].requiredDvnRoleOk)
      <==> forall i :: 0 <= i < |c.pathways| && c.pathways[i].mode.Active? ==>
             c.pathways[i].key.dst in byEid && byEid[c.pathways[i].key.dst].requiredDvnRoleOk
  {
    forall i | 0 <= i < |c.pathways| && c.pathways[i].mode.Active?
      ensures c.pathways[i].key.dst in ActiveDestinations(c.pathways)
    {
    }
  }

  // ----- the graph of pathways -----

  ghost function ConfirmationsAt(c: Config, eid: Eid): nat {
    if eid in ByEid(c.chains) then ByEid(c.chains)[eid].confirmations else 0
  }

  /** In an accepted config a chain's entry is found under its own eid. */
  lemma {:induction false} ByEidFinds(chains: seq<ChainConfig>, i: nat)
    requires i < |chains| && DistinctEids(chains)
    ensures chains[i].eid in ByEid(chains) && ByEid(chains)[chains[i].eid] == chains[i]
  {
    var n := |chains| - 1;
    if i < n {
      ByEidFinds(chains[..n], i);
      assert chains[i].eid != chains[n].eid;
    }
  }

  /** So the confirmations compared along pathways are the ones each chain lists. */
  lemma ConfirmationsListed(c: Config, i: nat)
    requires Accepted(c) && i < |c.chains|
    ensures ConfirmationsAt(c, c.chains[i].eid) == c.chains[i].confirmations
  {
    ByEidFinds(c.chains, i);
  }

  /** Consecutive pathways, given by their positions. */
  predicate Route(c: Config, route: seq<nat>) {
    && route != [] && (forall i :: 0 <= i < |route| ==> route[i] < |c.pathways|)
    && forall i :: 0 <= i < |route| - 1 ==> c.pathways[route[i]].key.dst == c.pathways[route[i + 1]].key.src
  }

  function From(c: Config, route: seq<nat>): Eid
    requires Route(c, route)
  {
    c.pathways[route[0]].key.src
  }

  function To(c: Config, route: seq<nat>): Eid
    requires Route(c, route)
  {
    c.pathways[route[|route| - 1]].key.dst
  }

  /** Confirmations never increase along a route of any length. */
  lemma {:induction false} ConfirmationsNeverIncrease(c: Config, route: seq<nat>)
    requires Accepted(c) && Route(c, route)
    ensures ConfirmationsAt(c, From(c, route)) >= ConfirmationsAt(c, To(c, route))
    decreases |route|
  {
    assert PathwayOk(c, ByEid(c.chains), c.pathways[route[0]]);
    if |route| > 1 {
      assert c.pathways[route[0]].key.dst == c.pathways[route[0 + 1]].key.src;
      RoutePart(c, route, 1, |route|);
      ConfirmationsNeverIncrease(c, route[1..|route|]);
    }
  }

  lemma RoutePart(c: Config, route: seq<nat>, lo: nat, hi: nat)
    requires Route(c, route) && lo < hi <= |route|
    ensures Route(c, route[lo..hi])
  {
    var part := route[lo..hi];
    forall i | 0 <= i < |part| - 1 ensures c.pathways[part[i]].key.dst == c.pathways[part[i + 1]].key.src {
      assert c.pathways[route[lo + i]].key.dst == c.pathways[route[lo + i + 1]].key.src;
    }
  }

  /** All chains on a cycle of pathways have equal confirmations. */
  lemma CycleConfirmationsEqual(c: Config, cycle: seq<nat>, i: nat)
    requires Accepted(c) && Route(c, cycle) && To(c, cycle) == From(c, cycle) && i < |cycle|
    ensures ConfirmationsAt(c, c.pathways[cycle[i]].key.src) == ConfirmationsAt(c, From(c, cycle))
    ensures ConfirmationsAt(c, c.pathways[cycle[i]].key.dst) == ConfirmationsAt(c, From(c, cycle))
  {
    RoutePart(c, cycle, 0, i + 1);
    ConfirmationsNeverIncrease(c, cycle[0..i + 1]);
    RoutePart(c, cycle, i, |cycle|);
    ConfirmationsNeverIncrease(c, cycle[i..|cycle|]);
    assert PathwayOk(c, ByEid(c.chains), c.pathways[cycle[i]]);
    if i > 0 {
      RoutePart(c, cycle, 0, i);
      ConfirmationsNeverIncrease(c, cycle[0..i]);
      assert c.pathways[cycle[i - 1]].key.dst == c.pathways[cycle[i - 1 + 1]].key.src;
    }
    if i < |cycle| - 1 {
      RoutePart(c, cycle, i + 1, |cycle|);
      ConfirmationsNeverIncrease(c, cycle[i + 1..|cycle|]);
    }
  }

  /** Two pathways in opposite directions join chains with equal confirmations. */
  lemma ReciprocalConfirmationsEqual(c: Config, a: nat, b: nat)
    requires Accepted(c) && a < |c.pathways| && b < |c.pathways|
    requires c.pathways[a].key.src == c.pathways[b].key.dst && c.pathways[a].key.dst == c.pathways[b].key.src
    ensures ConfirmationsAt(c, c.pathways[a].key.src) == ConfirmationsAt(c, c.pathways[a].key.dst)
  {
    CycleConfirmationsEqual(c, [a, b], 0);
  }

  /** The poll and replacement intervals of an accepted config survive the conversion to nanoseconds. */
  lemma AcceptedIntervalsFit(c: Config, i: nat)
    requires Accepted(c) && i < |c.chains|
    ensures PricingTiming.Duration(c.chains[i].pollSeconds) == c.chains[i].pollSeconds * PricingTiming.NANOS_PER_SECOND
    ensures PricingTiming.Duration(c.staleReplacementSeconds) == c.staleReplacementSeconds * PricingTiming.NANOS_PER_SECOND
  {
    assert ChainOk(c, c.chains[i]);
    PricingTiming.DurationExactIffOk(c.chains[i].pollSeconds);
    PricingTiming.DurationExactIffOk(c.staleReplacementSeconds);
  }
}
