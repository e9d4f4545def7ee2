/** The compile of an ASP's peers and outbound routes into the tables selection reads: the
    Signalling Gateway table with each SGP's candidate lists, the same SGPs by identity, and
    each MTP Route's candidates by gateway. */
module RoutingInventory {
  import opened Common
  import opened PointCodes
  import opened Sequences
  import opened RouteCandidates

  /** Whether the wire binding is one the compile accepts beside the others of its SGP. */
  datatype ServerConfig = ServerConfig(id: string, bindingValid: bool)

  datatype SgpConfig = SgpConfig(id: string, servers: seq<ServerConfig>)

  datatype GatewayConfig = GatewayConfig(id: string, sgps: seq<SgpConfig>)

  datatype RoutingConfig = RoutingConfig(
    modeValid: bool,
    /** The SGP selection modes, by whether each is a supported one. */
    sgpSelection: map<string, bool>,
    paths: seq<Path>,
    routes: seq<Route>)

  datatype Identity = Identity(gateway: string, process: string)

  datatype RouteGateway = RouteGateway(id: string, candidates: seq<Candidate>)

  datatype MtpRoute = MtpRoute(
    id: string,
    destinationPointCode: uint32,
    mask: byte,
    serviceIndicators: seq<byte>,
    originatingPointCodes: seq<uint32>,
    gateways: seq<RouteGateway>)

  /** The route as compiled, before its paths are bound. */
  function Unbound(r: Route): MtpRoute {
    MtpRoute(r.id, r.destinationPointCode, r.mask, r.serviceIndicators, r.originatingPointCodes, [])
  }

  datatype Fault =
    | EmptyId
    | Duplicate(id: string)
    | NothingIn(id: string)
    | InvalidBinding(id: string)
    | InvalidLabel(id: string)
    | InvalidMode
    | Unprovisioned(id: string)
    | Unserved(id: string)
    | ReachedTwice(gateway: string, server: string)
    | NoSelection(gateway: string)
    | Unreferenced(id: string)
    | InvalidLimits

  // ---- The two views of the SGPs ----

  predicate Listed(gs: seq<Gateway>, k: Identity) {
    exists i, j :: 0 <= i < |gs| && 0 <= j < |gs[i].sgps| && k == Identity(gs[i].id, gs[i].sgps[j].id)
  }

  ghost predicate DistinctGateways(gs: seq<Gateway>) {
    forall i, j :: 0 <= i < j < |gs| ==> gs[i].id != gs[j].id
  }

  ghost predicate DistinctSgps(g: Gateway) {
    forall i, j :: 0 <= i < j < |g.sgps| ==> g.sgps[i].id != g.sgps[j].id
  }

  /** sgpByIdentity holds exactly the gateway table's SGPs. */
  ghost predicate Agrees(gs: seq<Gateway>, m: map<Identity, Sgp>) {
    && DistinctGateways(gs)
    && (forall i :: 0 <= i < |gs| ==> DistinctSgps(gs[i]))
    && (forall i, j :: 0 <= i < |gs| && 0 <= j < |gs[i].sgps| ==>
          Identity(gs[i].id, gs[i].sgps[j].id) in m && m[Identity(gs[i].id, gs[i].sgps[j].id)] == gs[i].sgps[j])
    && (forall k :: k in m ==> Listed(gs, k))
  }

  lemma AgreesNewGateway(gs: seq<Gateway>, m: map<Identity, Sgp>, id: string)
    requires Agrees(gs, m) && forall i :: 0 <= i < |gs| ==> gs[i].id != id
    ensures Agrees(gs + [Gateway(id, [])], m)
  {
    var hs := gs + [Gateway(id, [])];
    forall k | k in m ensures Listed(hs, k) {
      assert Listed(gs, k);
      var i, j :| 0 <= i < |gs| && 0 <= j < |gs[i].sgps| && k == Identity(gs[i].id, gs[i].sgps[j].id);
      assert hs[i] == gs[i];
    }
  }

  lemma AgreesAddSgp(gs: seq<Gateway>, g: Gateway, m: map<Identity, Sgp>, s: Sgp)
    requires Agrees(gs + [g], m) && forall j :: 0 <= j < |g.sgps| ==> g.sgps[j].id != s.id
    ensures Agrees(gs + [g.(sgps := g.sgps + [s])], m[Identity(g.id, s.id) := s])
  {
    hide Listed;
    var before, h := gs + [g], g.(sgps := g.sgps + [s]);
    var after, n := gs + [h], m[Identity(g.id, s.id) := s];
    assert before[|gs|] == g && forall i :: 0 <= i < |after| ==> after[i].id == before[i].id;
    assert DistinctGateways(after);
    forall i | 0 <= i < |after| ensures DistinctSgps(after[i]) {
      assert DistinctSgps(before[i]);
    }
    forall i, j | 0 <= i < |after| && 0 <= j < |after[i].sgps|
      ensures Identity(after[i].id, after[i].sgps[j].id) in n && n[Identity(after[i].id, after[i].sgps[j].id)] == after[i].sgps[j]
    {
      if i < |gs| {
        assert before[i] == after[i] && before[i].id != before[|gs|].id;
      } else if j < |g.sgps| {
        assert before[i].sgps[j] == after[i].sgps[j];
      }
    }
    forall k | k in n ensures Listed(after, k) { ListedAfterAdd(gs, g, s, k, m); }
  }

  lemma ListedAfterAdd(gs: seq<Gateway>, g: Gateway, s: Sgp, k: Identity, m: map<Identity, Sgp>)
    requires k == Identity(g.id, s.id) || Listed(gs + [g], k)
    ensures Listed(gs + [g.(sgps := g.sgps + [s])], k)
  {
    var before, after := gs + [g], gs + [g.(sgps := g.sgps + [s])];
    if k == Identity(g.id, s.id) {
      assert after[|gs|].sgps[|g.sgps|] == s;
    } else {
      var i, j :| 0 <= i < |before| && 0 <= j < |before[i].sgps| && k == Identity(before[i].id, before[i].sgps[j].id);
      assert after[i].id == before[i].id && after[i].sgps[j] == before[i].sgps[j];
    }
  }

  function Replaced(gs: seq<Gateway>, i: nat, j: nat, s: Sgp): seq<Gateway>
    requires i < |gs| && j < |gs[i].sgps|
  {
    gs[i := gs[i].(sgps := gs[i].sgps[j := s])]
  }

  lemma AgreesReplace(gs: seq<Gateway>, m: map<Identity, Sgp>, i: nat, j: nat, s: Sgp)
    requires Agrees(gs, m) && i < |gs| && j < |gs[i].sgps| && s.id == gs[i].sgps[j].id
    ensures Agrees(Replaced(gs, i, j, s), m[Identity(gs[i].id, s.id) := s])
  {
    hide Listed;
    var hs, n := Replaced(gs, i, j, s), m[Identity(gs[i].id, s.id) := s];
    forall p | 0 <= p < |hs| ensures DistinctSgps(hs[p]) {
      assert DistinctSgps(gs[p]);
    }
    forall p, q | 0 <= p < |hs| && 0 <= q < |hs[p].sgps|
      ensures Identity(hs[p].id, hs[p].sgps[q].id) in n && n[Identity(hs[p].id, hs[p].sgps[q].id)] == hs[p].sgps[q]
    {
      assert DistinctSgps(gs[p]);
      assert hs[p].sgps[q].id == gs[p].sgps[q].id;
    }
    forall k | k in n ensures Listed(hs, k) { ListedAfterReplace(gs, i, j, s, k); }
  }

  lemma ListedAfterReplace(gs: seq<Gateway>, i: nat, j: nat, s: Sgp, k: Identity)
    requires i < |gs| && j < |gs[i].sgps| && s.id == gs[i].sgps[j].id
    requires k == Identity(gs[i].id, s.id) || Listed(gs, k)
    ensures Listed(Replaced(gs, i, j, s), k)
  {
    var hs := Replaced(gs, i, j, s);
    assert hs[i].sgps[j].id == s.id;
    if k != Identity(gs[i].id, s.id) {
      var p, q :| 0 <= p < |gs| && 0 <= q < |gs[p].sgps| && k == Identity(gs[p].id, gs[p].sgps[q].id);
      assert hs[p].id == gs[p].id && hs[p].sgps[q].id == gs[p].sgps[q].id;
    }
  }

  // ---- What a compiled configuration is ----

  /** asByID is the inverse of the list. */
  ghost predicate Inverse(asByID: map<string, nat>, servers: seq<string>) {
    && (forall i :: 0 <= i < |servers| ==> servers[i] in asByID && asByID[servers[i]] == i)
    && (forall id :: id in asByID ==> asByID[id] < |servers| && servers[asByID[id]] == id)
  }

  ghost predicate CompiledSgp(c: SgpConfig, s: Sgp) {
    && s.id == c.id && FreshSgp(s)
    && |s.applicationServers| == |c.servers|
    && (forall i :: 0 <= i < |c.servers| ==> s.applicationServers[i] == c.servers[i].id)
    && Inverse(s.asByID, s.applicationServers)
  }

  ghost predicate CompiledGateway(c: GatewayConfig, g: Gateway) {
    g.id == c.id && |g.sgps| == |c.sgps| && forall j :: 0 <= j < |g.sgps| ==> CompiledSgp(c.sgps[j], g.sgps[j])
  }

  ghost predicate CompiledPeers(config: seq<GatewayConfig>, gs: seq<Gateway>) {
    |gs| == |config| && forall i :: 0 <= i < |gs| ==> CompiledGateway(config[i], gs[i])
  }

  predicate GatewayServes(g: Gateway, server: string) {
    exists j :: 0 <= j < |g.sgps| && g.sgps[j].Serves(server)
  }

  // ---- What the compile accepts ----

  ghost predicate AcceptableSgp(c: SgpConfig) {
    && c.servers != []
    && (forall i :: 0 <= i < |c.servers| ==> c.servers[i].id != "" && c.servers[i].bindingValid)
    && (forall i, j :: 0 <= i < j < |c.servers| ==> c.servers[i].id != c.servers[j].id)
  }

  ghost predicate AcceptableGateway(c: GatewayConfig) {
    && c.sgps != []
    && (forall j :: 0 <= j < |c.sgps| ==> c.sgps[j].id != "" && AcceptableSgp(c.sgps[j]))
    && (forall i, j :: 0 <= i < j < |c.sgps| ==> c.sgps[i].id != c.sgps[j].id)
  }

  ghost predicate AcceptablePeers(config: seq<GatewayConfig>) {
    && (forall i :: 0 <= i < |config| ==> config[i].id != "" && AcceptableGateway(config[i]))
    && (forall i, j :: 0 <= i < j < |config| ==> config[i].id != config[j].id)
  }

  /** The bits a mask wildcards: the source's pc & lowPointCodeBits(mask). */
  function LowBits(pc: nat, mask: nat): int {
    pc - ShiftLeft(ShiftRight(pc, mask), mask)
  }

  /** The Destination Point Code is an aligned prefix of at most 24 bits, and neither list
      repeats an element or names a wider Originating Point Code. */
  ghost predicate AcceptableLabel(r: Route) {
    && Aligned(Range(r.destinationPointCode, r.mask))
    && Distinct(r.serviceIndicators)
    && Distinct(r.originatingPointCodes) && (forall pc :: pc in r.originatingPointCodes ==> pc < POINT_CODE_LIMIT)
  }

  ghost predicate AcceptableRoutes(routes: seq<Route>) {
    && DistinctRoutes(routes)
    && (forall k :: 0 <= k < |routes| ==> routes[k].id != "" && routes[k].paths != [] && AcceptableLabel(routes[k]))
  }

  ghost predicate ValidPath(gs: seq<Gateway>, p: Path) {
    && p.id != "" && p.servers != [] && Distinct(p.servers)
    && exists i :: 0 <= i < |gs| && gs[i].id == p.gateway && forall k :: 0 <= k < |p.servers| ==> GatewayServes(gs[i], p.servers[k])
  }

  ghost predicate ValidPaths(gs: seq<Gateway>, paths: seq<Path>) {
    && paths != []
    && (forall i :: 0 <= i < |paths| ==> ValidPath(gs, paths[i]))
    && (forall i, j :: 0 <= i < j < |paths| ==> paths[i].id != paths[j].id)
  }

  /** The compiled map holds exactly the configured paths. */
  ghost predicate Provisions(compiled: map<string, Path>, paths: seq<Path>) {
    && (forall i :: 0 <= i < |paths| ==> paths[i].id in compiled && compiled[paths[i].id] == paths[i])
    && (forall id :: id in compiled ==> compiled[id] in paths && compiled[id].id == id)
  }

  function Pair(e: Entry): (string, string) {
    (e.gateway, e.candidate.server)
  }

  ghost predicate NoPairTwice(log: seq<Entry>) {
    forall i, j :: 0 <= i < j < |log| ==> Pair(log[i]) != Pair(log[j])
  }

  /** What bindOneMTPRoutePaths accepts. */
  ghost predicate Bindable(r: Route, paths: map<string, Path>) {
    && (forall k :: 0 <= k < |r.paths| ==> r.paths[k] in paths)
    && Distinct(r.paths)
    && NoPairTwice(Flatten(r.id, r.paths, paths))
  }

  /** The gateways the paths name, in order. */
  function GatewaysOf(ids: seq<string>, paths: map<string, Path>): seq<string>
    requires forall k :: 0 <= k < |ids| ==> ids[k] in paths
  {
    seq(|ids|, k requires 0 <= k < |ids| => paths[ids[k]].gateway)
  }

  /** A route's gateways in the order its paths first reach them, each with the candidates
      through it in order. */
  ghost predicate Grouped(gs: seq<RouteGateway>, order: seq<string>, log: seq<Entry>) {
    && |gs| == |Dedup(order)|
    && forall p :: 0 <= p < |gs| ==> gs[p] == RouteGateway(Dedup(order)[p], Through(log, Dedup(order)[p]))
  }

  // ---- The compile ----

  method CompileSGPApplicationServers(c: SgpConfig) returns (fault: Option<Fault>, s: Sgp)
    ensures fault.None? ==> CompiledSgp(c, s)
    ensures fault.None? <==> AcceptableSgp(c)
  {
    s := Sgp(c.id, [], map[], map[], []);
    if |c.servers| == 0 { return Some(NothingIn(c.id)), s; }
    var i := 0;
    while i < |c.servers|
      invariant i <= |c.servers|
      invariant s.id == c.id && FreshSgp(s) && |s.applicationServers| == i
      invariant forall k :: 0 <= k < i ==> s.applicationServers[k] == c.servers[k].id && c.servers[k].id != "" && c.servers[k].bindingValid
      invariant Inverse(s.asByID, s.applicationServers)
      invariant forall p, q :: 0 <= p < q < i ==> c.servers[p].id != c.servers[q].id
    {
      var server := c.servers[i];
      if server.id == "" { return Some(EmptyId), s; }
      if server.id in s.asByID {
        assert c.servers[s.asByID[server.id]].id == c.servers[i].id;
        return Some(Duplicate(server.id)), s;
      }
      if !server.bindingValid { return Some(InvalidBinding(server.id)), s; }
      assert forall k :: 0 <= k < i ==> c.servers[k].id == s.applicationServers[k] && c.servers[k].id in s.asByID;
      s := s.(asByID := s.asByID[server.id := i], applicationServers := s.applicationServers + [server.id]);
      i := i + 1;
    }
    return None, s;
  }

  method DuplicateUint8(values: seq<byte>) returns (twice: bool)
    ensures twice <==> !Distinct(values)
  {
    var seen: set<byte> := {};
    for i := 0 to |values|
      invariant seen == set k | 0 <= k < i :: values[k]
      invariant Distinct(values[..i])
    {
      if values[i] in seen { return true; }
      seen := seen + {values[i]};
    }
    assert values[..|values|] == values;
    return false;
  }

  method DuplicateOrInvalidPointCode(values: seq<uint32>) returns (refused: bool)
    ensures refused <==> !Distinct(values) || exists pc :: pc in values && pc >= POINT_CODE_LIMIT
  {
    var seen: set<uint32> := {};
    for i := 0 to |values|
      invariant seen == set k | 0 <= k < i :: values[k]
      invariant Distinct(values[..i]) && forall k :: 0 <= k < i ==> values[k] < POINT_CODE_LIMIT
    {
      if values[i] > 0xffffff {
        assert values[i] in values;
        return true;
      }
      if values[i] in seen { return true; }
      seen := seen + {values[i]};
    }
    assert values[..|values|] == values;
    return false;
  }

  method LabelAccepted(r: Route) returns (ok: bool)
    ensures ok <==> AcceptableLabel(r)
  {
    hide ShiftLeft, ShiftRight, Distinct;
    if r.destinationPointCode > 0xffffff || r.mask > 24 || LowBits(r.destinationPointCode, r.mask) != 0 { return false; }
    var twice := DuplicateUint8(r.serviceIndicators);
    if twice { return false; }
    var refused := DuplicateOrInvalidPointCode(r.originatingPointCodes);
    return !refused;
  }

  /** Appends the route to every gateway's list the path adds to. */
  function WithCandidate(gs: seq<RouteGateway>, position: nat, c: Candidate): seq<RouteGateway>
    requires position < |gs|
  {
    gs[position := gs[position].(candidates := gs[position].candidates + [c])]
  }

  lemma GroupedNext(gs: seq<RouteGateway>, order: seq<string>, log: seq<Entry>, e: Entry, position: nat)
    requires Grouped(gs, order, log) && position < |gs| && gs[position].id == e.gateway
    ensures Grouped(WithCandidate(gs, position, e.candidate), order, log + [e])
  {
    assert (log + [e])[..|log|] == log;
  }

  lemma {:induction false} ThroughNone(log: seq<Entry>, gateway: string)
    requires forall k :: 0 <= k < |log| ==> log[k].gateway != gateway
    ensures Through(log, gateway) == []
  {
    if log != [] { ThroughNone(log[..|log| - 1], gateway); }
  }

  lemma GroupedGateway(gs: seq<RouteGateway>, order: seq<string>, log: seq<Entry>, id: string)
    requires Grouped(gs, order, log) && forall k :: 0 <= k < |log| ==> log[k].gateway in order
    ensures if id in order then Grouped(gs, order + [id], log) else Grouped(gs + [RouteGateway(id, [])], order + [id], log)
  {
    DedupNext(order, id);
    if id !in order { ThroughNone(log, id); }
  }

  ghost predicate CompiledRoutes(routes: seq<Route>, compiled: seq<MtpRoute>, byID: map<string, nat>) {
    && AcceptableRoutes(routes) && |compiled| == |routes|
    && (forall k :: 0 <= k < |routes| ==> compiled[k] == Unbound(routes[k]))
    && (forall k :: 0 <= k < |routes| ==> routes[k].id in byID && byID[routes[k].id] == k)
    && (forall id :: id in byID ==> byID[id] < |routes| && routes[byID[id]].id == id)
  }

  lemma NoRoutes()
    ensures CompiledRoutes([], [], map[])
  {}

  lemma RoutesNext(routes: seq<Route>, i: nat, compiled: seq<MtpRoute>, byID: map<string, nat>)
    requires i < |routes| && CompiledRoutes(routes[..i], compiled, byID)
    requires routes[i].id != "" && routes[i].paths != [] && AcceptableLabel(routes[i]) && routes[i].id !in byID
    ensures CompiledRoutes(routes[..i + 1], compiled + [Unbound(routes[i])], byID[routes[i].id := |compiled|])
  {
    hide AcceptableLabel;
    assert routes[..i + 1] == routes[..i] + [routes[i]];
    assert forall k :: 0 <= k < i ==> routes[..i][k].id in byID;
  }

  lemma RouteTwice(routes: seq<Route>, i: nat, compiled: seq<MtpRoute>, byID: map<string, nat>)
    requires i < |routes| && CompiledRoutes(routes[..i], compiled, byID) && routes[i].id in byID
    ensures !AcceptableRoutes(routes)
  {
    hide AcceptableLabel;
    assert routes[byID[routes[i].id]].id == routes[i].id;
  }

  lemma RouteRefused(routes: seq<Route>, i: nat)
    requires i < |routes| && (routes[i].id == "" || routes[i].paths == [] || !AcceptableLabel(routes[i]))
    ensures !AcceptableRoutes(routes)
  {}

  lemma RoutesAccepted(routes: seq<Route>, compiled: seq<MtpRoute>, byID: map<string, nat>)
    requires CompiledRoutes(routes, compiled, byID)
    ensures AcceptableRoutes(routes)
  {}

  lemma NoPaths()
    ensures Provisions(map[], [])
  {}

  lemma PathsNext(paths: seq<Path>, i: nat, compiled: map<string, Path>)
    requires i < |paths| && Provisions(compiled, paths[..i]) && paths[i].id !in compiled
    ensures Provisions(compiled[paths[i].id := paths[i]], paths[..i + 1])
    ensures forall k :: 0 <= k < i ==> paths[k].id != paths[i].id
  {
    assert paths[..i + 1] == paths[..i] + [paths[i]];
    assert forall k :: 0 <= k < i ==> paths[..i][k].id in compiled;
  }

  lemma PathTwice(paths: seq<Path>, i: nat, compiled: map<string, Path>)
    requires i < |paths| && Provisions(compiled, paths[..i]) && paths[i].id in compiled
    ensures exists k :: 0 <= k < i && paths[k].id == paths[i].id
  {
    var k :| 0 <= k < i && paths[..i][k] == compiled[paths[i].id];
    assert paths[k].id == paths[i].id;
  }

  lemma AgreesDistinct(gs: seq<Gateway>, m: map<Identity, Sgp>)
    requires Agrees(gs, m)
    ensures DistinctGateways(gs)
  {}

  lemma OnlyGateway(gs: seq<Gateway>, g: Gateway)
    requires DistinctGateways(gs) && g in gs
    ensures forall i :: 0 <= i < |gs| && gs[i].id == g.id ==> gs[i] == g
  {}

  /** The set of pairs bound so far, none of them twice. */
  ghost predicate Binds(bound: set<(string, string)>, log: seq<Entry>) {
    && NoPairTwice(log)
    && (forall k :: 0 <= k < |log| ==> Pair(log[k]) in bound)
    && (forall pair :: pair in bound ==> exists k :: 0 <= k < |log| && Pair(log[k]) == pair)
  }

  lemma BindNext(bound: set<(string, string)>, log: seq<Entry>, e: Entry)
    requires Binds(bound, log) && Pair(e) !in bound
    ensures Binds(bound + {Pair(e)}, log + [e])
  {
    var next := log + [e];
    forall pair | pair in bound + {Pair(e)} ensures exists k :: 0 <= k < |next| && Pair(next[k]) == pair {
      if pair == Pair(e) {
        assert next[|log|] == e;
      } else {
        var k :| 0 <= k < |log| && Pair(log[k]) == pair;
        assert next[k] == log[k];
      }
    }
  }

  lemma BoundTwice(bound: set<(string, string)>, log: seq<Entry>, e: Entry, whole: seq<Entry>)
    requires Binds(bound, log) && Pair(e) in bound && log + [e] <= whole
    ensures !NoPairTwice(whole)
  {
    var k :| 0 <= k < |log| && Pair(log[k]) == Pair(e);
    assert whole[k] == (log + [e])[k] && whole[|log|] == (log + [e])[|log|];
  }

  /** Positions by gateway, while a route is bound. */
  ghost predicate Indexes(index: map<string, nat>, gs: seq<RouteGateway>) {
    && (forall p :: 0 <= p < |gs| ==> gs[p].id in index && index[gs[p].id] == p)
    && (forall id :: id in index ==> index[id] < |gs| && gs[index[id]].id == id)
  }

  lemma IndexNext(index: map<string, nat>, gs: seq<RouteGateway>, id: string)
    requires Indexes(index, gs) && id !in index
    ensures Indexes(index[id := |gs|], gs + [RouteGateway(id, [])])
  {}

  lemma IndexMeans(index: map<string, nat>, gs: seq<RouteGateway>)
    requires Indexes(index, gs)
    ensures forall id :: id in index ==> index[id] < |gs| && gs[index[id]].id == id
  {}

  lemma IndexSame(index: map<string, nat>, gs: seq<RouteGateway>, hs: seq<RouteGateway>)
    requires Indexes(index, gs) && |hs| == |gs| && forall p :: 0 <= p < |gs| ==> hs[p].id == gs[p].id
    ensures Indexes(index, hs)
  {}

  lemma GatewaysNext(r: Route, paths: map<string, Path>, k: nat)
    requires k < |r.paths| && forall l :: 0 <= l <= k ==> r.paths[l] in paths
    ensures GatewaysOf(r.paths[..k + 1], paths) == GatewaysOf(r.paths[..k], paths) + [paths[r.paths[k]].gateway]
  {}

  lemma IndexedOrder(index: map<string, nat>, gs: seq<RouteGateway>, order: seq<string>, log: seq<Entry>, id: string)
    requires Indexes(index, gs) && Grouped(gs, order, log)
    ensures id in index <==> id in order
  {
    if id in order {
      assert id in Dedup(order);
      var p :| 0 <= p < |Dedup(order)| && Dedup(order)[p] == id;
      assert gs[p].id == id;
    }
    if id in index { assert Dedup(order)[index[id]] == id; }
  }

  lemma NothingBound(r: Route, paths: map<string, Path>)
    ensures Flatten(r.id, r.paths[..0], paths) == []
    ensures Binds({}, []) && Grouped([], [], []) && Indexes(map[], []) && GatewaysOf(r.paths[..0], paths) == []
  {}

  lemma NothingReplayed(gs: seq<Gateway>)
    ensures ReplayTable(gs, []) == gs
  {}

  lemma BoundPairs(bound: set<(string, string)>, log: seq<Entry>)
    requires Binds(bound, log)
    ensures NoPairTwice(log)
  {}

  /** Every entry so far goes through a gateway the paths so far name. */
  lemma FlattenReaches(r: Route, paths: map<string, Path>, k: nat)
    requires k <= |r.paths| && forall l :: 0 <= l < k ==> r.paths[l] in paths
    ensures forall i :: 0 <= i < |Flatten(r.id, r.paths[..k], paths)| ==>
              Flatten(r.id, r.paths[..k], paths)[i].gateway in GatewaysOf(r.paths[..k], paths)
  {
    hide Flatten;
    forall i | 0 <= i < |Flatten(r.id, r.paths[..k], paths)|
      ensures Flatten(r.id, r.paths[..k], paths)[i].gateway in GatewaysOf(r.paths[..k], paths)
    {
      InFlatten(r.id, r.paths[..k], paths, i);
      var id :| id in r.paths[..k] && id in paths && Flatten(r.id, r.paths[..k], paths)[i].gateway == paths[id].gateway;
      var l :| 0 <= l < k && r.paths[l] == id;
      assert GatewaysOf(r.paths[..k], paths)[l] == paths[id].gateway;
    }
  }

  lemma FlattenNext(r: Route, paths: map<string, Path>, k: nat)
    requires k < |r.paths| && r.paths[k] in paths
    ensures Flatten(r.id, r.paths[..k + 1], paths) == Flatten(r.id, r.paths[..k], paths) + PathEntries(r.id, paths[r.paths[k]])
  {
    assert r.paths[..k + 1][..k] == r.paths[..k];
  }

  lemma PairsPrefix(r: Route, paths: map<string, Path>, k: nat)
    requires k <= |r.paths| && !NoPairTwice(Flatten(r.id, r.paths[..k], paths))
    ensures !NoPairTwice(Flatten(r.id, r.paths, paths))
  {
    FlattenGrows(r.id, r.paths, paths, k);
    var part, whole := Flatten(r.id, r.paths[..k], paths), Flatten(r.id, r.paths, paths);
    var i, j :| 0 <= i < j < |part| && Pair(part[i]) == Pair(part[j]);
    assert whole[i] == part[i] && whole[j] == part[j];
  }

  ghost predicate BoundRoute(routing: RoutingConfig, k: nat, paths: map<string, Path>, compiled: MtpRoute)
    requires k < |routing.routes|
  {
    var r := routing.routes[k];
    && compiled == Unbound(r).(gateways := compiled.gateways) && Bindable(r, paths)
    && Grouped(compiled.gateways, GatewaysOf(r.paths, paths), Flatten(r.id, r.paths, paths))
    && forall p :: 0 <= p < |compiled.gateways| ==> compiled.gateways[p].id in routing.sgpSelection
  }

  /** Every route's paths bind, through gateways with an SGP selection, and every path is used. */
  ghost predicate BindsAll(routing: RoutingConfig, paths: map<string, Path>) {
    && (forall k :: 0 <= k < |routing.routes| ==> BindsOne(routing, k, paths))
    && paths.Keys <= Referenced(routing.routes)
  }

  /** The paths the routes reference. */
  function Referenced(routes: seq<Route>): set<string> {
    set k, id | 0 <= k < |routes| && id in routes[k].paths :: id
  }

  lemma ReferencedNext(routes: seq<Route>, i: nat)
    requires i < |routes|
    ensures Referenced(routes[..i + 1]) == Referenced(routes[..i]) + set id | id in routes[i].paths
  {
    assert routes[..i + 1] == routes[..i] + [routes[i]];
    forall id ensures id in Referenced(routes[..i + 1]) <==> id in Referenced(routes[..i]) || id in routes[i].paths {
      if id in routes[i].paths { assert routes[..i + 1][i] == routes[i]; }
      if id in Referenced(routes[..i]) {
        var k :| 0 <= k < i && id in routes[..i][k].paths;
        assert routes[..i + 1][k] == routes[k];
      }
    }
  }

  lemma BoundNow(routing: RoutingConfig, k: nat, paths: map<string, Path>, gateways: seq<RouteGateway>)
    requires k < |routing.routes| && Bindable(routing.routes[k], paths)
    requires Grouped(gateways, GatewaysOf(routing.routes[k].paths, paths), Flatten(routing.routes[k].id, routing.routes[k].paths, paths))
    requires forall p :: 0 <= p < |gateways| ==> gateways[p].id in routing.sgpSelection
    ensures BoundRoute(routing, k, paths, Unbound(routing.routes[k]).(gateways := gateways)) && BindsOne(routing, k, paths)
  {
    SelectedGateways(routing, k, paths, gateways);
  }

  ghost predicate BindsOne(routing: RoutingConfig, k: nat, paths: map<string, Path>)
    requires k < |routing.routes|
  {
    var r := routing.routes[k];
    Bindable(r, paths) && forall l :: 0 <= l < |r.paths| ==> paths[r.paths[l]].gateway in routing.sgpSelection
  }

  /** What is checked before any path is bound. */
  ghost predicate AcceptableRouting(gs: seq<Gateway>, routing: RoutingConfig) {
    && routing.modeValid && routing.routes != [] && AcceptableRoutes(routing.routes)
    && SelectionsSupported(gs, routing)
    && ValidPaths(gs, routing.paths)
  }

  /** Every configured selection names a provisioned gateway and a supported mode. */
  ghost predicate SelectionsSupported(gs: seq<Gateway>, routing: RoutingConfig) {
    forall id :: id in routing.sgpSelection ==> routing.sgpSelection[id] && exists i :: 0 <= i < |gs| && gs[i].id == id
  }

  lemma NothingEntered(paths: map<string, Path>)
    ensures AllEntries([], paths) == [] && Referenced([]) == {}
  {}

  lemma EntriesNext(routes: seq<Route>, paths: map<string, Path>, i: nat)
    requires i < |routes|
    ensures AllEntries(routes[..i + 1], paths) == AllEntries(routes[..i], paths) + Flatten(routes[i].id, routes[i].paths, paths)
  {
    assert routes[..i + 1][..i] == routes[..i];
  }

  lemma Unbindable(routing: RoutingConfig, k: nat, paths: map<string, Path>)
    requires k < |routing.routes| && !Bindable(routing.routes[k], paths)
    ensures !BindsOne(routing, k, paths)
  {}

  /** The gateways of a bound route are those its paths name. */
  lemma SelectedGateways(routing: RoutingConfig, k: nat, paths: map<string, Path>, gateways: seq<RouteGateway>)
    requires k < |routing.routes| && Bindable(routing.routes[k], paths)
    requires Grouped(gateways, GatewaysOf(routing.routes[k].paths, paths), Flatten(routing.routes[k].id, routing.routes[k].paths, paths))
    ensures BindsOne(routing, k, paths) <==> forall p :: 0 <= p < |gateways| ==> gateways[p].id in routing.sgpSelection
  {
    hide Flatten, NoPairTwice, Through;
    var ids := routing.routes[k].paths;
    var order := GatewaysOf(ids, paths);
    forall p | 0 <= p < |gateways| ensures gateways[p].id in order {
      assert Dedup(order)[p] in Dedup(order);
    }
    forall l | 0 <= l < |ids| ensures exists p :: 0 <= p < |gateways| && gateways[p].id == paths[ids[l]].gateway {
      assert order[l] in Dedup(order);
      var p :| 0 <= p < |Dedup(order)| && Dedup(order)[p] == order[l];
      assert gateways[p].id == order[l];
    }
    if forall p :: 0 <= p < |gateways| ==> gateways[p].id in routing.sgpSelection {
      forall l | 0 <= l < |ids| ensures paths[ids[l]].gateway in routing.sgpSelection {
        var p :| 0 <= p < |gateways| && gateways[p].id == paths[ids[l]].gateway;
      }
    }
    if BindsOne(routing, k, paths) {
      forall p | 0 <= p < |gateways| ensures gateways[p].id in routing.sgpSelection {
        var l :| 0 <= l < |order| && order[l] == gateways[p].id;
        assert paths[ids[l]].gateway == order[l];
      }
    }
  }

  lemma ProvidedServers(gs: seq<Gateway>, paths: seq<Path>, compiled: map<string, Path>)
    requires ValidPaths(gs, paths) && Provisions(compiled, paths)
    ensures forall id :: id in compiled ==> compiled[id].servers != []
  {
    forall id | id in compiled ensures compiled[id].servers != [] {
      var i :| 0 <= i < |paths| && paths[i] == compiled[id];
      assert ValidPath(gs, paths[i]);
    }
  }

  /** The table still names the configured SGPs and the Application Servers they serve. */
  ghost predicate SameServers(config: seq<GatewayConfig>, gs: seq<Gateway>) {
    && |gs| == |config|
    && forall i :: 0 <= i < |gs| ==>
         && gs[i].id == config[i].id && |gs[i].sgps| == |config[i].sgps|
         && forall j :: 0 <= j < |gs[i].sgps| ==> SameSgp(config[i].sgps[j], gs[i].sgps[j])
  }

  ghost predicate SameSgp(c: SgpConfig, s: Sgp) {
    s.id == c.id && forall server :: s.Serves(server) <==> exists k :: 0 <= k < |c.servers| && c.servers[k].id == server
  }

  ghost predicate AllExact(gs: seq<Gateway>, routes: seq<Route>, paths: map<string, Path>) {
    forall i, j :: 0 <= i < |gs| && 0 <= j < |gs[i].sgps| ==> ListsExact(gs[i].sgps[j], gs[i].id, routes, paths)
  }

  ghost predicate ServedBySome(gs: seq<Gateway>, route: string, e: Entry) {
    exists i, j :: 0 <= i < |gs| && 0 <= j < |gs[i].sgps| && gs[i].id == e.gateway && e.candidate in gs[i].sgps[j].CandidatesFor(route)
  }

  ghost predicate EveryoneServed(gs: seq<Gateway>, routes: seq<Route>, paths: map<string, Path>) {
    forall k :: 0 <= k < |routes| ==>
      forall e :: e in Flatten(routes[k].id, routes[k].paths, paths) ==> ServedBySome(gs, routes[k].id, e)
  }

  lemma CompiledServes(c: SgpConfig, s: Sgp)
    requires CompiledSgp(c, s)
    ensures SameSgp(c, s)
  {
    forall server ensures s.Serves(server) <==> exists k :: 0 <= k < |c.servers| && c.servers[k].id == server {
      if s.Serves(server) { assert c.servers[s.asByID[server]].id == server; }
      if k :| 0 <= k < |c.servers| && c.servers[k].id == server { assert s.applicationServers[k] in s.asByID; }
    }
  }

  lemma PeersServe(config: seq<GatewayConfig>, gs: seq<Gateway>)
    requires CompiledPeers(config, gs)
    ensures SameServers(config, gs)
  {
    hide CompiledSgp, SameSgp;
    forall i, j | 0 <= i < |gs| && 0 <= j < |gs[i].sgps| ensures |gs[i].sgps| == |config[i].sgps| && SameSgp(config[i].sgps[j], gs[i].sgps[j]) {
      assert CompiledGateway(config[i], gs[i]);
      CompiledServes(config[i].sgps[j], gs[i].sgps[j]);
    }
  }

  lemma TableShape(config: seq<GatewayConfig>, base: seq<Gateway>, log: seq<Entry>)
    requires CompiledPeers(config, base)
    ensures SameServers(config, ReplayTable(base, log))
  {
    hide CompiledSgp, SameSgp, ReplayTable, Replay;
    PeersServe(config, base);
    var gs := ReplayTable(base, log);
    forall i | 0 <= i < |gs|
      ensures gs[i].id == config[i].id && |gs[i].sgps| == |config[i].sgps|
      ensures forall j :: 0 <= j < |gs[i].sgps| ==> SameSgp(config[i].sgps[j], gs[i].sgps[j])
    {
      assert CompiledGateway(config[i], base[i]);
      ReplayPointwise(base, log, i);
      forall j | 0 <= j < |gs[i].sgps| ensures SameSgp(config[i].sgps[j], gs[i].sgps[j]) {
        CompiledFresh(config[i].sgps[j], base[i].sgps[j]);
        ReplayCollects(base[i].sgps[j], base[i].id, log, "");
        SameServing(config[i].sgps[j], base[i].sgps[j], gs[i].sgps[j]);
      }
    }
  }

  lemma SameServing(c: SgpConfig, s: Sgp, t: Sgp)
    requires SameSgp(c, s) && t.id == s.id && t.asByID == s.asByID
    ensures SameSgp(c, t)
  {
    assert forall server :: t.Serves(server) <==> s.Serves(server);
  }

  lemma CompiledFresh(c: SgpConfig, s: Sgp)
    requires CompiledSgp(c, s)
    ensures FreshSgp(s)
  {}

  /** asp_config.go:655-930. A successful compile: each SGP's list for each route is exactly
      the order-preserving subsequence of the route's flattened path candidates it serves, and
      every such candidate is in the list of some SGP. */
  lemma CompiledIsExact(config: seq<GatewayConfig>, base: seq<Gateway>, routes: seq<Route>, configured: seq<Path>, paths: map<string, Path>)
    requires CompiledPeers(config, base) && ValidPaths(base, configured) && Provisions(paths, configured) && DistinctRoutes(routes)
    ensures AllExact(ReplayTable(base, AllEntries(routes, paths)), routes, paths)
    ensures EveryoneServed(ReplayTable(base, AllEntries(routes, paths)), routes, paths)
  {
    hide ReplayTable, ListsExact, Flatten, AllEntries, CompiledSgp, ValidPaths, Provisions;
    var gs := ReplayTable(base, AllEntries(routes, paths));
    forall i | 0 <= i < |gs|
      ensures gs[i].id == base[i].id && |gs[i].sgps| == |base[i].sgps|
      ensures forall j :: 0 <= j < |gs[i].sgps| ==> gs[i].sgps[j].asByID == base[i].sgps[j].asByID && ListsExact(gs[i].sgps[j], gs[i].id, routes, paths)
    {
      assert CompiledGateway(config[i], base[i]);
      ReplayPointwise(base, AllEntries(routes, paths), i);
      forall j | 0 <= j < |gs[i].sgps| ensures gs[i].sgps[j].asByID == base[i].sgps[j].asByID && ListsExact(gs[i].sgps[j], gs[i].id, routes, paths) {
        CompiledFresh(config[i].sgps[j], base[i].sgps[j]);
        ReplayedListsExact(base, routes, paths, i, j);
      }
    }
    forall k, e | 0 <= k < |routes| && e in Flatten(routes[k].id, routes[k].paths, paths) ensures ServedBySome(gs, routes[k].id, e) {
      var i, j := SomeServer(base, configured, paths, routes[k], e);
      ServedThere(gs, routes, paths, k, e, i, j);
    }
  }

  lemma SomeServer(base: seq<Gateway>, configured: seq<Path>, paths: map<string, Path>, r: Route, e: Entry) returns (i: nat, j: nat)
    requires ValidPaths(base, configured) && Provisions(paths, configured) && e in Flatten(r.id, r.paths, paths)
    ensures i < |base| && j < |base[i].sgps| && base[i].id == e.gateway && base[i].sgps[j].Serves(e.candidate.server)
  {
    hide Flatten;
    var log := Flatten(r.id, r.paths, paths);
    var n :| 0 <= n < |log| && log[n] == e;
    InFlatten(r.id, r.paths, paths, n);
    var id :| id in r.paths && id in paths && e.gateway == paths[id].gateway && e.candidate.server in paths[id].servers;
    var q :| 0 <= q < |configured| && configured[q] == paths[id];
    assert ValidPath(base, configured[q]);
    i :| 0 <= i < |base| && base[i].id == e.gateway
         && forall k :: 0 <= k < |paths[id].servers| ==> GatewayServes(base[i], paths[id].servers[k]);
    assert GatewayServes(base[i], e.candidate.server);
    j :| 0 <= j < |base[i].sgps| && base[i].sgps[j].Serves(e.candidate.server);
  }

  lemma ServedThere(gs: seq<Gateway>, routes: seq<Route>, paths: map<string, Path>, k: nat, e: Entry, i: nat, j: nat)
    requires k < |routes| && e in Flatten(routes[k].id, routes[k].paths, paths)
    requires i < |gs| && j < |gs[i].sgps| && gs[i].id == e.gateway && gs[i].sgps[j].Serves(e.candidate.server)
    requires ListsExact(gs[i].sgps[j], gs[i].id, routes, paths)
    ensures ServedBySome(gs, routes[k].id, e)
  {
    hide Flatten, Served, Carried;
    InServed(Flatten(routes[k].id, routes[k].paths, paths), e.gateway, gs[i].sgps[j], e.candidate);
  }

  /** Every compiled route is carried by some SGP, so its status is never that of no gateway. */
  lemma EveryRouteCarried(gs: seq<Gateway>, routes: seq<Route>, paths: map<string, Path>, k: nat)
    requires EveryoneServed(gs, routes, paths) && k < |routes| && routes[k].paths != [] && Bindable(routes[k], paths)
    requires forall id :: id in paths ==> paths[id].servers != []
    ensures exists i, j :: 0 <= i < |gs| && 0 <= j < |gs[i].sgps| && gs[i].sgps[j].Carries(routes[k].id)
  {
    hide Flatten, NoPairTwice;
    var r := routes[k];
    var log := Flatten(r.id, r.paths, paths);
    FlattenGrows(r.id, r.paths, paths, 1);
    FlattenNext(r, paths, 0);
    var first := PathEntries(r.id, paths[r.paths[0]]);
    assert |Flatten(r.id, r.paths[..1], paths)| > 0;
    assert log[0] in log;
    assert ServedBySome(gs, r.id, log[0]);
    var i, j :| 0 <= i < |gs| && 0 <= j < |gs[i].sgps| && log[0].candidate in gs[i].sgps[j].CandidatesFor(r.id);
    assert gs[i].sgps[j].Carries(r.id);
  }

  // ---- Limits ----

  /** The record limits as configured; zero selects a default. */
  datatype Limits = Limits(
    indicationQueueSize: int64,
    affectedPointCodes: int64,
    recordsPerRoute: int64,
    recordsPerGateway: int64,
    records: int64,
    destinationRecords: int64)

  function OrDefault(v: int64, otherwise: int64): int64 {
    if v == 0 then otherwise else v
  }

  function SnapshotASPLimits(c: Limits, gateways: nat): Option<Limits> {
    if gateways == 0 || c.indicationQueueSize < 0 || c.affectedPointCodes < 0 || c.recordsPerRoute < 0
       || c.recordsPerGateway < 0 || c.records < 0 || c.destinationRecords < 0
    then None
    else
      var records := OrDefault(c.records, 16384);
      var perGateway := OrDefault(c.recordsPerGateway, records / gateways);
      if records < gateways || perGateway > records / gateways then None
      else Some(Limits(OrDefault(c.indicationQueueSize, 256), OrDefault(c.affectedPointCodes, 1024), OrDefault(c.recordsPerRoute, 2048),
                       perGateway, records, OrDefault(c.destinationRecords, 16384)))
  }

  /** asp_config.go:484-499. What the Endpoint's limit needs for no Signalling Gateway to use
      up another's budget: every reservation is at least one record and all of them fit; and
      an explicit reservation that would not fit is refused. */
  lemma ReservationsFit(c: Limits, gateways: nat)
    ensures match SnapshotASPLimits(c, gateways)
            case Some(l) => 1 <= l.recordsPerGateway && l.recordsPerGateway * gateways <= l.records
            case None => true
    ensures gateways > 0 && c.recordsPerGateway > 0 && c.recordsPerGateway * gateways > OrDefault(c.records, 16384) ==> SnapshotASPLimits(c, gateways).None?
  {
    if gateways > 0 {
      var records := OrDefault(c.records, 16384);
      var share := records / gateways;
      assert share * gateways <= records;
      forall per: int | 0 <= per <= share ensures per * gateways <= records {
        assert (share - per) * gateways >= 0;
      }
      if records >= gateways { assert share >= 1; }
    }
  }

  /** The compile's snapshot, filled in place. */
  class Inventory {
    var signallingGateways: seq<Gateway>
    var sgpByIdentity: map<Identity, Sgp>
    var mtpRoutes: seq<MtpRoute>
    var mtpRouteByID: map<string, nat>

    constructor ()
      ensures signallingGateways == [] && sgpByIdentity == map[] && mtpRoutes == [] && mtpRouteByID == map[]
    {
      signallingGateways, sgpByIdentity, mtpRoutes, mtpRouteByID := [], map[], [], map[];
    }

    method CompileGateway(c: GatewayConfig) returns (fault: Option<Fault>, g: Gateway)
      requires Agrees(signallingGateways + [Gateway(c.id, [])], sgpByIdentity)
      modifies `sgpByIdentity
      ensures fault.None? <==> AcceptableGateway(c)
      ensures fault.None? ==> CompiledGateway(c, g) && Agrees(signallingGateways + [g], sgpByIdentity)
    {
      hide Agrees, CompiledSgp, AcceptableSgp;
      g := Gateway(c.id, []);
      if |c.sgps| == 0 { return Some(NothingIn(c.id)), g; }
      var seen: set<string> := {};
      var j := 0;
      while j < |c.sgps|
        invariant j <= |c.sgps| == |c.sgps| && g.id == c.id && |g.sgps| == j
        invariant seen == set k | 0 <= k < j :: c.sgps[k].id
        invariant forall k :: 0 <= k < j ==> c.sgps[k].id != "" && AcceptableSgp(c.sgps[k]) && g.sgps[k].id == c.sgps[k].id
        invariant forall k, l :: 0 <= k < l < j ==> c.sgps[k].id != c.sgps[l].id
        invariant forall k :: 0 <= k < j ==> CompiledSgp(c.sgps[k], g.sgps[k])
        invariant Agrees(signallingGateways + [g], sgpByIdentity)
      {
        if c.sgps[j].id == "" { return Some(EmptyId), g; }
        if c.sgps[j].id in seen { return Some(Duplicate(c.sgps[j].id)), g; }
        var failed, s := CompileSGPApplicationServers(c.sgps[j]);
        if failed.Some? { return failed, g; }
        assert s.id == c.sgps[j].id by { CompiledId(c.sgps[j], s); }
        AgreesAddSgp(signallingGateways, g, sgpByIdentity, s);
        seen := seen + {c.sgps[j].id};
        g := g.(sgps := g.sgps + [s]);
        sgpByIdentity := sgpByIdentity[Identity(g.id, s.id) := s];
        j := j + 1;
      }
      return None, g;
    }

    method CompilePeerInventory(config: seq<GatewayConfig>) returns (fault: Option<Fault>)
      requires signallingGateways == [] && sgpByIdentity == map[]
      modifies `signallingGateways, `sgpByIdentity
      ensures fault.None? <==> AcceptablePeers(config)
      ensures fault.None? ==> CompiledPeers(config, signallingGateways) && Agrees(signallingGateways, sgpByIdentity)
    {
      hide Agrees, CompiledGateway, AcceptableGateway;
      AgreesEmpty();
      var seen: set<string> := {};
      var i := 0;
      while i < |config|
        invariant i <= |config| && |signallingGateways| == i
        invariant forall k :: 0 <= k < i ==> CompiledGateway(config[k], signallingGateways[k])
        invariant seen == set k | 0 <= k < i :: config[k].id
        invariant forall k :: 0 <= k < i ==> config[k].id != "" && AcceptableGateway(config[k]) && signallingGateways[k].id == config[k].id
        invariant forall k, l :: 0 <= k < l < i ==> config[k].id != config[l].id
        invariant Agrees(signallingGateways, sgpByIdentity)
      {
        if config[i].id == "" { return Some(EmptyId); }
        if config[i].id in seen { return Some(Duplicate(config[i].id)); }
        AgreesNewGateway(signallingGateways, sgpByIdentity, config[i].id);
        var failed, g := CompileGateway(config[i]);
        if failed.Some? { return failed; }
        assert g.id == config[i].id by { CompiledGatewayId(config[i], g); }
        seen := seen + {config[i].id};
        signallingGateways := signallingGateways + [g];
        i := i + 1;
      }
      return None;
    }

    /** Every SGP of the gateway that serves the candidate's Application Server gets it, in
        both views. */
    method RecordSGPRouteCandidate(e: Entry)
      requires Agrees(signallingGateways, sgpByIdentity)
      modifies `signallingGateways, `sgpByIdentity
      ensures signallingGateways == RecordedTable(old(signallingGateways), e)
      ensures Agrees(signallingGateways, sgpByIdentity)
    {
      hide Recorded, Listed;
      var i := 0;
      while i < |signallingGateways|
        invariant i <= |signallingGateways|
        invariant signallingGateways == old(signallingGateways) && sgpByIdentity == old(sgpByIdentity)
        invariant forall k :: 0 <= k < i ==> signallingGateways[k].id != e.gateway
      {
        if signallingGateways[i].id == e.gateway {
          RecordInGateway(i, e);
          assert signallingGateways == RecordedTable(old(signallingGateways), e);
          return;
        }
        i := i + 1;
      }
      assert signallingGateways == RecordedTable(old(signallingGateways), e);
    }

    method RecordInGateway(i: nat, e: Entry)
      requires Agrees(signallingGateways, sgpByIdentity) && i < |signallingGateways| && signallingGateways[i].id == e.gateway
      modifies `signallingGateways, `sgpByIdentity
      ensures signallingGateways == old(signallingGateways)[i := RecordedIn(old(signallingGateways)[i], e)]
      ensures Agrees(signallingGateways, sgpByIdentity)
    {
      hide Agrees, Recorded;
      ghost var was := signallingGateways[i];
      var j := 0;
      while j < |signallingGateways[i].sgps|
        invariant |signallingGateways| == |old(signallingGateways)|
        invariant signallingGateways == old(signallingGateways)[i := signallingGateways[i]]
        invariant signallingGateways[i].id == was.id && |signallingGateways[i].sgps| == |was.sgps|
        invariant j <= |was.sgps|
        invariant forall k :: 0 <= k < j ==> signallingGateways[i].sgps[k] == Recorded(was.sgps[k], e)
        invariant forall k :: j <= k < |was.sgps| ==> signallingGateways[i].sgps[k] == was.sgps[k]
        invariant Agrees(signallingGateways, sgpByIdentity)
      {
        var s := signallingGateways[i].sgps[j];
        var t := RecordedSgp(s, e);
        if s.Serves(e.candidate.server) {
          AgreesReplace(signallingGateways, sgpByIdentity, i, j, t);
          sgpByIdentity := sgpByIdentity[Identity(e.gateway, t.id) := t];
        } else {
          assert signallingGateways[i].sgps[j := t] == signallingGateways[i].sgps;
          assert Replaced(signallingGateways, i, j, t) == signallingGateways;
        }
        signallingGateways := Replaced(signallingGateways, i, j, t);
        j := j + 1;
      }
      assert signallingGateways[i].sgps == RecordedIn(was, e).sgps;
    }

    // ---- Routes and paths ----

    method CompileMTPRoutes(routes: seq<Route>) returns (fault: Option<Fault>)
      requires mtpRoutes == [] && mtpRouteByID == map[]
      modifies `mtpRoutes, `mtpRouteByID
      ensures fault.None? <==> AcceptableRoutes(routes)
      ensures fault.None? ==> CompiledRoutes(routes, mtpRoutes, mtpRouteByID)
    {
      hide CompiledRoutes, AcceptableRoutes, AcceptableLabel;
      NoRoutes();
      var i := 0;
      while i < |routes|
        invariant i <= |routes|
        invariant CompiledRoutes(routes[..i], mtpRoutes, mtpRouteByID) && |mtpRoutes| == i
      {
        var r := routes[i];
        if r.id == "" {
          RouteRefused(routes, i);
          return Some(EmptyId);
        }
        if r.id in mtpRouteByID {
          RouteTwice(routes, i, mtpRoutes, mtpRouteByID);
          return Some(Duplicate(r.id));
        }
        var labelled := LabelAccepted(r);
        if !labelled {
          RouteRefused(routes, i);
          return Some(InvalidLabel(r.id));
        }
        if |r.paths| == 0 {
          RouteRefused(routes, i);
          return Some(NothingIn(r.id));
        }
        RoutesNext(routes, i, mtpRoutes, mtpRouteByID);
        mtpRouteByID := mtpRouteByID[r.id := |mtpRoutes|];
        mtpRoutes := mtpRoutes + [Unbound(r)];
        i := i + 1;
      }
      assert routes[..i] == routes;
      RoutesAccepted(routes, mtpRoutes, mtpRouteByID);
      return None;
    }

    method FindGateway(id: string) returns (found: Option<Gateway>)
      ensures found.Some? <==> exists i :: 0 <= i < |signallingGateways| && signallingGateways[i].id == id
      ensures found.Some? ==> found.value in signallingGateways && found.value.id == id
    {
      var i := 0;
      while i < |signallingGateways|
        invariant i <= |signallingGateways|
        invariant forall k :: 0 <= k < i ==> signallingGateways[k].id != id
      {
        if signallingGateways[i].id == id { return Some(signallingGateways[i]); }
        i := i + 1;
      }
      return None;
    }

    method CompileRoutePath(p: Path) returns (fault: Option<Fault>)
      requires DistinctGateways(signallingGateways)
      ensures fault.None? <==> ValidPath(signallingGateways, p)
    {
      if p.id == "" { return Some(EmptyId); }
      var gateway := FindGateway(p.gateway);
      if gateway.None? { return Some(Unprovisioned(p.gateway)); }
      OnlyGateway(signallingGateways, gateway.value);
      if |p.servers| == 0 { return Some(NothingIn(p.id)); }
      var named: set<string> := {};
      var i := 0;
      while i < |p.servers|
        invariant i <= |p.servers| && named == set k | 0 <= k < i :: p.servers[k]
        invariant forall k :: 0 <= k < i ==> GatewayServes(gateway.value, p.servers[k])
        invariant forall k, l :: 0 <= k < l < i ==> p.servers[k] != p.servers[l]
      {
        if p.servers[i] in named { return Some(Duplicate(p.servers[i])); }
        if !GatewayServes(gateway.value, p.servers[i]) { return Some(Unserved(p.servers[i])); }
        named := named + {p.servers[i]};
        i := i + 1;
      }
      return None;
    }

    method CompileRoutePaths(paths: seq<Path>) returns (fault: Option<Fault>, compiled: map<string, Path>)
      requires DistinctGateways(signallingGateways)
      ensures fault.None? <==> ValidPaths(signallingGateways, paths)
      ensures fault.None? ==> Provisions(compiled, paths)
    {
      hide ValidPath, Provisions, DistinctGateways;
      NoPaths();
      compiled := map[];
      if |paths| == 0 { return Some(NothingIn("")), compiled; }
      var i := 0;
      while i < |paths|
        invariant i <= |paths| && Provisions(compiled, paths[..i])
        invariant forall k :: 0 <= k < i ==> ValidPath(signallingGateways, paths[k])
        invariant forall k, l :: 0 <= k < l < i ==> paths[k].id != paths[l].id
      {
        if paths[i].id in compiled {
          PathTwice(paths, i, compiled);
          return Some(Duplicate(paths[i].id)), compiled;
        }
        var failed := CompileRoutePath(paths[i]);
        if failed.Some? { return failed, compiled; }
        PathsNext(paths, i, compiled);
        compiled := compiled[paths[i].id := paths[i]];
        i := i + 1;
      }
      assert paths[..i] == paths;
      return None, compiled;
    }

    // ---- Binding ----

    /** One path's Application Servers, in order, onto the route's gateway at `position`. */
    method BindPath(r: Route, p: Path, position: nat, gateways: seq<RouteGateway>, bound: set<(string, string)>,
                    ghost order: seq<string>, ghost log: seq<Entry>)
      returns (fault: Option<Fault>, gateways': seq<RouteGateway>, bound': set<(string, string)>)
      requires Agrees(signallingGateways, sgpByIdentity)
      requires Grouped(gateways, order, log) && position < |gateways| && gateways[position].id == p.gateway
      requires Binds(bound, log)
      modifies `signallingGateways, `sgpByIdentity
      ensures fault.None? ==>
                && signallingGateways == ReplayTable(old(signallingGateways), PathEntries(r.id, p))
                && Agrees(signallingGateways, sgpByIdentity)
                && Grouped(gateways', order, log + PathEntries(r.id, p)) && |gateways'| == |gateways|
                && (forall k :: 0 <= k < |gateways| ==> gateways'[k].id == gateways[k].id)
                && Binds(bound', log + PathEntries(r.id, p))
      ensures fault.Some? ==> !NoPairTwice(log + PathEntries(r.id, p))
    {
      hide Agrees, Grouped, RecordedTable;
      gateways', bound' := gateways, bound;
      ghost var entries := PathEntries(r.id, p);
      var i := 0;
      assert log + entries[..0] == log;
      while i < |p.servers|
        invariant i <= |p.servers|
        invariant signallingGateways == ReplayTable(old(signallingGateways), entries[..i])
        invariant Agrees(signallingGateways, sgpByIdentity)
        invariant Grouped(gateways', order, log + entries[..i]) && |gateways'| == |gateways|
        invariant forall k :: 0 <= k < |gateways| ==> gateways'[k].id == gateways[k].id
        invariant Binds(bound', log + entries[..i])
      {
        assert entries[..i + 1] == entries[..i] + [entries[i]] && log + entries[..i + 1] == log + entries[..i] + [entries[i]];
        if (p.gateway, p.servers[i]) in bound' {
          BoundTwice(bound', log + entries[..i], entries[i], log + entries);
          return Some(ReachedTwice(p.gateway, p.servers[i])), gateways', bound';
        }
        BindNext(bound', log + entries[..i], entries[i]);
        bound' := bound' + {(p.gateway, p.servers[i])};
        var candidate := Candidate(p.id, p.servers[i]);
        GroupedNext(gateways', order, log + entries[..i], entries[i], position);
        gateways' := WithCandidate(gateways', position, candidate);
        RecordSGPRouteCandidate(Entry(r.id, p.gateway, candidate));
        assert entries[..i + 1][..i] == entries[..i];
        i := i + 1;
      }
      assert entries[..i] == entries;
      return None, gateways', bound';
    }

    method BindOneMTPRoutePaths(r: Route, paths: map<string, Path>, referenced: set<string>)
      returns (fault: Option<Fault>, gateways: seq<RouteGateway>, referenced': set<string>)
      requires Agrees(signallingGateways, sgpByIdentity)
      requires forall id :: id in paths ==> paths[id].servers != []
      modifies `signallingGateways, `sgpByIdentity
      ensures fault.None? <==> Bindable(r, paths)
      ensures fault.None? ==>
                && signallingGateways == ReplayTable(old(signallingGateways), Flatten(r.id, r.paths, paths))
                && Agrees(signallingGateways, sgpByIdentity)
                && Grouped(gateways, GatewaysOf(r.paths, paths), Flatten(r.id, r.paths, paths))
                && referenced' == referenced + set id | id in r.paths
    {
      hide Agrees, Grouped, ReplayTable, Binds, NoPairTwice, Flatten, Dedup, GatewaysOf, PathEntries, Indexes;
      gateways, referenced' := [], referenced;
      var index: map<string, nat> := map[];
      var named: set<string> := {};
      var bound: set<(string, string)> := {};
      NothingBound(r, paths);
      NothingReplayed(signallingGateways);
      var k := 0;
      while k < |r.paths|
        invariant k <= |r.paths|
        invariant forall l :: 0 <= l < k ==> r.paths[l] in paths
        invariant forall l, m :: 0 <= l < m < k ==> r.paths[l] != r.paths[m]
        invariant named == set id | id in r.paths[..k]
        invariant referenced' == referenced + set id | id in r.paths[..k]
        invariant Indexes(index, gateways)
        invariant Grouped(gateways, GatewaysOf(r.paths[..k], paths), Flatten(r.id, r.paths[..k], paths))
        invariant signallingGateways == ReplayTable(old(signallingGateways), Flatten(r.id, r.paths[..k], paths))
        invariant Agrees(signallingGateways, sgpByIdentity)
        invariant Binds(bound, Flatten(r.id, r.paths[..k], paths))
      {
        var id := r.paths[k];
        if id !in paths { return Some(Unprovisioned(id)), gateways, referenced'; }
        if id in named { return Some(Duplicate(id)), gateways, referenced'; }
        assert r.paths[..k + 1] == r.paths[..k] + [id];
        named, referenced' := named + {id}, referenced' + {id};
        var p := paths[id];
        ghost var order, log := GatewaysOf(r.paths[..k], paths), Flatten(r.id, r.paths[..k], paths);
        GatewaysNext(r, paths, k);
        FlattenReaches(r, paths, k);
        GroupedGateway(gateways, order, log, p.gateway);
        IndexedOrder(index, gateways, order, log, p.gateway);
        var position;
        IndexMeans(index, gateways);
        if p.gateway in index {
          position := index[p.gateway];
        } else {
          position := |gateways|;
          IndexNext(index, gateways, p.gateway);
          index := index[p.gateway := position];
          gateways := gateways + [RouteGateway(p.gateway, [])];
        }
        FlattenNext(r, paths, k);
        ReplaySplits(old(signallingGateways), log, PathEntries(r.id, p));
        ghost var before := gateways;
        var failed;
        failed, gateways, bound := BindPath(r, p, position, gateways, bound, order + [p.gateway], log);
        if failed.Some? {
          PairsPrefix(r, paths, k + 1);
          return failed, gateways, referenced';
        }
        IndexSame(index, before, gateways);
        k := k + 1;
      }
      assert r.paths[..k] == r.paths;
      BoundPairs(bound, Flatten(r.id, r.paths, paths));
      return None, gateways, referenced';
    }

    /** The inner loop: every gateway that carries the route has an SGP selection mode. */
    static method CheckSelections(routing: RoutingConfig, gateways: seq<RouteGateway>) returns (fault: Option<Fault>)
      ensures fault.None? <==> forall l :: 0 <= l < |gateways| ==> gateways[l].id in routing.sgpSelection
    {
      for j := 0 to |gateways|
        invariant forall l :: 0 <= l < j ==> gateways[l].id in routing.sgpSelection
      {
        if gateways[j].id !in routing.sgpSelection { return Some(NoSelection(gateways[j].id)); }
      }
      return None;
    }

    method BindMTPRoutePaths(routing: RoutingConfig, paths: map<string, Path>) returns (fault: Option<Fault>)
      requires Agrees(signallingGateways, sgpByIdentity)
      requires forall id :: id in paths ==> paths[id].servers != []
      requires |mtpRoutes| == |routing.routes| && forall k :: 0 <= k < |mtpRoutes| ==> mtpRoutes[k] == Unbound(routing.routes[k])
      modifies `signallingGateways, `sgpByIdentity, `mtpRoutes
      ensures fault.None? <==> BindsAll(routing, paths)
      ensures fault.None? ==>
                && signallingGateways == ReplayTable(old(signallingGateways), AllEntries(routing.routes, paths))
                && Agrees(signallingGateways, sgpByIdentity)
                && |mtpRoutes| == |routing.routes|
                && (forall k :: 0 <= k < |mtpRoutes| ==> BoundRoute(routing, k, paths, mtpRoutes[k]))
    {
      hide Agrees, ReplayTable, Grouped, Bindable, Flatten, BindsOne, BoundRoute, Unbound, Referenced, AllEntries, GatewaysOf;
      NothingEntered(paths);
      var referenced: set<string> := {};
      NothingReplayed(signallingGateways);
      var i := 0;
      assert routing.routes[..i] == [];
      while i < |routing.routes|
        invariant i <= |routing.routes| == |mtpRoutes|
        invariant signallingGateways == ReplayTable(old(signallingGateways), AllEntries(routing.routes[..i], paths))
        invariant Agrees(signallingGateways, sgpByIdentity)
        invariant forall k :: i <= k < |mtpRoutes| ==> mtpRoutes[k] == Unbound(routing.routes[k])
        invariant forall k :: 0 <= k < i ==> BoundRoute(routing, k, paths, mtpRoutes[k]) && BindsOne(routing, k, paths)
        invariant referenced == Referenced(routing.routes[..i])
      {
        var r := routing.routes[i];
        ReplaySplits(old(signallingGateways), AllEntries(routing.routes[..i], paths), Flatten(r.id, r.paths, paths));
        EntriesNext(routing.routes, paths, i);
        ReferencedNext(routing.routes, i);
        var failed, gateways, grown := BindOneMTPRoutePaths(r, paths, referenced);
        if failed.Some? {
          Unbindable(routing, i, paths);
          return failed;
        }
        referenced := grown;
        mtpRoutes := mtpRoutes[i := mtpRoutes[i].(gateways := gateways)];
        SelectedGateways(routing, i, paths, gateways);
        failed := CheckSelections(routing, gateways);
        if failed.Some? { return failed; }
        BoundNow(routing, i, paths, gateways);
        i := i + 1;
      }
      assert routing.routes[..i] == routing.routes;
      if id :| id in paths && id !in referenced { return Some(Unreferenced(id)); }
      return None;
    }

    method ApplySGPSelection(routing: RoutingConfig) returns (fault: Option<Fault>)
      ensures fault.None? <==> SelectionsSupported(signallingGateways, routing)
    {
      var rest := routing.sgpSelection.Keys;
      while rest != {}
        invariant rest <= routing.sgpSelection.Keys
        invariant forall id :: id in routing.sgpSelection && id !in rest ==>
                    routing.sgpSelection[id] && exists i :: 0 <= i < |signallingGateways| && signallingGateways[i].id == id
      {
        var id :| id in rest;
        var gateway := FindGateway(id);
        if gateway.None? { return Some(Unprovisioned(id)); }
        if !routing.sgpSelection[id] { return Some(InvalidMode); }
        rest := rest - {id};
      }
      return None;
    }

    method CompileRoutingInventory(routing: RoutingConfig) returns (fault: Option<Fault>, ghost paths: map<string, Path>)
      requires Agrees(signallingGateways, sgpByIdentity) && mtpRoutes == [] && mtpRouteByID == map[]
      modifies this
      ensures AcceptableRouting(old(signallingGateways), routing) ==> Provisions(paths, routing.paths)
      ensures fault.None? <==> AcceptableRouting(old(signallingGateways), routing) && BindsAll(routing, paths)
      ensures fault.None? ==>
                && signallingGateways == ReplayTable(old(signallingGateways), AllEntries(routing.routes, paths))
                && Agrees(signallingGateways, sgpByIdentity)
                && |mtpRoutes| == |routing.routes|
                && (forall k :: 0 <= k < |mtpRoutes| ==> BoundRoute(routing, k, paths, mtpRoutes[k]))
                && (forall k :: 0 <= k < |mtpRoutes| ==> mtpRoutes[k].id in mtpRouteByID && mtpRouteByID[mtpRoutes[k].id] == k)
    {
      hide Agrees, ReplayTable, BoundRoute, AllEntries, ValidPaths, AcceptableRoutes, SelectionsSupported, Provisions, BindsAll;
      paths := map[];
      if !routing.modeValid { return Some(InvalidMode), paths; }
      if |routing.routes| == 0 { return Some(NothingIn("")), paths; }
      fault := CompileMTPRoutes(routing.routes);
      if fault.Some? { return; }
      fault := ApplySGPSelection(routing);
      if fault.Some? { return; }
      AgreesDistinct(signallingGateways, sgpByIdentity);
      var compiled;
      fault, compiled := CompileRoutePaths(routing.paths);
      if fault.Some? { return; }
      paths := compiled;
      ProvidedServers(signallingGateways, routing.paths, compiled);
      fault := BindMTPRoutePaths(routing, compiled);
      BoundIds(routing, paths, mtpRoutes);
    }

    /** A nil routing configuration compiles the peers and the limits alone. */
    method SnapshotASPConfig(config: seq<GatewayConfig>, limits: Limits, routing: Option<RoutingConfig>)
      returns (fault: Option<Fault>, compiled: Limits, ghost base: seq<Gateway>, ghost paths: map<string, Path>)
      requires signallingGateways == [] && sgpByIdentity == map[] && mtpRoutes == [] && mtpRouteByID == map[]
      modifies this
      ensures SnapshotASPLimits(limits, |config|).Some? && AcceptablePeers(config) ==> CompiledPeers(config, base)
      ensures SnapshotASPLimits(limits, |config|).Some? && AcceptablePeers(config) && routing.Some? && AcceptableRouting(base, routing.value)
              ==> Provisions(paths, routing.value.paths)
      ensures fault.None? <==>
                (&& SnapshotASPLimits(limits, |config|).Some? && AcceptablePeers(config)
                 && (routing.Some? ==> AcceptableRouting(base, routing.value) && BindsAll(routing.value, paths)))
      ensures fault.None? ==>
                && SnapshotASPLimits(limits, |config|) == Some(compiled)
                && Agrees(signallingGateways, sgpByIdentity) && SameServers(config, signallingGateways)
      ensures fault.None? && routing.Some? ==>
                && |mtpRoutes| == |routing.value.routes|
                && (forall k :: 0 <= k < |mtpRoutes| ==> BoundRoute(routing.value, k, paths, mtpRoutes[k]))
                && AllExact(signallingGateways, routing.value.routes, paths)
                && EveryoneServed(signallingGateways, routing.value.routes, paths)
    {
      hide Agrees, CompiledPeers, SameServers, ReplayTable, BoundRoute, AllExact, EveryoneServed, ValidPaths, Provisions, AllEntries,
        AcceptablePeers, SnapshotASPLimits, AcceptableRouting, BindsAll;
      paths, base, compiled := map[], [], limits;
      var snapshot := SnapshotASPLimits(limits, |config|);
      if snapshot.None? { return Some(InvalidLimits), compiled, base, paths; }
      compiled := snapshot.value;
      fault := CompilePeerInventory(config);
      base := signallingGateways;
      if fault.Some? { return; }
      PeersServe(config, signallingGateways);
      if routing.None? { return; }
      fault, paths := CompileRoutingInventory(routing.value);
      if fault.Some? { return; }
      RoutingAccepted(base, routing.value);
      CompiledIsExact(config, base, routing.value.routes, routing.value.paths, paths);
      TableShape(config, base, AllEntries(routing.value.routes, paths));
    }

    /** The update of one SGP; one that does not serve the candidate is left alone. */
    static method RecordedSgp(s: Sgp, e: Entry) returns (t: Sgp)
      ensures t == Recorded(s, e) && t.id == s.id && (!s.Serves(e.candidate.server) ==> t == s)
    {
      t := s;
      if !s.Serves(e.candidate.server) { return; }
      if |s.CandidatesFor(e.route)| == 0 { t := t.(routeOrder := t.routeOrder + [e.route]); }
      t := t.(routeCandidates := t.routeCandidates[e.route := s.CandidatesFor(e.route) + [e.candidate]]);
    }
  }

  lemma AgreesEmpty()
    ensures Agrees([], map[])
  {}

  lemma RoutingAccepted(gs: seq<Gateway>, routing: RoutingConfig)
    requires AcceptableRouting(gs, routing)
    ensures ValidPaths(gs, routing.paths) && DistinctRoutes(routing.routes)
  {}

  lemma BoundIds(routing: RoutingConfig, paths: map<string, Path>, compiled: seq<MtpRoute>)
    ensures |compiled| == |routing.routes| && (forall k :: 0 <= k < |compiled| ==> BoundRoute(routing, k, paths, compiled[k]))
            ==> forall k :: 0 <= k < |compiled| ==> compiled[k].id == routing.routes[k].id
  {
    hide Bindable, Grouped;
  }

  lemma CompiledId(c: SgpConfig, s: Sgp)
    requires CompiledSgp(c, s)
    ensures s.id == c.id
  {}

  lemma CompiledGatewayId(c: GatewayConfig, g: Gateway)
    requires CompiledGateway(c, g)
    ensures g.id == c.id
  {}
}
