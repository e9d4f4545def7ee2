/** The configuration the route state runs on is the one the compile accepts: what
    RouteState.ValidConfig asks for follows from an accepted ASP configuration. */
module ProvisionedState {
  import opened Common
  import opened PointCodes
  import opened RouteCandidates
  import opened RoutingInventory
  import S = RouteState
  import RouteRecords
  import RouteRuns

  // ---- The compiled tables as the route state reads them ----

  function StateSgp(s: Sgp): S.Sgp {
    S.Sgp(s.id, s.routeOrder)
  }

  function StateSgps(sgps: seq<Sgp>): seq<S.Sgp> {
    seq(|sgps|, j requires 0 <= j < |sgps| => StateSgp(sgps[j]))
  }

  function StateGateway(g: Gateway): S.Gateway {
    S.Gateway(g.id, StateSgps(g.sgps))
  }

  function StateGateways(gs: seq<Gateway>): seq<S.Gateway> {
    seq(|gs|, i requires 0 <= i < |gs| => StateGateway(gs[i]))
  }

  function StateRoute(r: MtpRoute): S.Route {
    S.Route(r.id, Range(r.destinationPointCode, r.mask))
  }

  function StateConfig(routes: seq<MtpRoute>, gs: seq<Gateway>, limits: Limits): S.Config
    requires limits.recordsPerRoute >= 0 && limits.recordsPerGateway >= 0 && limits.records >= 0
  {
    S.Config(seq(|routes|, k requires 0 <= k < |routes| => StateRoute(routes[k])),
             StateGateways(gs),
             limits.recordsPerRoute, limits.recordsPerGateway, limits.records)
  }

  // ---- What an SGP serves ----

  lemma {:induction false} InCarried(routes: seq<Route>, paths: map<string, Path>, gateway: string, s: Sgp, id: string)
    ensures id in Carried(routes, paths, gateway, s) <==>
            exists k :: 0 <= k < |routes| && routes[k].id == id && Served(Flatten(id, routes[k].paths, paths), gateway, s) != []
  {
    hide Flatten, Served;
    if routes != [] {
      var n := |routes| - 1;
      InCarried(routes[..n], paths, gateway, s, id);
      if k :| 0 <= k < |routes| && routes[k].id == id && Served(Flatten(id, routes[k].paths, paths), gateway, s) != [] {
        assert k < n ==> routes[..n][k] == routes[k];
      }
    }
  }

  /** A compiled SGP lists exactly the routes it has a candidate for, all of them configured. */
  lemma ListsWhatItCarries(s: Sgp, gateway: string, routes: seq<Route>, paths: map<string, Path>, id: string)
    requires ListsExact(s, gateway, routes, paths)
    ensures id in s.routeOrder <==> s.Carries(id)
    ensures id in s.routeOrder ==> exists k :: 0 <= k < |routes| && routes[k].id == id
  {
    hide Flatten, Served, Carried;
    InCarried(routes, paths, gateway, s, id);
    if s.Carries(id) {
      assert !forall k :: 0 <= k < |routes| ==> routes[k].id != id;
      var k :| 0 <= k < |routes| && routes[k].id == id;
      assert s.CandidatesFor(routes[k].id) == Served(Flatten(routes[k].id, routes[k].paths, paths), gateway, s);
    }
    if id in s.routeOrder {
      var k :| 0 <= k < |routes| && routes[k].id == id && Served(Flatten(id, routes[k].paths, paths), gateway, s) != [];
      assert s.CandidatesFor(routes[k].id) == Served(Flatten(routes[k].id, routes[k].paths, paths), gateway, s);
    }
  }

  // ---- The compile's guarantee ----

  /** What SnapshotASPConfig leaves when it accepts a configuration with routes. */
  ghost predicate Accepted(config: seq<GatewayConfig>, routing: RoutingConfig, base: seq<Gateway>, paths: map<string, Path>,
                           routes: seq<MtpRoute>, gs: seq<Gateway>, m: map<Identity, Sgp>)
  {
    && Agrees(gs, m) && SameServers(config, gs)
    && AcceptableRouting(base, routing) && BindsAll(routing, paths) && Provisions(paths, routing.paths)
    && |routes| == |routing.routes|
    && (forall k :: 0 <= k < |routes| ==> BoundRoute(routing, k, paths, routes[k]))
    && AllExact(gs, routing.routes, paths) && EveryoneServed(gs, routing.routes, paths)
  }

  ghost predicate RoutesFit(cfg: S.Config) {
    && (forall i, j :: 0 <= i < j < |cfg.routes| ==> cfg.routes[i].id != cfg.routes[j].id)
    && (forall i :: 0 <= i < |cfg.routes| ==> Aligned(cfg.routes[i].range))
  }

  lemma RoutesAreFit(routing: RoutingConfig, paths: map<string, Path>, routes: seq<MtpRoute>, gs: seq<Gateway>, l: Limits)
    requires l.recordsPerRoute >= 0 && l.recordsPerGateway >= 0 && l.records >= 0
    requires AcceptableRoutes(routing.routes) && |routes| == |routing.routes|
    requires forall k :: 0 <= k < |routes| ==> BoundRoute(routing, k, paths, routes[k])
    ensures RoutesFit(StateConfig(routes, gs, l))
  {
    hide Bindable, Grouped, ShiftLeft, ShiftRight;
    assert forall k :: 0 <= k < |routes| ==> AcceptableLabel(routing.routes[k]) && routes[k] == Unbound(routing.routes[k]).(gateways := routes[k].gateways);
  }

  lemma GatewaysFit(gs: seq<Gateway>, m: map<Identity, Sgp>, routes: seq<MtpRoute>, l: Limits)
    requires l.recordsPerRoute >= 0 && l.recordsPerGateway >= 0 && l.records >= 0
    requires Agrees(gs, m)
    ensures GatewaysApart(StateConfig(routes, gs, l))
  {
    hide Listed;
    var cfg := StateConfig(routes, gs, l);
    forall g, i, j | g in cfg.gateways && 0 <= i < j < |g.sgps| ensures g.sgps[i].id != g.sgps[j].id {
      var p :| 0 <= p < |cfg.gateways| && cfg.gateways[p] == g;
      assert DistinctSgps(gs[p]);
    }
  }

  /** Some gateway of the table serves the route. */
  lemma EveryRouteServed(routing: RoutingConfig, base: seq<Gateway>, paths: map<string, Path>, gs: seq<Gateway>,
                         routes: seq<MtpRoute>, l: Limits, k: nat)
    requires l.recordsPerRoute >= 0 && l.recordsPerGateway >= 0 && l.records >= 0
    requires AcceptableRouting(base, routing) && BindsAll(routing, paths) && Provisions(paths, routing.paths)
    requires AllExact(gs, routing.routes, paths) && EveryoneServed(gs, routing.routes, paths) && k < |routing.routes|
    ensures exists g :: g in StateConfig(routes, gs, l).gateways && S.GatewayCarries(g, routing.routes[k].id)
  {
    hide ListsExact, EveryoneServed, Bindable, ValidPaths, Provisions, AcceptableLabel, SelectionsSupported;
    var id := routing.routes[k].id;
    ProvidedServers(base, routing.paths, paths);
    assert BindsOne(routing, k, paths);
    EveryRouteCarried(gs, routing.routes, paths, k);
    var i, j :| 0 <= i < |gs| && 0 <= j < |gs[i].sgps| && gs[i].sgps[j].Carries(id);
    ListsWhatItCarries(gs[i].sgps[j], gs[i].id, routing.routes, paths, id);
    var g := StateConfig(routes, gs, l).gateways[i];
    assert id in g.sgps[j].routes;
    assert S.GatewayCarries(g, id);
  }

  /** Every route an SGP lists is configured. */
  lemma OnlyConfigured(routing: RoutingConfig, paths: map<string, Path>, gs: seq<Gateway>, routes: seq<MtpRoute>, l: Limits,
                       g: S.Gateway, j: nat, id: string)
    requires l.recordsPerRoute >= 0 && l.recordsPerGateway >= 0 && l.records >= 0
    requires AllExact(gs, routing.routes, paths) && |routes| == |routing.routes|
    requires forall k :: 0 <= k < |routes| ==> routes[k].id == routing.routes[k].id
    requires g in StateConfig(routes, gs, l).gateways && j < |g.sgps| && id in g.sgps[j].routes
    ensures id in S.RouteIds(StateConfig(routes, gs, l))
  {
    hide ListsExact;
    var cfg := StateConfig(routes, gs, l);
    var i :| 0 <= i < |cfg.gateways| && cfg.gateways[i] == g;
    ListsWhatItCarries(gs[i].sgps[j], gs[i].id, routing.routes, paths, id);
    var k :| 0 <= k < |routing.routes| && routing.routes[k].id == id;
    assert cfg.routes[k] in cfg.routes && cfg.routes[k].id == id;
  }

  ghost predicate AllServed(cfg: S.Config) {
    forall r :: r in cfg.routes ==> exists g :: g in cfg.gateways && S.GatewayCarries(g, r.id)
  }

  lemma RoutesAreServed(routing: RoutingConfig, base: seq<Gateway>, paths: map<string, Path>, gs: seq<Gateway>,
                        routes: seq<MtpRoute>, l: Limits)
    requires l.recordsPerRoute >= 0 && l.recordsPerGateway >= 0 && l.records >= 0
    requires AcceptableRouting(base, routing) && BindsAll(routing, paths) && Provisions(paths, routing.paths)
    requires AllExact(gs, routing.routes, paths) && EveryoneServed(gs, routing.routes, paths)
    requires |routes| == |routing.routes| && forall k :: 0 <= k < |routes| ==> routes[k].id == routing.routes[k].id
    ensures AllServed(StateConfig(routes, gs, l))
  {
    hide AllExact, EveryoneServed, Provisions, AcceptableRouting, BindsAll, S.GatewayCarries;
    var cfg := StateConfig(routes, gs, l);
    forall r | r in cfg.routes ensures exists g :: g in cfg.gateways && S.GatewayCarries(g, r.id) {
      var k :| 0 <= k < |cfg.routes| && cfg.routes[k] == r;
      EveryRouteServed(routing, base, paths, gs, routes, l, k);
    }
  }

  ghost predicate AllConfigured(cfg: S.Config) {
    forall g, i, r :: g in cfg.gateways && 0 <= i < |g.sgps| && r in g.sgps[i].routes ==> r in S.RouteIds(cfg)
  }

  lemma ListsAreConfigured(routing: RoutingConfig, paths: map<string, Path>, gs: seq<Gateway>, routes: seq<MtpRoute>, l: Limits)
    requires l.recordsPerRoute >= 0 && l.recordsPerGateway >= 0 && l.records >= 0
    requires AllExact(gs, routing.routes, paths)
    requires |routes| == |routing.routes| && forall k :: 0 <= k < |routes| ==> routes[k].id == routing.routes[k].id
    ensures AllConfigured(StateConfig(routes, gs, l))
  {
    hide AllExact, S.RouteIds;
    var cfg := StateConfig(routes, gs, l);
    forall g, i, r | g in cfg.gateways && 0 <= i < |g.sgps| && r in g.sgps[i].routes ensures r in S.RouteIds(cfg) {
      OnlyConfigured(routing, paths, gs, routes, l, g, i, r);
    }
  }

  ghost predicate GatewaysApart(cfg: S.Config) {
    && (forall i, j :: 0 <= i < j < |cfg.gateways| ==> cfg.gateways[i].id != cfg.gateways[j].id)
    && (forall g, i, j :: g in cfg.gateways && 0 <= i < j < |g.sgps| ==> g.sgps[i].id != g.sgps[j].id)
  }

  lemma PartsMakeValid(cfg: S.Config)
    requires RoutesFit(cfg) && AllServed(cfg) && AllConfigured(cfg) && GatewaysApart(cfg)
    requires cfg.gateways != [] && cfg.perGatewayLimit <= cfg.totalLimit / |cfg.gateways| && cfg.totalLimit < S.SEQUENCE_LIMIT / 2
    ensures S.ValidConfig(cfg)
  {
    hide S.GatewayCarries, S.RouteIds, Aligned;
  }

  /** asp_config.go:434-501, 503-543, 655-727, 829-930. Every configuration the compile accepts
      meets all the route state asks of one: distinct aligned routes, each carried by some
      Signalling Gateway; distinct gateways and SGPs that list configured routes only; and
      record limits whose reservations fit and never use up half the sequence numbers. */
  lemma AcceptedIsValid(config: seq<GatewayConfig>, limits: Limits, routing: RoutingConfig, base: seq<Gateway>,
                        paths: map<string, Path>, routes: seq<MtpRoute>, gs: seq<Gateway>, m: map<Identity, Sgp>, l: Limits)
    requires SnapshotASPLimits(limits, |config|) == Some(l)
    requires Accepted(config, routing, base, paths, routes, gs, m)
    ensures l.recordsPerRoute >= 0 && l.recordsPerGateway >= 0 && l.records >= 0
    ensures S.ValidConfig(StateConfig(routes, gs, l))
  {
    LimitsFit(limits, |config|, l);
    BoundIds(routing, paths, routes);
    RoutingAccepted(base, routing);
    SameCount(config, gs);
    hide Agrees, AllExact, EveryoneServed, BoundRoute, Provisions, AcceptableRouting, BindsAll, SnapshotASPLimits, SameServers,
      AcceptableRoutes, RoutesFit, AllServed, AllConfigured, GatewaysApart, S.ValidConfig;
    RoutesAreFit(routing, paths, routes, gs, l);
    GatewaysFit(gs, m, routes, l);
    RoutesAreServed(routing, base, paths, gs, routes, l);
    ListsAreConfigured(routing, paths, gs, routes, l);
    PartsMakeValid(StateConfig(routes, gs, l));
  }

  lemma SameCount(config: seq<GatewayConfig>, gs: seq<Gateway>)
    requires SameServers(config, gs)
    ensures |gs| == |config|
  {}

  lemma LimitsFit(limits: Limits, gateways: nat, l: Limits)
    requires SnapshotASPLimits(limits, gateways) == Some(l)
    ensures gateways > 0 && l.recordsPerRoute >= 0 && 0 <= l.recordsPerGateway <= l.records / gateways
    ensures 0 <= l.records < S.SEQUENCE_LIMIT / 2
  {}

  // ---- Looking an SGP up ----

  lemma {:induction false} ProcessFound(sgps: seq<Sgp>, process: string)
    requires forall i, j :: 0 <= i < j < |sgps| ==> sgps[i].id != sgps[j].id
    ensures var listed := S.ProcessRoutes(StateSgps(sgps), process);
            && (forall j :: 0 <= j < |sgps| && sgps[j].id == process ==> listed == Some(sgps[j].routeOrder))
            && ((forall j :: 0 <= j < |sgps| ==> sgps[j].id != process) ==> listed == None)
  {
    if sgps != [] {
      var rest := sgps[1..];
      ProcessFound(rest, process);
      assert StateSgps(sgps)[1..] == StateSgps(rest);
      forall j | 0 < j < |sgps| ensures sgps[j] == rest[j - 1] {}
    }
  }

  lemma {:induction false} GatewayFound(gs: seq<Gateway>, identity: S.Identity)
    requires forall i, j :: 0 <= i < j < |gs| ==> gs[i].id != gs[j].id
    ensures var table := StateGateways(gs);
            && (forall i :: 0 <= i < |gs| && gs[i].id == identity.gateway ==>
                  S.SgpRoutesFrom(table, identity) == S.ProcessRoutes(StateGateway(gs[i]).sgps, identity.process))
            && ((forall i :: 0 <= i < |gs| ==> gs[i].id != identity.gateway) ==> S.SgpRoutesFrom(table, identity) == None)
  {
    hide S.ProcessRoutes, StateGateway;
    var table := StateGateways(gs);
    forall i | 0 <= i < |gs| ensures table[i].id == gs[i].id { GatewayId(gs[i]); }
    if gs != [] {
      var rest := gs[1..];
      GatewayFound(rest, identity);
      assert table[1..] == StateGateways(rest);
      forall i | 0 < i < |gs| ensures gs[i] == rest[i - 1] {}
    }
  }

  lemma GatewayId(g: Gateway)
    ensures StateGateway(g).id == g.id
  {}

  /** The route state's lookup of an identity is the compile's sgpByIdentity. */
  lemma IdentityFinds(routes: seq<MtpRoute>, gs: seq<Gateway>, m: map<Identity, Sgp>, l: Limits, k: Identity)
    requires l.recordsPerRoute >= 0 && l.recordsPerGateway >= 0 && l.records >= 0 && Agrees(gs, m)
    ensures S.SgpRoutes(StateConfig(routes, gs, l), S.Identity(k.gateway, k.process)) == if k in m then Some(m[k].routeOrder) else None
  {
    GatewayFound(gs, S.Identity(k.gateway, k.process));
    if k in m { ListedSomewhere(gs, m, k); }
    hide S.SgpRoutesFrom, S.ProcessRoutes;
    var cfg := StateConfig(routes, gs, l);
    assert S.SgpRoutes(cfg, S.Identity(k.gateway, k.process)) == S.SgpRoutesFrom(cfg.gateways, S.Identity(k.gateway, k.process));
    if i :| 0 <= i < |gs| && gs[i].id == k.gateway {
      assert DistinctSgps(gs[i]);
      ProcessFound(gs[i].sgps, k.process);
      if k in m { ListedAt(gs, m, k, i); }
    }
  }

  lemma ListedSomewhere(gs: seq<Gateway>, m: map<Identity, Sgp>, k: Identity)
    requires Agrees(gs, m) && k in m
    ensures exists i :: 0 <= i < |gs| && gs[i].id == k.gateway
  {
    assert Listed(gs, k);
  }

  lemma ListedAt(gs: seq<Gateway>, m: map<Identity, Sgp>, k: Identity, i: nat)
    requires Agrees(gs, m) && k in m && i < |gs| && gs[i].id == k.gateway
    ensures exists j :: 0 <= j < |gs[i].sgps| && gs[i].sgps[j].id == k.process && gs[i].sgps[j] == m[k]
  {
    assert Listed(gs, k);
    var p, j :| 0 <= p < |gs| && 0 <= j < |gs[p].sgps| && k == Identity(gs[p].id, gs[p].sgps[j].id);
    assert p == i;
  }

  // ---- From the configuration to the state ----

  /** An accepted configuration is one the route state can run on. */
  method CompileForState(config: seq<GatewayConfig>, limits: Limits, routing: RoutingConfig)
    returns (fault: Option<Fault>, inventory: Inventory, l: Limits)
    ensures fresh(inventory)
    ensures fault.None? ==> l.recordsPerRoute >= 0 && l.recordsPerGateway >= 0 && l.records >= 0
    ensures fault.None? ==> S.ValidConfig(StateConfig(inventory.mtpRoutes, inventory.signallingGateways, l))
    ensures fault.None? ==> Agrees(inventory.signallingGateways, inventory.sgpByIdentity)
  {
    hide Agrees, SameServers, AcceptableRouting, BindsAll, Provisions, BoundRoute, AllExact, EveryoneServed, SnapshotASPLimits,
      S.ValidConfig, AcceptablePeers, CompiledPeers;
    inventory := new Inventory();
    ghost var base, paths;
    fault, l, base, paths := inventory.SnapshotASPConfig(config, limits, Some(routing));
    if fault.None? {
      AcceptedIsValid(config, limits, routing, base, paths, inventory.mtpRoutes, inventory.signallingGateways, inventory.sgpByIdentity, l);
    }
  }

  /** In no run of an accepted configuration is a report refused for the Endpoint's limit. */
  lemma AcceptedNeverRefuses(config: seq<GatewayConfig>, limits: Limits, routing: RoutingConfig, base: seq<Gateway>,
                             paths: map<string, Path>, routes: seq<MtpRoute>, gs: seq<Gateway>, m: map<Identity, Sgp>, l: Limits,
                             events: seq<RouteRuns.Event>, a: S.Association, identity: S.Identity,
                             keys: seq<RouteRecords.RangeKey>, update: S.Update)
    requires SnapshotASPLimits(limits, |config|) == Some(l)
    requires Accepted(config, routing, base, paths, routes, gs, m)
    ensures l.recordsPerRoute >= 0 && l.recordsPerGateway >= 0 && l.records >= 0
    ensures var cfg := StateConfig(routes, gs, l);
            RouteRuns.LegalRun(cfg, events) && S.ValidReport(cfg, identity, keys)
            ==> S.Report(cfg, RouteRuns.Run(cfg, events), a, identity, keys, update).1 != S.RefusedWith(S.EndpointLimit)
  {
    AcceptedIsValid(config, limits, routing, base, paths, routes, gs, m, l);
    hide Accepted, StateConfig, S.ValidConfig, S.ValidReport, S.Report, RouteRuns.LegalRun, RouteRuns.Run;
    var cfg := StateConfig(routes, gs, l);
    if RouteRuns.LegalRun(cfg, events) && S.ValidReport(cfg, identity, keys) {
      RouteRuns.EveryRunHasRoom(cfg, events, a, identity, keys, update);
    }
  }
}
