/** Which gateways can carry a route now: the loops of asp_routes.go:838-850 and 1226-1252
    over SGPs and attached associations against the set the specification uses. */
module RouteCapability {
  import opened Common
  import opened PointCodes
  import opened RouteRecords
  import opened RouteState
  import opened RouteInvariants

  /** associationsBySGP: the attached associations under each identity. */
  ghost predicate Grouped(associations: map<Association, Identity>, bySGP: map<Identity, set<Association>>) {
    && (forall a :: a in associations ==> associations[a] in bySGP && a in bySGP[associations[a]])
    && (forall identity, a :: identity in bySGP && a in bySGP[identity] ==> a in associations && associations[a] == identity)
    && (forall identity :: identity in bySGP ==> bySGP[identity] != {})
  }

  function Regrouped(bySGP: map<Identity, set<Association>>, a: Association, identity: Identity): map<Identity, set<Association>> {
    bySGP[identity := (if identity in bySGP then bySGP[identity] else {}) + {a}]
  }

  function Ungrouped(bySGP: map<Identity, set<Association>>, a: Association, identity: Identity): map<Identity, set<Association>>
    requires identity in bySGP
  {
    var left := bySGP[identity] - {a};
    if left == {} then bySGP - {identity} else bySGP[identity := left]
  }

  lemma JoinGrouped(associations: map<Association, Identity>, bySGP: map<Identity, set<Association>>, a: Association, identity: Identity)
    requires Grouped(associations, bySGP) && (a in associations ==> associations[a] == identity)
    ensures Grouped(associations[a := identity], Regrouped(bySGP, a, identity))
  {
    assert a in Regrouped(bySGP, a, identity)[identity];
  }

  lemma LeaveGrouped(associations: map<Association, Identity>, bySGP: map<Identity, set<Association>>, a: Association)
    requires Grouped(associations, bySGP) && a in associations
    ensures associations[a] in bySGP && Grouped(associations - {a}, Ungrouped(bySGP, a, associations[a]))
  {
    var identity := associations[a];
    var after := Ungrouped(bySGP, a, identity);
    forall b | b in associations - {a} ensures associations[b] in after && b in after[associations[b]] {
      assert b in bySGP[associations[b]];
    }
  }

  /** asp_routes.go:333-340: some attached association serves a process of the gateway. */
  method SignallingGatewayAttached(bySGP: map<Identity, set<Association>>, gateway: Id, ghost associations: map<Association, Identity>)
    returns (attached: bool)
    requires Grouped(associations, bySGP)
    ensures attached == GatewayAttached(associations, gateway)
  {
    var todo := bySGP.Keys;
    while todo != {}
      invariant todo <= bySGP.Keys
      invariant forall identity :: identity in bySGP && identity !in todo ==> identity.gateway != gateway
      decreases |todo|
    {
      var identity :| identity in todo;
      if identity.gateway == gateway && |bySGP[identity]| > 0 {
        var a :| a in bySGP[identity];
        assert a in associations && associations[a].gateway == gateway;
        return true;
      }
      todo := todo - {identity};
    }
    return false;
  }

  // ---- One identity, one SGP ----

  lemma {:induction false} ProcessExact(sgps: seq<Sgp>, i: nat)
    requires i < |sgps| && forall j, k :: 0 <= j < k < |sgps| ==> sgps[j].id != sgps[k].id
    ensures ProcessRoutes(sgps, sgps[i].id) == Some(sgps[i].routes)
  {
    if i > 0 {
      assert sgps[1..][i - 1] == sgps[i];
      ProcessExact(sgps[1..], i - 1);
    }
  }

  /** sgpByIdentity agrees with the gateway table. */
  lemma {:induction false} IdentityExact(gateways: seq<Gateway>, g: nat, i: nat)
    requires g < |gateways| && i < |gateways[g].sgps|
    requires forall j, k :: 0 <= j < k < |gateways| ==> gateways[j].id != gateways[k].id
    requires forall h, j, k :: h in gateways && 0 <= j < k < |h.sgps| ==> h.sgps[j].id != h.sgps[k].id
    ensures SgpRoutesFrom(gateways, Identity(gateways[g].id, gateways[g].sgps[i].id)) == Some(gateways[g].sgps[i].routes)
  {
    if g == 0 {
      assert gateways[0] in gateways;
      ProcessExact(gateways[0].sgps, i);
    } else {
      assert gateways[1..][g - 1] == gateways[g];
      IdentityExact(gateways[1..], g - 1, i);
    }
  }

  lemma {:induction false} ProcessFound(sgps: seq<Sgp>, process: Id) returns (i: nat)
    requires ProcessRoutes(sgps, process).Some?
    ensures i < |sgps| && sgps[i].id == process && ProcessRoutes(sgps, process) == Some(sgps[i].routes)
  {
    if sgps[0].id == process {
      i := 0;
    } else {
      var k := ProcessFound(sgps[1..], process);
      i := k + 1;
    }
  }

  lemma {:induction false} IdentityFound(gateways: seq<Gateway>, identity: Identity) returns (g: nat, i: nat)
    requires SgpRoutesFrom(gateways, identity).Some?
    ensures g < |gateways| && gateways[g].id == identity.gateway
    ensures i < |gateways[g].sgps| && gateways[g].sgps[i].id == identity.process
    ensures SgpRoutesFrom(gateways, identity) == Some(gateways[g].sgps[i].routes)
  {
    if gateways[0].id == identity.gateway {
      g := 0;
      i := ProcessFound(gateways[0].sgps, identity.process);
    } else {
      var h;
      h, i := IdentityFound(gateways[1..], identity);
      g := h + 1;
    }
  }

  /** The association is attached to the i-th SGP, which serves the route, and can carry it. */
  ghost predicate CarriedBy(s: State, gateway: Gateway, route: Id, i: nat, a: Association) {
    && i < |gateway.sgps| && route in gateway.sgps[i].routes && a in s.associations
    && s.associations[a] == Identity(gateway.id, gateway.sgps[i].id) && a in s.live && route in s.live[a]
  }

  /** Some association attached to one of the first n SGPs can carry the route. */
  ghost predicate CarriesNow(s: State, gateway: Gateway, route: Id, n: nat) {
    exists i: nat, a: Association :: i < n && CarriedBy(s, gateway, route, i, a)
  }

  /** A gateway is capable exactly when one of its SGPs that serve the route has an attached
      association that can carry it. */
  lemma CapableByProcess(cfg: Config, s: State, g: nat, route: Id)
    requires ValidConfig(cfg) && AssociationsOk(cfg, s) && g < |cfg.gateways|
    ensures cfg.gateways[g].id in Capable(cfg, s, route) <==> CarriesNow(s, cfg.gateways[g], route, |cfg.gateways[g].sgps|)
  {
    var gateway := cfg.gateways[g];
    if gateway.id in Capable(cfg, s, route) {
      var a :| a in s.associations && route in LiveRoutes(cfg, s.live, a, s.associations[a])
        && s.associations[a].gateway == gateway.id;
      var h, i := IdentityFound(cfg.gateways, s.associations[a]);
      assert h == g;
      assert CarriedBy(s, gateway, route, i, a);
    }
    if CarriesNow(s, gateway, route, |gateway.sgps|) {
      var i: nat, a: Association :| i < |gateway.sgps| && CarriedBy(s, gateway, route, i, a);
      IdentityExact(cfg.gateways, g, i);
      assert route in LiveRoutes(cfg, s.live, a, s.associations[a]);
    }
  }

  /** asp_routes.go:1226-1252. */
  method RouteCapability(cfg: Config, bySGP: map<Identity, set<Association>>, live: map<Association, set<Id>>,
                         g: nat, route: Id, ghost s: State)
    returns (configured: bool, capable: bool)
    requires ValidConfig(cfg) && AssociationsOk(cfg, s) && g < |cfg.gateways|
    requires Grouped(s.associations, bySGP) && live == s.live
    ensures configured == GatewayCarries(cfg.gateways[g], route)
    ensures configured ==> capable == (cfg.gateways[g].id in Capable(cfg, s, route))
  {
    var gateway := cfg.gateways[g];
    configured, capable := false, false;
    CapableByProcess(cfg, s, g, route);
    for i := 0 to |gateway.sgps|
      invariant configured == exists j :: 0 <= j < i && route in gateway.sgps[j].routes
      invariant !capable && !CarriesNow(s, gateway, route, i)
    {
      if route in gateway.sgps[i].routes {
        configured := true;
        var identity := Identity(gateway.id, gateway.sgps[i].id);
        var todo := if identity in bySGP then bySGP[identity] else {};
        while todo != {}
          invariant todo <= if identity in bySGP then bySGP[identity] else {}
          invariant forall a :: identity in bySGP && a in bySGP[identity] && a !in todo ==> a !in live || route !in live[a]
          decreases |todo|
        {
          var a :| a in todo;
          if a in live && route in live[a] {
            capable := true;
            assert CarriedBy(s, gateway, route, i, a);
            return;
          }
          todo := todo - {a};
        }
      }
      forall j: nat, a: Association | j < i + 1 ensures !CarriedBy(s, gateway, route, j, a) {
        if j < i { assert !CarriesNow(s, gateway, route, i); }
      }
    }
  }

  /** asp_routes.go:838-850. */
  method GatewaySnapshots(cfg: Config, bySGP: map<Identity, set<Association>>, live: map<Association, set<Id>>,
                          route: Id, ghost s: State)
    returns (snapshots: seq<GatewayView>)
    requires ValidConfig(cfg) && AssociationsOk(cfg, s) && Grouped(s.associations, bySGP) && live == s.live
    ensures snapshots == Views(cfg.gateways, Capable(cfg, s, route), route)
  {
    snapshots := [];
    ghost var capableNow := Capable(cfg, s, route);
    for g := 0 to |cfg.gateways|
      invariant snapshots + Views(cfg.gateways[g..], capableNow, route) == Views(cfg.gateways, capableNow, route)
    {
      var configured, capable := RouteCapability(cfg, bySGP, live, g, route, s);
      assert cfg.gateways[g..][0] == cfg.gateways[g] && cfg.gateways[g..][1..] == cfg.gateways[g + 1..];
      if configured {
        snapshots := snapshots + [GatewayView(cfg.gateways[g].id, capable)];
      }
    }
    assert cfg.gateways[|cfg.gateways|..] == [];
  }
}
