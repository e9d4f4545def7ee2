/** Attaching, detaching and eligibility changes keep the invariant of the route state: valid
    records of attached gateways, exact counters within their limits, and leaves that read
    what a scan reads. */
module RouteInvariants {
  import opened Common
  import opened PointCodes
  import opened RouteRecords
  import opened DerivedStatus
  import opened RouteState

  // ---- Configuration ----

  lemma {:induction false} RangesFromExact(routes: seq<Route>, i: nat)
    requires i < |routes| && forall j, k :: 0 <= j < k < |routes| ==> routes[j].id != routes[k].id
    ensures routes[i].id in RangesFrom(routes) && RangesFrom(routes)[routes[i].id] == routes[i].range
  {
    if i > 0 {
      assert routes[1..][i - 1] == routes[i];
      RangesFromExact(routes[1..], i - 1);
    }
  }

  /** Every configured route has its own aligned range and is carried by some gateway. */
  lemma ConfiguredRoute(cfg: Config, route: Id, capable: set<Id>)
    requires ValidConfig(cfg) && route in RouteRanges(cfg)
    ensures Aligned(RouteRanges(cfg)[route])
    ensures Views(cfg.gateways, capable, route) != []
  {
    var r :| r in cfg.routes && r.id == route;
    var i :| 0 <= i < |cfg.routes| && cfg.routes[i] == r;
    RangesFromExact(cfg.routes, i);
    var g :| g in cfg.gateways && GatewayCarries(g, route);
    CarriedIsViewed(cfg.gateways, capable, route, g);
  }

  lemma {:induction false} CarriedIsViewed(gateways: seq<Gateway>, capable: set<Id>, route: Id, g: Gateway)
    requires g in gateways && GatewayCarries(g, route)
    ensures Views(gateways, capable, route) != []
  {
    if gateways[0] != g { CarriedIsViewed(gateways[1..], capable, route, g); }
  }

  /** An SGP named by an identity belongs to a gateway of that name. */
  lemma {:induction false} SgpBelongs(gateways: seq<Gateway>, identity: Identity)
    requires SgpRoutesFrom(gateways, identity).Some?
    ensures exists g, i :: g in gateways && g.id == identity.gateway && 0 <= i < |g.sgps|
              && g.sgps[i].routes == SgpRoutesFrom(gateways, identity).value
  {
    if gateways[0].id == identity.gateway {
      ProcessBelongs(gateways[0].sgps, identity.process);
      var i :| 0 <= i < |gateways[0].sgps| && gateways[0].sgps[i].routes == ProcessRoutes(gateways[0].sgps, identity.process).value;
      assert gateways[0] in gateways;
    } else {
      SgpBelongs(gateways[1..], identity);
      var g, i :| g in gateways[1..] && g.id == identity.gateway && 0 <= i < |g.sgps|
        && g.sgps[i].routes == SgpRoutesFrom(gateways[1..], identity).value;
      assert g in gateways;
    }
  }

  lemma {:induction false} ProcessBelongs(sgps: seq<Sgp>, process: Id)
    requires ProcessRoutes(sgps, process).Some?
    ensures exists i :: 0 <= i < |sgps| && sgps[i].routes == ProcessRoutes(sgps, process).value
  {
    if sgps[0].id == process {
      assert sgps[0].routes == ProcessRoutes(sgps, process).value;
    } else {
      ProcessBelongs(sgps[1..], process);
      var i :| 0 <= i < |sgps[1..]| && sgps[1..][i].routes == ProcessRoutes(sgps[1..], process).value;
      assert sgps[i + 1] == sgps[1..][i];
    }
  }

  lemma ServedIsCarried(cfg: Config, identity: Identity, route: Id)
    requires SgpRoutes(cfg, identity).Some? && route in SgpRoutes(cfg, identity).value
    ensures Carried(cfg, identity.gateway, route)
    ensures route in GatewayRoutes(cfg, identity.gateway)
  {
    SgpBelongs(cfg.gateways, identity);
    var g, i :| g in cfg.gateways && g.id == identity.gateway && 0 <= i < |g.sgps|
      && g.sgps[i].routes == SgpRoutes(cfg, identity).value;
    assert GatewayCarries(g, route);
  }

  lemma CarriedRoutes(cfg: Config, gateway: Id, route: Id)
    requires Carried(cfg, gateway, route)
    ensures route in GatewayRoutes(cfg, gateway)
  {
    var g :| g in cfg.gateways && g.id == gateway && GatewayCarries(g, route);
    var i :| 0 <= i < |g.sgps| && route in g.sgps[i].routes;
  }

  // ---- The starting state ----

  lemma {:induction false} AllUnavailable(statuses: seq<Status>)
    requires forall i :: 0 <= i < |statuses| ==> statuses[i] == UNAVAILABLE
    ensures BestSoFar(statuses) == if statuses == [] then None else Some(UNAVAILABLE)
  {
    if statuses != [] { AllUnavailable(statuses[..|statuses| - 1]); }
  }

  lemma {:induction false} NoneCapable(gateways: seq<Gateway>, route: Id)
    ensures forall i :: 0 <= i < |Views(gateways, {}, route)| ==> !Views(gateways, {}, route)[i].capable
  {
    if gateways != [] { NoneCapable(gateways[1..], route); }
  }

  /** A new registry reports every route unavailable, which is what the scan of no records
      over no associations reads (asp_routes.go:170-177). */
  lemma InitialInv(cfg: Config)
    requires ValidConfig(cfg)
    ensures Inv(cfg, Initial(cfg)) && Synced(cfg, Initial(cfg))
  {
    InitialDerived(cfg);
    EmptyCounts();
  }

  lemma InitialDerived(cfg: Config)
    requires ValidConfig(cfg)
    ensures DerivedOk(cfg, Initial(cfg)) && Synced(cfg, Initial(cfg))
  {
    hide RouteDerived, UpToDate, ValidConfig, Derived;
    forall r | r in RouteRanges(cfg) ensures RouteDerived(cfg, Initial(cfg), r) && UpToDate(cfg, Initial(cfg), r) {
      InitialRoute(cfg, r);
    }
  }

  lemma EmptyCounts()
    ensures CountersOk(map[], map[], Counters(map[], map[], 0))
  {
    var availability: Records<Availability>, congestion: Records<Congestion> := map[], map[];
    forall g, r ensures RouteKeys(availability, g, r) == {} && RouteKeys(congestion, g, r) == {} {}
    forall g ensures GatewayKeys(availability, g) == {} && GatewayKeys(congestion, g) == {} {}
  }

  lemma InitialRoute(cfg: Config, r: Id)
    requires ValidConfig(cfg) && r in RouteRanges(cfg)
    ensures RouteDerived(cfg, Initial(cfg), r) && UpToDate(cfg, Initial(cfg), r)
  {
    hide ValidConfig, RangesFrom, Aligned;
    ConfiguredRoute(cfg, r, {});
    var range := RouteRanges(cfg)[r];
    var views := Views(cfg.gateways, {}, r);
    assert KeyRanges(map[], map[], r) == {};
    assert Leaves({}, range) == {range};
    NoneCapable(cfg.gateways, r);
    AllUnavailable(NaiveStatuses(views, map[], map[], r, range.pc));
    assert StatusMap(views, map[], map[], r, {range}) == map[range := UNAVAILABLE];
    assert Capable(cfg, Initial(cfg), r) == {};
  }

  // ---- Recomputation ----

  /** A route's leaves depend on the records and the capability used, on nothing else. */
  lemma RouteDerivedFrame(cfg: Config, s: State, t: State, route: Id)
    requires RouteDerived(cfg, s, route)
    requires t.store == s.store
    requires t.derived == s.derived && t.used == s.used
    ensures RouteDerived(cfg, t, route)
  {}

  lemma DerivedFrame(cfg: Config, s: State, t: State)
    requires DerivedOk(cfg, s)
    requires t.store == s.store
    requires t.derived == s.derived && t.used == s.used
    ensures forall r :: r in RouteRanges(cfg) ==> RouteDerived(cfg, t, r)
    ensures DerivedOk(cfg, t)
  {
    forall r | r in RouteRanges(cfg) ensures RouteDerived(cfg, t, r) {
      assert RouteDerived(cfg, s, r);
      RouteDerivedFrame(cfg, s, t, r);
    }
  }

  /** Recomputing some routes restores the derived invariant when the others still have it. */
  lemma RecomputeDerives(cfg: Config, s: State, only: Option<set<Id>>)
    requires s.derived.Keys == RouteRanges(cfg).Keys && s.used.Keys == RouteRanges(cfg).Keys
    requires forall r :: r in RouteRanges(cfg) && only.Some? && r !in only.value ==> RouteDerived(cfg, s, r)
    ensures DerivedOk(cfg, Recompute(cfg, s, only))
  {
    var after := Recompute(cfg, s, only);
    forall r | r in RouteRanges(cfg) ensures RouteDerived(cfg, after, r) {}
  }

  /** A recomputed route is up to date; another one keeps the capability it used. */
  lemma RecomputeUpdates(cfg: Config, s: State, only: Option<set<Id>>, route: Id)
    requires route in RouteRanges(cfg) && route in s.used
    ensures UpToDate(cfg, Recompute(cfg, s, only), route)
       <==> only.None? || route in only.value || UpToDate(cfg, s, route)
  {
    assert Capable(cfg, Recompute(cfg, s, only), route) == Capable(cfg, s, route);
  }

  // ---- Attach, detach and eligibility ----

  lemma AttachInv(cfg: Config, s: State, a: Association, identity: Identity)
    requires ValidConfig(cfg) && Inv(cfg, s) && SgpRoutes(cfg, identity).Some?
    requires a in s.associations ==> s.associations[a] == identity
    ensures Inv(cfg, Attach(cfg, s, a, identity))
  {
    hide RouteDerived, KeysValid, KeysAttached, Sequenced, CountersOk, LimitsOk, LiveRoutes, SgpRoutes, ValidConfig, RouteRanges;
    var now := LiveRoutes(cfg, s.live, a, identity);
    var joined := s.(associations := s.associations[a := identity], eligible := s.eligible[a := now]);
    JoinKeepsAttached(s.associations, a, identity, s.store.availability);
    JoinKeepsAttached(s.associations, a, identity, s.store.congestion);
    assert RecordsInv(cfg, joined);
    DerivedFrame(cfg, s, joined);
    hide RecordsInv, DerivedOk;
    RecomputeDerives(cfg, joined, Some(now));
    RecomputeRecords(cfg, joined, Some(now));
  }

  /** Recomputing touches neither the associations nor the records. */
  lemma RecomputeRecords(cfg: Config, s: State, only: Option<set<Id>>)
    requires RecordsInv(cfg, s)
    ensures RecordsInv(cfg, Recompute(cfg, s, only))
  {
    hide KeysValid, KeysAttached, Sequenced, CountersOk, LimitsOk, SgpRoutes;
  }

  lemma JoinKeepsAttached<T>(associations: map<Association, Identity>, a: Association, identity: Identity, records: Records<T>)
    requires KeysAttached(associations, records)
    requires a in associations ==> associations[a] == identity
    ensures KeysAttached(associations[a := identity], records)
  {
    forall k | k in records ensures GatewayAttached(associations[a := identity], k.gateway) {
      assert GatewayAttached(associations, k.gateway);
      var b :| b in associations && associations[b].gateway == k.gateway;
      assert associations[a := identity][b].gateway == k.gateway;
    }
  }

  lemma SetLiveInv(cfg: Config, s: State, a: Association, routes: set<Id>)
    requires Inv(cfg, s)
    ensures Inv(cfg, SetLive(s, a, routes))
  {
    DerivedFrame(cfg, s, SetLive(s, a, routes));
  }

  lemma StateChangedInv(cfg: Config, s: State, a: Association)
    requires Inv(cfg, s)
    ensures Inv(cfg, StateChanged(cfg, s, a))
  {
    if a in s.associations {
      var now := LiveRoutes(cfg, s.live, a, s.associations[a]);
      var affected := Changed(s.eligible[a], now);
      var noted := s.(eligible := s.eligible[a := now]);
      DerivedFrame(cfg, s, noted);
      RecomputeDerives(cfg, noted, Some(affected));
    }
  }

  lemma WithoutKeys<T>(records: Records<T>, gateway: Id)
    ensures forall g, r :: RouteKeys(Without(records, gateway), g, r) == if g == gateway then {} else RouteKeys(records, g, r)
    ensures forall g :: GatewayKeys(Without(records, gateway), g) == if g == gateway then {} else GatewayKeys(records, g)
    ensures |Without(records, gateway)| <= |records|
  {
    forall g, r
      ensures RouteKeys(Without(records, gateway), g, r) == if g == gateway then {} else RouteKeys(records, g, r)
    {}
    forall g
      ensures GatewayKeys(Without(records, gateway), g) == if g == gateway then {} else GatewayKeys(records, g)
    {}
    SubsetSmaller(Without(records, gateway).Keys, records.Keys);
  }

  lemma RecountCounts(availability: Records<Availability>, congestion: Records<Congestion>)
    ensures forall g, r :: Count(RecountRoutes(availability, congestion), (g, r))
                        == |RouteKeys(availability, g, r)| + |RouteKeys(congestion, g, r)|
    ensures forall g :: Count(RecountGateways(availability, congestion), g)
                     == |GatewayKeys(availability, g)| + |GatewayKeys(congestion, g)|
  {
    forall g, r
      ensures Count(RecountRoutes(availability, congestion), (g, r))
           == |RouteKeys(availability, g, r)| + |RouteKeys(congestion, g, r)|
    {
      if (g, r) !in RecountRoutes(availability, congestion) {
        forall k | k in availability.Keys + congestion.Keys ensures (k.gateway, k.route) != (g, r) {
          assert (k.gateway, k.route) in RecountRoutes(availability, congestion);
        }
        assert RouteKeys(availability, g, r) == {} && RouteKeys(congestion, g, r) == {};
      }
    }
    forall g
      ensures Count(RecountGateways(availability, congestion), g)
           == |GatewayKeys(availability, g)| + |GatewayKeys(congestion, g)|
    {
      if g !in RecountGateways(availability, congestion) {
        forall k | k in availability.Keys + congestion.Keys ensures k.gateway != g {
          assert k.gateway in RecountGateways(availability, congestion);
        }
        assert GatewayKeys(availability, g) == {} && GatewayKeys(congestion, g) == {};
      }
    }
  }

  lemma ReclaimAgrees<T>(records: Records<T>, cfg: Config, gateway: Id, route: Id)
    requires KeysValid(cfg, records) && route !in GatewayRoutes(cfg, gateway)
    ensures RouteAgrees(records, Without(records, gateway), route)
  {
    forall k | k in records && k.route == route ensures k.gateway != gateway {
      assert ValidKey(cfg, k);
      if k.gateway == gateway { CarriedRoutes(cfg, gateway, route); }
    }
  }

  /** Dropping one gateway's records keeps the others', and all of the invariant but the
      leaves of the routes that gateway carries. */
  lemma ReclaimRecords<T>(records: Records<T>, cfg: Config, gateway: Id, sequence: nat,
                          before: map<Association, Identity>, after: map<Association, Identity>)
    requires KeysValid(cfg, records) && KeysAttached(before, records) && Sequenced(records, sequence)
    requires forall a :: a in before && before[a].gateway != gateway ==> a in after && after[a] == before[a]
    ensures KeysValid(cfg, Without(records, gateway)) && KeysAttached(after, Without(records, gateway))
    ensures Sequenced(Without(records, gateway), sequence)
  {
    var kept := Without(records, gateway);
    forall k | k in kept ensures ValidKey(cfg, k) && GatewayAttached(after, k.gateway) {
      assert ValidKey(cfg, k) && GatewayAttached(before, k.gateway);
      var a :| a in before && before[a].gateway == k.gateway;
      assert after[a].gateway == k.gateway;
    }
  }

  lemma FewerWithinLimits(cfg: Config, s: Store, t: Store, gateway: Id)
    requires CountersOk(s.availability, s.congestion, s.counters) && LimitsOk(cfg, s.counters)
    requires CountersOk(t.availability, t.congestion, t.counters)
    requires t.availability == Without(s.availability, gateway) && t.congestion == Without(s.congestion, gateway)
    ensures LimitsOk(cfg, t.counters)
  {
    WithoutKeys(s.availability, gateway);
    WithoutKeys(s.congestion, gateway);
    forall g, r ensures Count(t.counters.perRoute, (g, r)) <= Count(s.counters.perRoute, (g, r)) {}
    forall g ensures Count(t.counters.perGateway, g) <= Count(s.counters.perGateway, g) {}
  }

  lemma LeaveKeepsAttached<T>(associations: map<Association, Identity>, a: Association, records: Records<T>)
    requires a in associations && KeysAttached(associations, records)
    requires GatewayAttached(associations - {a}, associations[a].gateway)
    ensures KeysAttached(associations - {a}, records)
  {
    forall k | k in records ensures GatewayAttached(associations - {a}, k.gateway) {
      assert GatewayAttached(associations, k.gateway);
      var b :| b in associations && associations[b].gateway == k.gateway;
      if b != a { assert (associations - {a})[b].gateway == k.gateway; }
    }
  }

  /** asp_routes.go:227-264. */
  lemma DetachInv(cfg: Config, s: State, a: Association)
    requires ValidConfig(cfg) && Inv(cfg, s)
    ensures Inv(cfg, Detach(cfg, s, a))
  {
    if a !in s.associations {
      RecomputeDerives(cfg, s, None);
    } else {
      var gateway := s.associations[a].gateway;
      var affected := s.eligible[a];
      var left := s.(associations := s.associations - {a}, eligible := s.eligible - {a});
      if GatewayAttached(left.associations, gateway) {
        LeaveKeepsAttached(s.associations, a, s.store.availability);
        LeaveKeepsAttached(s.associations, a, s.store.congestion);
        DerivedFrame(cfg, s, left);
        RecomputeDerives(cfg, left, Some(affected));
      } else {
        LastDetachInv(cfg, s, a, left);
      }
    }
  }

  lemma LastDetachInv(cfg: Config, s: State, a: Association, left: State)
    requires ValidConfig(cfg) && Inv(cfg, s) && a in s.associations
    requires left == s.(associations := s.associations - {a}, eligible := s.eligible - {a})
    requires !GatewayAttached(left.associations, s.associations[a].gateway)
    ensures var gateway := s.associations[a].gateway;
            Inv(cfg, Recompute(cfg, left.(store := Reclaim(left.store, gateway)),
                               Some(s.eligible[a] + GatewayRoutes(cfg, gateway))))
  {
    var gateway := s.associations[a].gateway;
    ReclaimStore(cfg, s.associations, left.associations, s.store, gateway);
    var reclaimed := left.(store := Reclaim(left.store, gateway));
    assert RecordsInv(cfg, reclaimed);
    LastDetachDerived(cfg, s, reclaimed, gateway, s.eligible[a] + GatewayRoutes(cfg, gateway));
  }

  lemma LastDetachDerived(cfg: Config, s: State, reclaimed: State, gateway: Id, affected: set<Id>)
    requires Inv(cfg, s) && GatewayRoutes(cfg, gateway) <= affected
    requires reclaimed.store.availability == Without(s.store.availability, gateway)
    requires reclaimed.store.congestion == Without(s.store.congestion, gateway)
    requires reclaimed.derived == s.derived && reclaimed.used == s.used
    ensures DerivedOk(cfg, Recompute(cfg, reclaimed, Some(affected)))
  {
    forall r | r in RouteRanges(cfg) && r !in affected ensures RouteDerived(cfg, reclaimed, r) {
      ReclaimDerived(cfg, s, reclaimed, gateway, r);
    }
    RecomputeDerives(cfg, reclaimed, Some(affected));
  }

  /** Reclaiming one gateway leaves every other gateway's records as they were. */
  lemma ReclaimStore(cfg: Config, before: map<Association, Identity>, after: map<Association, Identity>,
                     store: Store, gateway: Id)
    requires StoreOk(cfg, before, store) && LimitsOk(cfg, store.counters)
    requires forall a :: a in before && before[a].gateway != gateway ==> a in after && after[a] == before[a]
    ensures StoreOk(cfg, after, Reclaim(store, gateway)) && LimitsOk(cfg, Reclaim(store, gateway).counters)
    ensures forall k :: (k in Reclaim(store, gateway).availability <==> k in store.availability && k.gateway != gateway)
                     && (k in Reclaim(store, gateway).congestion <==> k in store.congestion && k.gateway != gateway)
  {
    ReclaimRecords(store.availability, cfg, gateway, store.sequence, before, after);
    ReclaimRecords(store.congestion, cfg, gateway, store.sequence, before, after);
    RecountCounts(Without(store.availability, gateway), Without(store.congestion, gateway));
    FewerWithinLimits(cfg, store, Reclaim(store, gateway), gateway);
  }

  lemma ReclaimDerived(cfg: Config, s: State, t: State, gateway: Id, r: Id)
    requires Inv(cfg, s) && r in RouteRanges(cfg) && r !in GatewayRoutes(cfg, gateway)
    requires t.store.availability == Without(s.store.availability, gateway)
    requires t.store.congestion == Without(s.store.congestion, gateway)
    requires t.derived == s.derived && t.used == s.used
    ensures RouteDerived(cfg, t, r)
  {
    assert RouteDerived(cfg, s, r);
    ReclaimAgrees(s.store.availability, cfg, gateway, r);
    ReclaimAgrees(s.store.congestion, cfg, gateway, r);
    DerivedDepends(Views(cfg.gateways, s.used[r], r), s.store.availability, s.store.congestion,
                   t.store.availability, t.store.congestion, r, RouteRanges(cfg)[r]);
  }
}
