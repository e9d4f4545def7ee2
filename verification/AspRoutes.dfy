/** The registry of asp_routes.go with its fields and loops. Every operation is proved to do
    what RouteState specifies, to keep the invariant, and to publish exactly the change of the
    derived leaves. */
module AspRoutes {
  import opened Common
  import opened PointCodes
  import opened RouteRecords
  import opened DerivedStatus
  import opened RouteState
  import opened RouteInvariants
  import opened RouteReports
  import opened RouteRuns
  import opened RouteCapability
  import opened StatusDiff
  import opened IndicationQueue
  import opened StateIndex
  import opened RecordStore

  // ---- Aligned leaves ----

  ghost predicate LeavesAligned(derived: map<Id, map<Range, Status>>) {
    forall r :: r in derived ==> AlignedRanges(derived[r])
  }

  // ---- Recomputing route by route ----

  /** The leaves after the first n configured routes have been considered. */
  ghost function PartlyDerived(cfg: Config, s: State, only: Option<set<Id>>, n: nat): map<Id, map<Range, Status>>
    requires n <= |cfg.routes| && s.derived.Keys == RouteRanges(cfg).Keys
  {
    map r | r in s.derived ::
      if (only.None? || r in only.value) && ListedBefore(cfg, r, n)
      then DerivedFor(cfg, s, Capable(cfg, s, r), r, RouteRanges(cfg)[r]) else s.derived[r]
  }

  ghost predicate ListedBefore(cfg: Config, r: Id, n: nat) {
    exists i :: 0 <= i < n && i < |cfg.routes| && cfg.routes[i].id == r
  }

  lemma PartlyNone(cfg: Config, s: State, only: Option<set<Id>>)
    requires s.derived.Keys == RouteRanges(cfg).Keys
    ensures PartlyDerived(cfg, s, only, 0) == s.derived
  {}

  lemma ListedNext(cfg: Config, n: nat)
    requires ValidConfig(cfg) && n < |cfg.routes|
    ensures var r := cfg.routes[n].id;
            && r in RouteRanges(cfg) && RouteRanges(cfg)[r] == cfg.routes[n].range
            && !ListedBefore(cfg, r, n) && ListedBefore(cfg, r, n + 1)
            && forall o :: o != r ==> (ListedBefore(cfg, o, n + 1) <==> ListedBefore(cfg, o, n))
  {
    RangesFromExact(cfg.routes, n);
  }

  lemma PartlyNext(cfg: Config, s: State, only: Option<set<Id>>, n: nat)
    requires ValidConfig(cfg) && n < |cfg.routes| && s.derived.Keys == RouteRanges(cfg).Keys
    ensures var r, before := cfg.routes[n].id, PartlyDerived(cfg, s, only, n);
            && r in before && before[r] == s.derived[r] && r in RouteRanges(cfg) && RouteRanges(cfg)[r] == cfg.routes[n].range
            && PartlyDerived(cfg, s, only, n + 1)
               == if only.None? || r in only.value
                  then before[r := DerivedFor(cfg, s, Capable(cfg, s, r), r, RouteRanges(cfg)[r])] else before
  {
    hide DerivedFor, Capable, ListedBefore, ValidConfig, RouteRanges;
    ListedNext(cfg, n);
  }

  lemma AllListed(cfg: Config)
    ensures forall r :: r in RouteRanges(cfg) ==> ListedBefore(cfg, r, |cfg.routes|)
  {
    forall r | r in RouteRanges(cfg) ensures ListedBefore(cfg, r, |cfg.routes|) {
      var route :| route in cfg.routes && route.id == r;
      var i :| 0 <= i < |cfg.routes| && cfg.routes[i] == route;
    }
  }

  lemma PartlyAll(cfg: Config, s: State, only: Option<set<Id>>)
    requires s.derived.Keys == RouteRanges(cfg).Keys && s.used.Keys == RouteRanges(cfg).Keys
    ensures PartlyDerived(cfg, s, only, |cfg.routes|) == Recompute(cfg, s, only).derived
  {
    AllListed(cfg);
    hide DerivedFor, Capable, ListedBefore, RouteRanges;
    var partly, after := PartlyDerived(cfg, s, only, |cfg.routes|), Recompute(cfg, s, only).derived;
    assert partly.Keys == after.Keys;
    forall r | r in partly ensures partly[r] == after[r] {
      assert ListedBefore(cfg, r, |cfg.routes|);
    }
  }

  lemma NothingTold(roots: map<Id, Range>, leaves: Leaves)
    ensures BatchDelta(roots, leaves, leaves, [])
  {}

  lemma ConfiguredRoutes(cfg: Config)
    requires ValidConfig(cfg)
    ensures forall i, j :: 0 <= i < j < |cfg.routes| ==> cfg.routes[i].id != cfg.routes[j].id
    ensures forall i :: 0 <= i < |cfg.routes| ==> Aligned(cfg.routes[i].range)
  {}

  lemma RangesOfConfig(cfg: Config)
    ensures RouteRanges(cfg) == RangesFrom(cfg.routes)
  {}

  lemma InitialConsistent(cfg: Config)
    requires ValidConfig(cfg)
    ensures var s := Initial(cfg);
            && LeavesAligned(s.derived) && Grouped(s.associations, map[]) && AssociationsOk(cfg, s)
            && DistinctSequences(s.store.availability) && DistinctSequences(s.store.congestion)
  {
    forall r | r in Initial(cfg).derived ensures AlignedRanges(Initial(cfg).derived[r]) {
      ConfiguredRoute(cfg, r, {});
    }
  }

  class AspRoutes {
    const config: Config
    const ranges: map<Id, Range>
    var associations: map<Association, Identity>
    var associationsBySGP: map<Identity, set<Association>>
    /** What each association could carry if asked now: the associations' own state. */
    var live: map<Association, set<Id>>
    var eligibleRoutes: map<Association, set<Id>>
    var derived: map<Id, map<Range, Status>>
    ghost var used: map<Id, set<Id>>
    const store: RecordStore
    const indications: IndicationQueue

    ghost function Now(): State
      reads this, store
    {
      State(associations, live, eligibleRoutes, store.Contents(), derived, used)
    }

    ghost function Repr(): set<object>
      reads this, store, store.index
    {
      {this, indications} + store.Repr()
    }

    /** What holds even between a change and the recomputation that follows it. */
    ghost predicate Consistent()
      reads this, Repr()
    {
      && ValidConfig(config) && ranges == RouteRanges(config)
      && this !in store.Repr() && indications !in store.Repr()
      && store.Valid() && store.routes == config.routes && store.ranges == ranges && indications.Valid()
      && DistinctSequences(store.availability) && DistinctSequences(store.congestion)
      && Grouped(associations, associationsBySGP) && AssociationsOk(config, Now())
      && derived.Keys == ranges.Keys && used.Keys == ranges.Keys && LeavesAligned(derived)
    }

    /** The tries mirror the records, and the state keeps its invariant. */
    ghost predicate Valid()
      reads this, Repr()
    {
      Consistent() && Inv(config, Now())
    }

    /** asp_routes.go:143-179. */
    constructor (config: Config, queueSize: nat)
      requires ValidConfig(config) && queueSize > 0
      ensures Valid() && fresh(Repr()) && this.config == config && Now() == Initial(config)
      ensures indications.queue == [] && !indications.resyncPending && indications.capacity == queueSize
    {
      hide Inv, Consistent, Valid, RecordStore.Valid, ValidConfig, RouteRanges, RangesFrom, Aligned, IndicationQueue.Valid;
      ConfiguredRoutes(config);
      RangesOfConfig(config);
      this.config := config;
      ranges := RouteRanges(config);
      associations, associationsBySGP, live, eligibleRoutes := map[], map[], map[], map[];
      derived := map r | r in RouteRanges(config) :: map[RouteRanges(config)[r] := UNAVAILABLE];
      used := map r | r in RouteRanges(config) :: {};
      indications := new IndicationQueue(queueSize);
      store := new RecordStore(config.routes);
      new;
      assert this !in store.Repr();
      assert indications !in store.Repr();
      StartsValid();
    }

    lemma StartsValid()
      requires ValidConfig(config) && ranges == RouteRanges(config) && Now() == Initial(config) && associationsBySGP == map[]
      requires store.Valid() && store.routes == config.routes && store.ranges == ranges && indications.Valid()
      requires this !in store.Repr() && indications !in store.Repr()
      ensures Valid()
    {
      hide Inv, RecordStore.Valid, ValidConfig, LeavesAligned, DistinctSequences, Grouped, AssociationsOk, RouteRanges,
        IndicationQueue.Valid, RecordStore.Contents;
      InitialInv(config);
      InitialConsistent(config);
      store.HoldsRecords();
    }

    /** recomputeMTPRouteLocked (asp_routes.go:813-836). */
    method DeriveRoute(route: Route, ghost s: State) returns (updated: map<Range, Status>)
      requires ValidConfig(config) && this !in store.Repr() && store.Valid() && route.id in store.ranges && store.ranges[route.id] == route.range
      requires DistinctSequences(store.availability) && DistinctSequences(store.congestion) && Aligned(route.range)
      requires AssociationsOk(config, s) && Grouped(s.associations, associationsBySGP) && live == s.live
      requires s.store == store.Contents()
      ensures updated == DerivedFor(config, s, Capable(config, s, route.id), route.id, route.range)
      ensures AlignedRanges(updated)
    {
      hide ValidConfig, RecordStore.Valid, AssociationsOk, Grouped, DistinctSequences, Derived, Capable;
      var gateways := GatewaySnapshots(config, associationsBySGP, live, route.id, s);
      assert store.Valid();
      updated := store.Derive(route.id, gateways);
      DerivedAligned(gateways, store.availability, store.congestion, route.id, route.range);
    }

    /** The body of the loop of recomputeLocked: one route's leaves are replaced whole. */
    method ReplaceRoute(route: Route, ghost s: State) returns (delta: seq<Indication>)
      requires ValidConfig(config) && this !in store.Repr() && store.Valid() && route.id in store.ranges && store.ranges[route.id] == route.range
      requires DistinctSequences(store.availability) && DistinctSequences(store.congestion) && Aligned(route.range)
      requires AssociationsOk(config, s) && Grouped(s.associations, associationsBySGP) && live == s.live
      requires s.store == store.Contents() && route.id in derived && LeavesAligned(derived)
      modifies this`derived
      ensures store.Valid() && derived == old(derived)[route.id := DerivedFor(config, s, Capable(config, s, route.id), route.id, route.range)]
      ensures ExactDelta(old(derived)[route.id], None, derived[route.id], None, route.range, delta)
      ensures LeavesAligned(derived)
    {
      hide ValidConfig, RecordStore.Valid, AssociationsOk, Grouped, DistinctSequences, DerivedFor, Capable, ExactDelta, Aligned;
      var updated := DeriveRoute(route, s);
      delta := DerivedStatusIndications(route.range, derived[route.id], updated);
      derived := derived[route.id := updated];
    }

    /** recomputeLocked (asp_routes.go:793-811). */
    method Recompute(only: Option<set<Id>>) returns (told: seq<Told>)
      requires Consistent()
      modifies this`derived, this`used
      ensures Consistent() && Now() == RouteState.Recompute(config, old(Now()), only) && Repr() == old(Repr())
      ensures BatchDelta(ranges, old(derived), derived, told)
    {
      hide ValidConfig, RecordStore.Valid, BatchDelta, PartlyDerived, DerivedFor, Capable, Grouped,
        DistinctSequences, RouteRanges, Aligned, ExactDelta, RouteTries.Nodes;
      ConfiguredRoutes(config);
      ghost var s := Now();
      told := [];
      NothingTold(ranges, derived);
      PartlyNone(config, s, only);
      for i := 0 to |config.routes|
        invariant store.Valid() && s == Now().(derived := s.derived) && LeavesAligned(derived)
        invariant derived == PartlyDerived(config, s, only, i)
        invariant BatchDelta(ranges, s.derived, derived, told)
      {
        var route := config.routes[i];
        PartlyNext(config, s, only, i);
        if only.None? || route.id in only.value {
          ghost var before := derived;
          var delta := ReplaceRoute(route, s);
          BatchExtends(ranges, s.derived, before, route.id, derived[route.id], told, delta);
          told := told + Tagged(route.id, delta);
        }
      }
      PartlyAll(config, s, only);
      used := RouteState.Recompute(config, s, only).used;
    }

    /** eligibleAssociationRoutesLocked (asp_routes.go:266-281). */
    method EligibleRoutes(a: Association, identity: Identity) returns (eligible: set<Id>)
      ensures eligible == LiveRoutes(config, live, a, identity)
    {
      eligible := {};
      var served := SgpRoutes(config, identity);
      if served.None? {
        return;
      }
      var routeOrder := served.value;
      for i := 0 to |routeOrder|
        invariant eligible == set r | r in routeOrder[..i] && a in live && r in live[a]
      {
        if a in live && routeOrder[i] in live[a] {
          eligible := eligible + {routeOrder[i]};
        }
        assert routeOrder[..i + 1] == routeOrder[..i] + [routeOrder[i]];
      }
      assert routeOrder[..|routeOrder|] == routeOrder;
    }

    /** The association's own state changes before the registry is told. */
    method SetLive(a: Association, routes: set<Id>)
      requires Valid()
      modifies this`live
      ensures Valid() && Now() == RouteState.SetLive(old(Now()), a, routes)
    {
      hide Inv, Consistent;
      SetLiveInv(config, Now(), a, routes);
      ChangeLive(a, routes);
    }

    method ChangeLive(a: Association, routes: set<Id>)
      requires Consistent()
      modifies this`live
      ensures Consistent() && live == old(live)[a := routes]
    {
      hide RecordStore.Valid, ValidConfig, Grouped, DistinctSequences, RouteRanges;
      live := live[a := routes];
    }

    /** asp_routes.go:212-221. */
    method Join(a: Association, identity: Identity) returns (eligible: set<Id>)
      requires Consistent() && SgpRoutes(config, identity).Some?
      requires a in associations ==> associations[a] == identity
      modifies this`associations, this`associationsBySGP, this`eligibleRoutes
      ensures Consistent() && eligible == LiveRoutes(config, live, a, identity)
      ensures associations == old(associations)[a := identity] && eligibleRoutes == old(eligibleRoutes)[a := eligible]
    {
      hide RecordStore.Valid, ValidConfig, Grouped, DistinctSequences, RouteRanges, LiveRoutes, Regrouped, SgpRoutes;
      JoinGrouped(associations, associationsBySGP, a, identity);
      associations := associations[a := identity];
      associationsBySGP := Regrouped(associationsBySGP, a, identity);
      eligible := EligibleRoutes(a, identity);
      eligibleRoutes := eligibleRoutes[a := eligible];
    }

    /** asp_routes.go:1135-1144. */
    method Publish(told: seq<Told>)
      requires Consistent()
      modifies indications
      ensures Consistent() && Repr() == old(Repr())
      ensures (indications.queue, indications.resyncPending)
           == PublishedAll(indications.capacity, old(indications.queue), old(indications.resyncPending), told)
    {
      hide RecordStore.Valid, ValidConfig, Grouped, DistinctSequences, RouteRanges, AssociationsOk, LeavesAligned, PublishedAll;
      indications.Publish(told);
    }

    /** attach (asp_routes.go:194-225): only a provisioned SGP is accepted. */
    method Attach(a: Association, identity: Identity) returns (accepted: bool, ghost told: seq<Told>)
      requires Valid() && (a in associations ==> associations[a] == identity)
      modifies this, indications
      ensures Valid() && accepted == SgpRoutes(config, identity).Some?
      ensures Now() == if accepted then RouteState.Attach(config, old(Now()), a, identity) else old(Now())
      ensures BatchDelta(ranges, old(derived), derived, told)
      ensures (indications.queue, indications.resyncPending)
           == PublishedAll(indications.capacity, old(indications.queue), old(indications.resyncPending), told)
    {
      hide Inv, Consistent, BatchDelta, LiveRoutes, RouteState.Recompute, PublishedAll, SgpRoutes;
      if SgpRoutes(config, identity).None? {
        NothingTold(ranges, derived);
        NothingPublished(indications.capacity, indications.queue, indications.resyncPending);
        return false, [];
      }
      ValidHas();
      AttachInv(config, Now(), a, identity);
      var eligible := Join(a, identity);
      var indicated := Recompute(Some(eligible));
      Publish(indicated);
      return true, indicated;
    }

    /** Reading changes nothing. */
    twostate lemma StillConsistent()
      requires old(Consistent()) && unchanged(old(Repr()))
      ensures Consistent() && Repr() == old(Repr())
    {}

    lemma ValidHas()
      requires Valid()
      ensures ValidConfig(config)
    {}

    /** changedASPAssociationRoutes (asp_routes.go:315-331). */
    method ChangedRoutes(previous: set<Id>, current: set<Id>) returns (changed: set<Id>)
      ensures changed == Changed(previous, current)
    {
      var lost := Missing(previous, current);
      var gained := Missing(current, previous);
      changed := lost + gained;
    }

    static method Missing(from: set<Id>, other: set<Id>) returns (missing: set<Id>)
      ensures missing == from - other
    {
      missing := {};
      var todo := from;
      while todo != {}
        invariant todo <= from && missing == (from - todo) - other
        decreases |todo|
      {
        var r :| r in todo;
        todo := todo - {r};
        if r !in other { missing := missing + {r}; }
      }
    }

    /** associationStateChanged (asp_routes.go:565-586). */
    method AssociationStateChanged(a: Association) returns (changed: bool, ghost told: seq<Told>)
      requires Valid()
      modifies this, indications
      ensures Valid() && Now() == StateChanged(config, old(Now()), a)
      ensures !changed ==> Now() == old(Now())
      ensures BatchDelta(ranges, old(derived), derived, told)
      ensures (indications.queue, indications.resyncPending)
           == PublishedAll(indications.capacity, old(indications.queue), old(indications.resyncPending), told)
    {
      hide Inv, Consistent, BatchDelta, LiveRoutes, RouteState.Recompute, PublishedAll, SgpRoutes, Changed,
        RecordStore.Repr, RouteTries.Nodes;
      StateChangedInv(config, Now(), a);
      NothingTold(ranges, derived);
      NothingPublished(indications.capacity, indications.queue, indications.resyncPending);
      if a !in associations {
        return false, [];
      }
      var current, affected := EligibleNow(a);
      if affected == {} {
        return false, [];
      }
      NoteEligible(a, current);
      var indicated := Recompute(Some(affected));
      Publish(indicated);
      return true, indicated;
    }

    method EligibleNow(a: Association) returns (current: set<Id>, affected: set<Id>)
      requires Consistent() && a in associations
      ensures Consistent() && Repr() == old(Repr()) && current == LiveRoutes(config, live, a, associations[a])
      ensures affected == Changed(if a in eligibleRoutes then eligibleRoutes[a] else {}, current)
    {
      current := EligibleRoutes(a, associations[a]);
      affected := ChangedRoutes(if a in eligibleRoutes then eligibleRoutes[a] else {}, current);
      StillConsistent();
    }

    method NoteEligible(a: Association, current: set<Id>)
      requires Consistent() && a in associations
      modifies this`eligibleRoutes
      ensures Consistent() && eligibleRoutes == old(eligibleRoutes)[a := current]
    {
      hide RecordStore.Valid, ValidConfig, Grouped, DistinctSequences, RouteRanges, SgpRoutes;
      eligibleRoutes := eligibleRoutes[a := current];
    }

    /** asp_routes.go:247-256: every route some SGP of the gateway serves. */
    method RoutesOfGateway(gateway: Id) returns (routes: set<Id>)
      requires ValidConfig(config)
      ensures routes == GatewayRoutes(config, gateway)
    {
      routes := {};
      for g := 0 to |config.gateways|
        invariant forall h :: 0 <= h < g ==> config.gateways[h].id != gateway
        invariant routes == {}
      {
        if config.gateways[g].id == gateway {
          routes := RoutesOfProcesses(config.gateways[g]);
          GatewayRoutesAre(config, g);
          return;
        }
      }
      forall h | h in config.gateways ensures h.id != gateway {
        var k :| 0 <= k < |config.gateways| && config.gateways[k] == h;
      }
    }

    method RoutesOfProcesses(gateway: Gateway) returns (routes: set<Id>)
      ensures routes == set i, r | 0 <= i < |gateway.sgps| && r in gateway.sgps[i].routes :: r
    {
      routes := {};
      for i := 0 to |gateway.sgps|
        invariant routes == set j, r | 0 <= j < i && r in gateway.sgps[j].routes :: r
      {
        var served := gateway.sgps[i].routes;
        for k := 0 to |served|
          invariant routes == (set j, r | 0 <= j < i && r in gateway.sgps[j].routes :: r) + set r | r in served[..k]
        {
          routes := routes + {served[k]};
          assert served[..k + 1] == served[..k] + [served[k]];
        }
        assert served[..|served|] == served;
      }
    }

    /** detach (asp_routes.go:227-264). */
    method Detach(a: Association) returns (ghost told: seq<Told>)
      requires Valid()
      modifies this, store, indications
      ensures Valid() && Now() == RouteState.Detach(config, old(Now()), a)
      ensures BatchDelta(ranges, old(derived), derived, told)
      ensures (indications.queue, indications.resyncPending)
           == PublishedAll(indications.capacity, old(indications.queue), old(indications.resyncPending), told)
      ensures fresh(Repr() - old(Repr()))
    {
      hide Inv, Consistent, BatchDelta, LiveRoutes, RouteState.Recompute, PublishedAll, SgpRoutes, GatewayRoutes, Reclaim,
        GatewayAttached, ValidConfig, Recomputed, Departed, RecordStore.Repr, RouteTries.Nodes;
      ValidHas();
      DetachInv(config, Now(), a);
      var affected := if a in eligibleRoutes then Some(eligibleRoutes[a]) else None;
      if a in associations {
        DepartedIsDetach(config, Now(), a);
        hide RouteState.Detach;
        var routes := Depart(a);
        affected := Some(routes);
      }
      var indicated := Recompute(affected);
      Publish(indicated);
      return indicated;
    }

    /** asp_routes.go:232-259: what leaves with the association, and the routes it affects. */
    method Depart(a: Association) returns (affected: set<Id>)
      requires Consistent() && a in associations
      modifies this, store
      ensures Consistent() && Now() == Departed(old(Now()), a)
      ensures affected == Recomputed(config, old(Now()), Detached(a))
      ensures fresh(Repr() - old(Repr())) && derived == old(derived)
    {
      hide Consistent, GatewayRoutes, Reclaim, GatewayAttached;
      KnownEligible(a);
      affected := eligibleRoutes[a];
      var gateway := associations[a].gateway;
      var attached := Leave(a);
      if !attached {
        var routes := ReclaimRecords(gateway);
        affected := affected + routes;
      }
    }

    lemma KnownEligible(a: Association)
      requires Consistent() && a in associations
      ensures a in eligibleRoutes
    {}

    /** asp_routes.go:234-243. */
    method Leave(a: Association) returns (attached: bool)
      requires Consistent() && a in associations
      modifies this`associations, this`associationsBySGP, this`eligibleRoutes
      ensures Consistent() && associations == old(associations) - {a} && eligibleRoutes == old(eligibleRoutes) - {a}
      ensures attached == GatewayAttached(associations, old(associations)[a].gateway)
    {
      hide RecordStore.Valid, ValidConfig, Grouped, DistinctSequences, RouteRanges, SgpRoutes, Ungrouped, GatewayAttached;
      LeaveGrouped(associations, associationsBySGP, a);
      var identity := associations[a];
      associationsBySGP := Ungrouped(associationsBySGP, a, identity);
      associations := associations - {a};
      eligibleRoutes := eligibleRoutes - {a};
      attached := SignallingGatewayAttached(associationsBySGP, identity.gateway, associations);
    }

    /** asp_routes.go:247-257. */
    method ReclaimRecords(gateway: Id) returns (routes: set<Id>)
      requires Consistent()
      modifies store
      ensures routes == GatewayRoutes(config, gateway)
      ensures Consistent() && store.Contents() == Reclaim(old(store.Contents()), gateway)
      ensures fresh(Repr() - old(Repr()))
    {
      hide RecordStore.Valid, ValidConfig, Grouped, RouteRanges, SgpRoutes, GatewayRoutes, DistinctSequences, Without;
      routes := RoutesOfGateway(gateway);
      StillConsistent();
      DistinctKept(store.availability, gateway);
      DistinctKept(store.congestion, gateway);
      store.ReclaimGateway(gateway);
    }

    /** The writing half of apply (asp_routes.go:427-515): the keys were resolved earlier, for
        the identity the association had then. */
    method Apply(a: Association, identity: Identity, keys: seq<RangeKey>, affected: set<Id>, update: Update)
      returns (outcome: Outcome, ghost told: seq<Told>)
      requires Valid() && ValidReport(config, identity, keys) && affected == AffectedRoutes(keys)
      modifies Repr()
      ensures Valid() && (Now(), outcome) == Report(config, old(Now()), a, identity, keys, update)
      ensures BatchDelta(ranges, old(derived), derived, told)
      ensures (indications.queue, indications.resyncPending)
           == PublishedAll(indications.capacity, old(indications.queue), old(indications.resyncPending), told)
      ensures fresh(Repr() - old(Repr()))
    {
      hide Inv, Consistent, BatchDelta, RouteState.Recompute, PublishedAll, ValidReport, AffectedRoutes, WriteAll, Refused,
        ValidConfig, Ready;
      ValidHas();
      ReportInv(config, Now(), a, identity, keys, update);
      if a !in associations || associations[a] != identity {
        NothingTold(ranges, derived);
        NothingPublished(indications.capacity, indications.queue, indications.resyncPending);
        return Ignored, [];
      }
      ReportReady(a, identity, keys, update);
      var refusal;
      refusal, told := Attempt(keys, affected, update);
      return if refusal.Some? then RefusedWith(refusal.value) else Accepted, told;
    }

    /** The limits first, then the writes. */
    method Attempt(keys: seq<RangeKey>, affected: set<Id>, update: Update) returns (refusal: Option<Refusal>, ghost told: seq<Told>)
      requires Consistent()
      requires Refused(config, store.Contents(), keys, update) == None ==> Ready(config, associations, store.Contents(), keys, update)
      modifies Repr()
      ensures Consistent() && fresh(Repr() - old(Repr()))
      ensures refusal == Refused(config, old(store.Contents()), keys, update)
      ensures Now() == if refusal.Some? then old(Now()) else
                       RouteState.Recompute(config, old(Now()).(store := WriteAll(old(store.Contents()), keys, update)), Some(affected))
      ensures BatchDelta(ranges, old(derived), derived, told)
      ensures (indications.queue, indications.resyncPending)
           == PublishedAll(indications.capacity, old(indications.queue), old(indications.resyncPending), told)
    {
      hide Consistent, BatchDelta, RouteState.Recompute, PublishedAll, WriteAll, Refused, Ready;
      NothingTold(ranges, derived);
      NothingPublished(indications.capacity, indications.queue, indications.resyncPending);
      refusal := Admit(keys, update);
      if refusal.Some? { return refusal, []; }
      told := Accept(keys, affected, update);
      return None, told;
    }

    /** asp_routes.go:476-514. */
    method Accept(keys: seq<RangeKey>, affected: set<Id>, update: Update) returns (ghost told: seq<Told>)
      requires Consistent() && Ready(config, associations, store.Contents(), keys, update)
      modifies Repr()
      ensures Consistent() && fresh(Repr() - old(Repr()))
      ensures Now() == RouteState.Recompute(config, old(Now()).(store := WriteAll(old(store.Contents()), keys, update)), Some(affected))
      ensures BatchDelta(ranges, old(derived), derived, told)
      ensures (indications.queue, indications.resyncPending)
           == PublishedAll(indications.capacity, old(indications.queue), old(indications.resyncPending), told)
    {
      hide Consistent, BatchDelta, RouteState.Recompute, PublishedAll, WriteAll, Ready, RecordStore.Repr, RouteTries.Nodes;
      WriteRecords(keys, update);
      var indicated := Recompute(Some(affected));
      Publish(indicated);
      return indicated;
    }

    method Admit(keys: seq<RangeKey>, update: Update) returns (refusal: Option<Refusal>)
      requires Consistent()
      ensures Consistent() && Repr() == old(Repr()) && refusal == Refused(config, store.Contents(), keys, update)
    {
      refusal := store.Admit(config.perRouteLimit, config.perGatewayLimit, config.totalLimit, keys, update, config);
      StillConsistent();
    }

    lemma ReportReady(a: Association, identity: Identity, keys: seq<RangeKey>, update: Update)
      requires Valid() && ValidReport(config, identity, keys)
      requires a in associations && associations[a] == identity
      ensures Refused(config, store.Contents(), keys, update) == None ==>
                Ready(config, associations, store.Contents(), keys, update)
    {
      ReportKeysValid(config, Now(), a, identity, keys);
      RefusedExactly(config, store.Contents(), keys, update);
    }

    method WriteRecords(keys: seq<RangeKey>, update: Update)
      requires Consistent() && Ready(config, associations, store.Contents(), keys, update)
      modifies store.Repr()
      ensures Consistent() && Now() == old(Now()).(store := WriteAll(old(store.Contents()), keys, update))
      ensures indications.queue == old(indications.queue) && indications.resyncPending == old(indications.resyncPending)
      ensures fresh(Repr() - old(Repr()))
    {
      hide RecordStore.Valid, ValidConfig, Grouped, RouteRanges, SgpRoutes, Ready, WriteAll, DistinctSequences, LeavesAligned;
      WrittenDistinct(config, associations, store.Contents(), keys, update);
      store.Write(keys, update, config, associations);
    }
  }

  lemma WrittenDistinct(cfg: Config, associations: map<Association, Identity>, s: Store, keys: seq<RangeKey>, update: Update)
    requires Ready(cfg, associations, s, keys, update)
    ensures var t := WriteAll(s, keys, update); DistinctSequences(t.availability) && DistinctSequences(t.congestion)
  {
    WriteAllKeeps(cfg, associations, s, keys, update);
  }

  lemma GatewayRoutesAre(cfg: Config, g: nat)
    requires ValidConfig(cfg) && g < |cfg.gateways|
    ensures GatewayRoutes(cfg, cfg.gateways[g].id)
         == set i, r | 0 <= i < |cfg.gateways[g].sgps| && r in cfg.gateways[g].sgps[i].routes :: r
  {
    var gateway := cfg.gateways[g];
    forall h | h in cfg.gateways && h.id == gateway.id ensures h == gateway {
      var k :| 0 <= k < |cfg.gateways| && cfg.gateways[k] == h;
    }
    assert gateway in cfg.gateways;
  }

  lemma DistinctKept<T>(records: Records<T>, gateway: Id)
    requires DistinctSequences(records)
    ensures DistinctSequences(Without(records, gateway))
  {}

  lemma NothingPublished(capacity: nat, queue: seq<Message>, resyncPending: bool)
    ensures PublishedAll(capacity, queue, resyncPending, []) == (queue, resyncPending)
  {}
}
