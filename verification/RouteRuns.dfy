/** Whole runs of the ASP route state: associations attach, leave, gain and lose routes, and
    report, in any order. At every reachable state each route's leaves read what a scan of
    the records reads, and each point code has been told of exactly its changes. */
module RouteRuns {
  import opened Common
  import opened PointCodes
  import opened RouteRecords
  import opened DerivedStatus
  import opened RouteState
  import opened RouteInvariants
  import opened RouteReports
  import opened StatusDiff
  import opened IndicationStream

  datatype Event =
    | Attached(a: Association, identity: Identity)
    | Detached(a: Association)
    /** The writing half of a report; its keys were resolved for this identity at any earlier time. */
    | Reported(a: Association, identity: Identity, keys: seq<RangeKey>, update: Update)
    /** The association can carry other routes from now on; the registry has not been told. */
    | Moved(a: Association, routes: set<Id>)
    /** The registry is told. */
    | Noted(a: Association)

  ghost function Step(cfg: Config, s: State, e: Event): State {
    match e
    case Attached(a, identity) => Attach(cfg, s, a, identity)
    case Detached(a) => Detach(cfg, s, a)
    case Reported(a, identity, keys, update) => Report(cfg, s, a, identity, keys, update).0
    case Moved(a, routes) => SetLive(s, a, routes)
    case Noted(a) => StateChanged(cfg, s, a)
  }

  /** What the callers keep to: only provisioned SGPs attach, an association attaches once,
      and keys come from range resolution. */
  ghost predicate Legal(cfg: Config, s: State, e: Event) {
    match e
    case Attached(a, identity) => SgpRoutes(cfg, identity).Some? && a !in s.associations
    case Reported(_, identity, keys, _) => ValidReport(cfg, identity, keys)
    case _ => true
  }

  ghost function Run(cfg: Config, events: seq<Event>): State {
    if events == [] then Initial(cfg)
    else Step(cfg, Run(cfg, events[..|events| - 1]), events[|events| - 1])
  }

  ghost predicate LegalRun(cfg: Config, events: seq<Event>) {
    forall n :: 0 <= n < |events| ==> Legal(cfg, Run(cfg, events[..n]), events[n])
  }

  lemma StepInv(cfg: Config, s: State, e: Event)
    requires ValidConfig(cfg) && Inv(cfg, s) && Legal(cfg, s, e)
    ensures Inv(cfg, Step(cfg, s, e))
  {
    match e
    case Attached(a, identity) => AttachInv(cfg, s, a, identity);
    case Detached(a) => DetachInv(cfg, s, a);
    case Reported(a, identity, keys, update) => ReportInv(cfg, s, a, identity, keys, update);
    case Moved(a, routes) => SetLiveInv(cfg, s, a, routes);
    case Noted(a) => StateChangedInv(cfg, s, a);
  }

  lemma LegalPrefix(cfg: Config, events: seq<Event>)
    requires events != [] && LegalRun(cfg, events)
    ensures LegalRun(cfg, events[..|events| - 1])
    ensures Legal(cfg, Run(cfg, events[..|events| - 1]), events[|events| - 1])
  {
    var before := events[..|events| - 1];
    forall n | 0 <= n < |before| ensures Legal(cfg, Run(cfg, before[..n]), before[n]) {
      assert before[..n] == events[..n];
    }
  }

  lemma {:induction false} RunInv(cfg: Config, events: seq<Event>)
    requires ValidConfig(cfg) && LegalRun(cfg, events)
    ensures Inv(cfg, Run(cfg, events))
  {
    if events == [] {
      InitialInv(cfg);
    } else {
      LegalPrefix(cfg, events);
      RunInv(cfg, events[..|events| - 1]);
      StepInv(cfg, Run(cfg, events[..|events| - 1]), events[|events| - 1]);
    }
  }

  // ---- What the leaves read ----

  /** The leaves of a map tile the range and hold this status at q. */
  ghost predicate Reads(derived: map<Range, Status>, root: Range, q: nat, status: Status) {
    && (Contains(root, q) <==> exists leaf :: leaf in derived && Contains(leaf, q))
    && (forall leaf, other ::
          leaf in derived && other in derived && Contains(leaf, q) && Contains(other, q) ==> leaf == other)
    && (forall leaf :: leaf in derived && Contains(leaf, q) ==> derived[leaf] == status)
  }

  lemma AlignedRecords<T>(cfg: Config, records: Records<T>, route: Id)
    requires KeysValid(cfg, records)
    ensures AlignedKeys(records, route)
  {
    forall k: RangeKey | k in records && k.route == route ensures Aligned(k.range) {
      assert ValidKey(cfg, k);
    }
  }

  lemma InvReads(cfg: Config, s: State, route: Id, q: nat)
    requires ValidConfig(cfg) && Inv(cfg, s) && route in RouteRanges(cfg)
    ensures route in s.derived && route in s.used
    ensures Reads(s.derived[route], RouteRanges(cfg)[route], q,
                  NaiveStatus(Views(cfg.gateways, s.used[route], route),
                              s.store.availability, s.store.congestion, route, q))
  {
    assert RouteDerived(cfg, s, route);
    ConfiguredRoute(cfg, route, s.used[route]);
    AlignedRecords(cfg, s.store.availability, route);
    AlignedRecords(cfg, s.store.congestion, route);
    DerivedReadsNaive(Views(cfg.gateways, s.used[route], route),
                      s.store.availability, s.store.congestion, route, RouteRanges(cfg)[route], q);
  }

  /** In every reachable state the derived leaves of each route are disjoint, cover its range
      exactly and read at every point code what a scan of all records reads, for the gateways
      that were capable when the route was last derived. */
  lemma EveryRunReads(cfg: Config, events: seq<Event>, route: Id, q: nat)
    requires ValidConfig(cfg) && LegalRun(cfg, events) && route in RouteRanges(cfg)
    ensures var s := Run(cfg, events);
            && route in s.derived && route in s.used
            && Reads(s.derived[route], RouteRanges(cfg)[route], q,
                     NaiveStatus(Views(cfg.gateways, s.used[route], route),
                                 s.store.availability, s.store.congestion, route, q))
  {
    RunInv(cfg, events);
    InvReads(cfg, Run(cfg, events), route, q);
  }

  // ---- What one event derives ----

  /** The routes one event derives anew. */
  ghost function Recomputed(cfg: Config, s: State, e: Event): set<Id> {
    match e
    case Attached(a, identity) => LiveRoutes(cfg, s.live, a, identity)
    case Detached(a) =>
      if a !in s.associations || a !in s.eligible then RouteRanges(cfg).Keys
      else s.eligible[a] + (if GatewayAttached(s.associations - {a}, s.associations[a].gateway) then {}
                            else GatewayRoutes(cfg, s.associations[a].gateway))
    case Reported(a, identity, keys, update) =>
      if Report(cfg, s, a, identity, keys, update).1 == Accepted then AffectedRoutes(keys) else {}
    case Moved(_, _) => {}
    case Noted(a) =>
      if a in s.associations && a in s.eligible then Changed(s.eligible[a], LiveRoutes(cfg, s.live, a, s.associations[a])) else {}
  }

  /** The state a detachment leaves before the recomputation. */
  ghost function Departed(s: State, a: Association): State
    requires a in s.associations
  {
    var gateway := s.associations[a].gateway;
    var left := s.(associations := s.associations - {a}, eligible := s.eligible - {a});
    if GatewayAttached(left.associations, gateway) then left else left.(store := Reclaim(left.store, gateway))
  }

  lemma DepartedIsDetach(cfg: Config, s: State, a: Association)
    requires Inv(cfg, s) && a in s.associations
    ensures Detach(cfg, s, a) == Recompute(cfg, Departed(s, a), Some(Recomputed(cfg, s, Detached(a))))
    ensures Departed(s, a).associations == s.associations - {a} && Departed(s, a).eligible == s.eligible - {a}
    ensures Departed(s, a).used == s.used
  {
    if GatewayAttached(s.associations - {a}, s.associations[a].gateway) {
      assert Recomputed(cfg, s, Detached(a)) == s.eligible[a];
    }
  }

  lemma RunThen(cfg: Config, events: seq<Event>, e: Event)
    ensures Run(cfg, events + [e]) == Step(cfg, Run(cfg, events), e)
    ensures LegalRun(cfg, events) && Legal(cfg, Run(cfg, events), e) ==> LegalRun(cfg, events + [e])
  {
    assert (events + [e])[..|events|] == events;
    if LegalRun(cfg, events) && Legal(cfg, Run(cfg, events), e) {
      forall n | 0 <= n < |events + [e]| ensures Legal(cfg, Run(cfg, (events + [e])[..n]), (events + [e])[n]) {
        if n < |events| { assert (events + [e])[..n] == events[..n]; }
      }
    }
  }

  // ---- What a departure leaves ----

  /** Reclaiming one gateway's records leaves every other gateway's as they were, and nothing
      of the departed one once its last association is gone. */
  lemma DetachReclaims(cfg: Config, s: State, a: Association, k: RangeKey)
    requires ValidConfig(cfg) && Inv(cfg, s) && a in s.associations
    ensures var t := Detach(cfg, s, a);
            var kept := k.gateway != s.associations[a].gateway || GatewayAttached(t.associations, k.gateway);
            && (k in t.store.availability <==> k in s.store.availability && kept)
            && (k in t.store.congestion <==> k in s.store.congestion && kept)
            && (k in t.store.availability ==> t.store.availability[k] == s.store.availability[k])
            && (k in t.store.congestion ==> t.store.congestion[k] == s.store.congestion[k])
            && t.store.sequence == s.store.sequence
  {
    DepartedIsDetach(cfg, s, a);
  }

  /** In every reachable state each record names a gateway with an attached association and a
      part of a route it carries, and the three counters equal a recount and keep their limits. */
  lemma EveryRunCounts(cfg: Config, events: seq<Event>)
    requires ValidConfig(cfg) && LegalRun(cfg, events)
    ensures var s := Run(cfg, events);
            && (forall k :: k in s.store.availability || k in s.store.congestion ==>
                  GatewayAttached(s.associations, k.gateway) && ValidKey(cfg, k))
            && CountersOk(s.store.availability, s.store.congestion, s.store.counters)
            && LimitsOk(cfg, s.store.counters)
  {
    RunInv(cfg, events);
    var s := Run(cfg, events);
    forall k | k in s.store.availability || k in s.store.congestion
      ensures GatewayAttached(s.associations, k.gateway) && ValidKey(cfg, k)
    {
      assert GatewayAttached(s.associations, k.gateway) && ValidKey(cfg, k);
    }
  }

  /** In no reachable state does the limit on the whole Endpoint refuse a report. */
  lemma EveryRunHasRoom(cfg: Config, events: seq<Event>, a: Association, identity: Identity, keys: seq<RangeKey>, update: Update)
    requires ValidConfig(cfg) && LegalRun(cfg, events) && ValidReport(cfg, identity, keys)
    ensures Report(cfg, Run(cfg, events), a, identity, keys, update).1 != RefusedWith(EndpointLimit)
  {
    RunInv(cfg, events);
    hide Inv, ValidConfig, LegalRun, ValidReport, Refused, WriteAll, Recompute, Run;
    var s := Run(cfg, events);
    if a in s.associations && s.associations[a] == identity {
      RefusedByOwnLimits(cfg, s, a, identity, keys, update);
    }
  }

  // ---- What a point code is told over a run ----

  /** The route's leaves after the first n events. */
  ghost function LeavesAt(cfg: Config, events: seq<Event>, n: nat, route: Id): map<Range, Status>
    requires n <= |events|
  {
    var s := Run(cfg, events[..n]);
    if route in s.derived then s.derived[route] else map[]
  }

  /** Each event's indications for one route are an exact delta of its leaves. */
  ghost predicate Announces(cfg: Config, events: seq<Event>, deltas: seq<seq<Indication>>, route: Id, root: Range) {
    && |deltas| == |events|
    && (forall n :: 0 <= n < |deltas| ==>
          ExactDelta(LeavesAt(cfg, events, n, route), None, LeavesAt(cfg, events, n + 1, route), None, root, deltas[n]))
  }

  lemma InitiallyUnavailable(cfg: Config, route: Id, q: nat)
    requires ValidConfig(cfg) && route in RouteRanges(cfg) && Contains(RouteRanges(cfg)[route], q)
    ensures route in Initial(cfg).derived
    ensures View(Initial(cfg).derived[route], RouteRanges(cfg)[route], q) == UNAVAILABLE
  {
    ConfiguredRoute(cfg, route, {});
    var root := RouteRanges(cfg)[route];
    assert Inside(root, root);
    ViewOfLeaf(map[root := UNAVAILABLE], root, root, q);
  }

  lemma DerivedAligned(gateways: seq<GatewayView>, av: Records<Availability>, cg: Records<Congestion>, route: Id, root: Range)
    requires Aligned(root)
    ensures AlignedRanges(Derived(gateways, av, cg, route, root))
  {
    forall leaf | leaf in Derived(gateways, av, cg, route, root) ensures Aligned(leaf) {
      LeafShape(KeyRanges(av, cg, route), root, leaf);
    }
  }

  lemma ReachedAligned(cfg: Config, s: State, route: Id)
    requires ValidConfig(cfg) && Inv(cfg, s) && route in RouteRanges(cfg)
    ensures route in s.derived && AlignedRanges(s.derived[route]) && Aligned(RouteRanges(cfg)[route])
  {
    assert RouteDerived(cfg, s, route);
    ConfiguredRoute(cfg, route, {});
    DerivedAligned(Views(cfg.gateways, s.used[route], route), s.store.availability, s.store.congestion, route, RouteRanges(cfg)[route]);
  }

  lemma PrefixLegal(cfg: Config, events: seq<Event>, n: nat)
    requires LegalRun(cfg, events) && n <= |events|
    ensures LegalRun(cfg, events[..n])
  {
    forall k | 0 <= k < n ensures Legal(cfg, Run(cfg, events[..n][..k]), events[..n][k]) {
      assert events[..n][..k] == events[..k];
    }
  }

  lemma LeavesAtAligned(cfg: Config, events: seq<Event>, n: nat, route: Id)
    requires ValidConfig(cfg) && LegalRun(cfg, events) && n <= |events| && route in RouteRanges(cfg)
    ensures AlignedRanges(LeavesAt(cfg, events, n, route))
  {
    hide Inv, Step, AlignedRanges, ValidConfig, RouteRanges, LegalRun;
    PrefixLegal(cfg, events, n);
    RunInv(cfg, events[..n]);
    ReachedAligned(cfg, Run(cfg, events[..n]), route);
  }

  /** Every run has announcements: some sequence of indications is an exact delta of each
      event's change, as the one the code emits is. */
  lemma EveryRunAnnounces(cfg: Config, events: seq<Event>, route: Id) returns (deltas: seq<seq<Indication>>)
    requires ValidConfig(cfg) && LegalRun(cfg, events) && route in RouteRanges(cfg)
    ensures Announces(cfg, events, deltas, route, RouteRanges(cfg)[route])
  {
    hide Inv, Step, AlignedRanges, ValidConfig, RouteRanges, LegalRun, ExactDelta, LeavesAt;
    ConfiguredRoute(cfg, route, {});
    var root := RouteRanges(cfg)[route];
    deltas := [];
    while |deltas| < |events|
      invariant |deltas| <= |events|
      invariant forall k :: 0 <= k < |deltas| ==>
        ExactDelta(LeavesAt(cfg, events, k, route), None, LeavesAt(cfg, events, k + 1, route), None, root, deltas[k])
    {
      var n := |deltas|;
      LeavesAtAligned(cfg, events, n, route);
      LeavesAtAligned(cfg, events, n + 1, route);
      var delta := DeltaExists(LeavesAt(cfg, events, n, route), None, LeavesAt(cfg, events, n + 1, route), None, root);
      deltas := deltas + [delta];
    }
  }

  /** What a point code is told over a run: MTP-RESUME and MTP-PAUSE in turn, starting with
      MTP-RESUME, the last one a resumption exactly when it reads restricted or available;
      replaying it all gives its status. */
  ghost predicate Told(cfg: Config, events: seq<Event>, deltas: seq<seq<Indication>>, route: Id, root: Range, q: nat) {
    var now := View(LeavesAt(cfg, events, |events|, route), root, q);
    && Alternates(AllEdges(deltas, q))
    && Replayed(UNAVAILABLE, deltas, q) == now
    && |AllEdges(deltas, q)| % 2 == if now.availability == Unavailable then 0 else 1
  }

  lemma AnnouncedTold(cfg: Config, events: seq<Event>, deltas: seq<seq<Indication>>, route: Id, q: nat)
    requires ValidConfig(cfg) && route in RouteRanges(cfg) && Contains(RouteRanges(cfg)[route], q)
    requires Announces(cfg, events, deltas, route, RouteRanges(cfg)[route])
    ensures Told(cfg, events, deltas, route, RouteRanges(cfg)[route], q)
  {
    var root := RouteRanges(cfg)[route];
    InitiallyUnavailable(cfg, route, q);
    hide ExactDelta, Step, ValidConfig, View;
    assert events[..0] == [];
    var maps := seq(|events| + 1, n requires 0 <= n <= |events| => LeavesAt(cfg, events, n, route));
    assert Emits(maps, deltas, root);
    assert maps[0] == Initial(cfg).derived[route];
    PauseResumeAlternate(maps, deltas, root, q);
    ReplayYieldsLast(maps, deltas, root, q);
  }

  /** asp_routes.go:170-177, 960-1123. Over every run each route's changes can be announced,
      and however they are, each of its point codes is told MTP-RESUME and MTP-PAUSE in turn
      and ends with its present status. */
  lemma RunAlternates(cfg: Config, events: seq<Event>, route: Id, q: nat)
    requires ValidConfig(cfg) && LegalRun(cfg, events)
    requires route in RouteRanges(cfg) && Contains(RouteRanges(cfg)[route], q)
    ensures exists deltas :: Announces(cfg, events, deltas, route, RouteRanges(cfg)[route])
    ensures forall deltas :: Announces(cfg, events, deltas, route, RouteRanges(cfg)[route])
                             ==> Told(cfg, events, deltas, route, RouteRanges(cfg)[route], q)
  {
    hide Announces, Told, ValidConfig, LegalRun, RouteRanges;
    var announced := EveryRunAnnounces(cfg, events, route);
    forall deltas | Announces(cfg, events, deltas, route, RouteRanges(cfg)[route])
      ensures Told(cfg, events, deltas, route, RouteRanges(cfg)[route], q)
    {
      AnnouncedTold(cfg, events, deltas, route, q);
    }
  }
}
