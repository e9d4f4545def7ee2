/** Which capability the leaves reflect over whole runs: associations change what they can
    carry before the registry is told, so a route can be derived with more, or less, than has
    been noted. Exactly when that outlasts the notes is settled by what held just before the
    event that derived the route last. */
module RouteCoherence {
  import opened Common
  import opened PointCodes
  import opened RouteRecords
  import opened DerivedStatus
  import opened RouteState
  import opened RouteInvariants
  import opened RouteReports
  import opened RouteRuns

  // ---- Which capability the leaves reflect ----

  /** The gateways capable by what was last noted of every association. */
  ghost function NotedCapable(s: State, route: Id): set<Id> {
    set a | a in s.associations && a in s.eligible && route in s.eligible[a] :: s.associations[a].gateway
  }

  /** The association was last noted as able to carry the route. */
  ghost predicate NotesRoute(s: State, a: Association, route: Id) {
    a in s.associations && a in s.eligible && route in s.eligible[a]
  }

  ghost predicate KeepsNotes(s: State, t: State, route: Id) {
    && (forall b :: NotesRoute(s, b, route) <==> NotesRoute(t, b, route))
    && (forall b :: NotesRoute(s, b, route) && NotesRoute(t, b, route) ==> s.associations[b].gateway == t.associations[b].gateway)
  }

  /** The noted capability of a route changes only with the notes about it. */
  lemma NotedFrame(s: State, t: State, route: Id)
    requires KeepsNotes(s, t, route)
    ensures NotedCapable(s, route) == NotedCapable(t, route)
  {
    forall g ensures g in NotedCapable(s, route) <==> g in NotedCapable(t, route) {
      if g in NotedCapable(s, route) {
        var b :| b in s.associations && b in s.eligible && route in s.eligible[b] && s.associations[b].gateway == g;
        assert NotesRoute(s, b, route);
      }
      if g in NotedCapable(t, route) {
        var b :| b in t.associations && b in t.eligible && route in t.eligible[b] && t.associations[b].gateway == g;
        assert NotesRoute(t, b, route);
      }
    }
  }

  ghost predicate CoherentRoute(s: State, route: Id) {
    route in s.used && s.used[route] == NotedCapable(s, route)
  }

  /** Every route was last derived with the capability noted now. */
  ghost predicate Coherent(cfg: Config, s: State) {
    forall r {:trigger CoherentRoute(s, r)} :: r in RouteRanges(cfg) ==> CoherentRoute(s, r)
  }

  /** A point code reads the naive scan over the gateways that can carry the route now. */
  ghost predicate ReadsPresent(cfg: Config, s: State, route: Id, q: nat) {
    && route in RouteRanges(cfg) && route in s.derived
    && Reads(s.derived[route], RouteRanges(cfg)[route], q,
             NaiveStatus(Views(cfg.gateways, Capable(cfg, s, route), route),
                         s.store.availability, s.store.congestion, route, q))
  }

  ghost predicate NotedNow(cfg: Config, s: State, a: Association) {
    a in s.associations && a in s.eligible ==> s.eligible[a] == LiveRoutes(cfg, s.live, a, s.associations[a])
  }

  ghost predicate AllNoted(cfg: Config, s: State) {
    forall a: Association {:trigger NotedNow(cfg, s, a)} :: NotedNow(cfg, s, a)
  }

  // ---- The guard of one event ----

  ghost function CarriersNow(cfg: Config, s: State, route: Id): set<Association> {
    set a | a in s.associations && route in LiveRoutes(cfg, s.live, a, s.associations[a])
  }

  ghost function CarriersNoted(s: State, route: Id): set<Association> {
    set a | a in s.associations && a in s.eligible && route in s.eligible[a]
  }

  ghost function GatewaysOf(associations: map<Association, Identity>, who: set<Association>): set<Id> {
    set a | a in who && a in associations :: associations[a].gateway
  }

  /** All but the association an event is about; a report is about none. */
  ghost function Others(who: set<Association>, e: Event): set<Association> {
    match e
    case Attached(a, _) => who - {a}
    case Detached(a) => who - {a}
    case Noted(a) => who - {a}
    case _ => who
  }

  /** The gateway of the association an event notes, when that one can carry the route. */
  ghost function OwnGateway(cfg: Config, s: State, e: Event, route: Id): set<Id> {
    match e
    case Attached(a, identity) => if route in LiveRoutes(cfg, s.live, a, identity) then {identity.gateway} else {}
    case Noted(a) =>
      if a in s.associations && route in LiveRoutes(cfg, s.live, a, s.associations[a]) then {s.associations[a].gateway} else {}
    case _ => {}
  }

  /** Before the event, and but for the association it is about: the gateways that can carry
      the route are those noted as able to. The gateway the event notes itself counts in both. */
  ghost predicate Guard(cfg: Config, s: State, e: Event, route: Id) {
    GatewaysOf(s.associations, Others(CarriersNow(cfg, s, route), e)) + OwnGateway(cfg, s, e, route)
    == GatewaysOf(s.associations, Others(CarriersNoted(s, route), e)) + OwnGateway(cfg, s, e, route)
  }

  lemma CapableGateways(cfg: Config, s: State, route: Id)
    ensures Capable(cfg, s, route) == GatewaysOf(s.associations, CarriersNow(cfg, s, route))
    ensures NotedCapable(s, route) == GatewaysOf(s.associations, CarriersNoted(s, route))
  {}

  lemma GatewaysFrame(before: map<Association, Identity>, after: map<Association, Identity>, who: set<Association>)
    requires forall b :: b in who ==> b in before && b in after && before[b] == after[b]
    ensures GatewaysOf(after, who) == GatewaysOf(before, who)
  {}

  lemma GatewaysMore(associations: map<Association, Identity>, who: set<Association>, a: Association)
    requires a in associations
    ensures GatewaysOf(associations, who + {a}) == GatewaysOf(associations, who) + {associations[a].gateway}
  {
    forall g ensures g in GatewaysOf(associations, who + {a}) <==> g in GatewaysOf(associations, who) || g == associations[a].gateway {
      if g in GatewaysOf(associations, who + {a}) {
        var b :| b in who + {a} && b in associations && associations[b].gateway == g;
      }
      if g in GatewaysOf(associations, who) {
        var b :| b in who && b in associations && associations[b].gateway == g;
        assert b in who + {a};
      }
      if g == associations[a].gateway { assert a in who + {a}; }
    }
  }

  /** The two capabilities right after an event that derives the route. */
  ghost predicate Split(cfg: Config, s: State, e: Event, t: State, route: Id) {
    && Capable(cfg, t, route) == GatewaysOf(s.associations, Others(CarriersNow(cfg, s, route), e)) + OwnGateway(cfg, s, e, route)
    && NotedCapable(t, route) == GatewaysOf(s.associations, Others(CarriersNoted(s, route), e)) + OwnGateway(cfg, s, e, route)
  }

  /** Whose gateways the capabilities after the event are, before any leaves are derived. */
  lemma SplitBy(cfg: Config, s: State, e: Event, t: State, route: Id, own: set<Association>)
    requires e.Attached? || e.Detached? || e.Noted?
    requires own <= {e.a} && (own != {} ==> e.a in t.associations)
    requires OwnGateway(cfg, s, e, route) == if own != {} then {t.associations[e.a].gateway} else {}
    requires forall b :: b in s.associations && b != e.a ==> b in t.associations && t.associations[b] == s.associations[b]
    requires CarriersNow(cfg, t, route) == Others(CarriersNow(cfg, s, route), e) + own
    requires CarriersNoted(t, route) == Others(CarriersNoted(s, route), e) + own
    ensures Split(cfg, s, e, t, route)
  {
    CapableGateways(cfg, t, route);
    var now, noted := Others(CarriersNow(cfg, s, route), e), Others(CarriersNoted(s, route), e);
    GatewaysFrame(s.associations, t.associations, now);
    GatewaysFrame(s.associations, t.associations, noted);
    if own == {} {
      assert now + own == now && noted + own == noted;
    } else {
      assert own == {e.a};
      GatewaysMore(t.associations, now, e.a);
      GatewaysMore(t.associations, noted, e.a);
    }
  }

  /** Capability and noted capability do not depend on the leaves. */
  lemma RecomputeRoute(cfg: Config, s: State, only: Option<set<Id>>, route: Id)
    requires route in RouteRanges(cfg) && route in s.used
    ensures var t := Recompute(cfg, s, only);
            && route in t.used && Capable(cfg, t, route) == Capable(cfg, s, route)
            && NotedCapable(t, route) == NotedCapable(s, route)
            && t.used[route] == if only.None? || route in only.value then Capable(cfg, s, route) else s.used[route]
  {}

  /** What an event does to one route: either it derives the route with the capability that
      then holds, or it leaves alone both what the route was derived with and what is noted. */
  ghost predicate Settles(cfg: Config, s: State, e: Event, t: State, route: Id) {
    && route in s.used && route in t.used
    && if route in Recomputed(cfg, s, e) then t.used[route] == Capable(cfg, t, route) && Split(cfg, s, e, t, route)
       else t.used[route] == s.used[route] && NotedCapable(t, route) == NotedCapable(s, route)
  }

  /** The state an attachment leaves before the recomputation. */
  ghost function Joined(cfg: Config, s: State, a: Association, identity: Identity): State {
    s.(associations := s.associations[a := identity], eligible := s.eligible[a := LiveRoutes(cfg, s.live, a, identity)])
  }

  lemma JoinedCarriers(cfg: Config, s: State, a: Association, identity: Identity, route: Id)
    requires a !in s.associations
    ensures var t, own := Joined(cfg, s, a, identity), if route in LiveRoutes(cfg, s.live, a, identity) then {a} else {};
            && CarriersNow(cfg, t, route) == Others(CarriersNow(cfg, s, route), Attached(a, identity)) + own
            && CarriersNoted(t, route) == Others(CarriersNoted(s, route), Attached(a, identity)) + own
            && (own == {} ==> KeepsNotes(s, t, route))
            && Attach(cfg, s, a, identity) == Recompute(cfg, t, Some(LiveRoutes(cfg, s.live, a, identity)))
  {
    hide LiveRoutes, Recompute;
  }

  lemma AttachSettles(cfg: Config, s: State, a: Association, identity: Identity, route: Id)
    requires Inv(cfg, s) && a !in s.associations && route in RouteRanges(cfg)
    ensures Settles(cfg, s, Attached(a, identity), Attach(cfg, s, a, identity), route)
  {
    hide Inv, Split, LiveRoutes, RouteRanges, CarriersNow, CarriersNoted, Others, Recompute, KeepsNotes, Attach, Settles;
    var e, joined, now := Attached(a, identity), Joined(cfg, s, a, identity), LiveRoutes(cfg, s.live, a, identity);
    JoinedCarriers(cfg, s, a, identity, route);
    if route in now { SplitBy(cfg, s, e, joined, route, {a}); }
    SettlesBy(cfg, s, e, joined, now, route);
  }

  /** An event that changes who is noted and then derives some routes. */
  lemma SettlesBy(cfg: Config, s: State, e: Event, pre: State, affected: set<Id>, route: Id)
    requires Inv(cfg, s) && route in RouteRanges(cfg) && pre.used == s.used
    requires affected == Recomputed(cfg, s, e)
    requires if route in affected then Split(cfg, s, e, pre, route) else KeepsNotes(s, pre, route)
    ensures Settles(cfg, s, e, Recompute(cfg, pre, Some(affected)), route)
  {
    UsedKnown(cfg, s, route);
    hide Inv, Split, Capable, RouteRanges, NotedCapable, Recompute, KeepsNotes, Recomputed;
    RecomputeRoute(cfg, pre, Some(affected), route);
    if route in affected {
      SplitLeaves(cfg, s, e, pre, Recompute(cfg, pre, Some(affected)), route);
    } else {
      NotedFrame(s, pre, route);
    }
  }

  lemma SplitLeaves(cfg: Config, s: State, e: Event, t: State, u: State, route: Id)
    requires Split(cfg, s, e, t, route)
    requires Capable(cfg, u, route) == Capable(cfg, t, route) && NotedCapable(u, route) == NotedCapable(t, route)
    ensures Split(cfg, s, e, u, route)
  {}

  lemma DepartedCarriers(cfg: Config, s: State, a: Association, route: Id)
    requires a in s.associations
    requires s.associations.Keys == s.eligible.Keys
    ensures var t := Departed(s, a);
            && CarriersNow(cfg, t, route) == Others(CarriersNow(cfg, s, route), Detached(a)) + {}
            && CarriersNoted(t, route) == Others(CarriersNoted(s, route), Detached(a)) + {}
            && (route !in s.eligible[a] ==> KeepsNotes(s, t, route))
  {
    hide LiveRoutes, Reclaim, GatewayAttached;
  }

  lemma StrangerCarriers(cfg: Config, s: State, a: Association, route: Id)
    requires a !in s.associations
    ensures CarriersNow(cfg, s, route) == Others(CarriersNow(cfg, s, route), Detached(a)) + {}
    ensures CarriersNoted(s, route) == Others(CarriersNoted(s, route), Detached(a)) + {}
  {
    hide LiveRoutes;
  }

  /** A detachment that finds nothing attached derives every route. */
  lemma StrangerSettles(cfg: Config, s: State, a: Association, route: Id)
    requires Inv(cfg, s) && route in RouteRanges(cfg) && a !in s.associations
    ensures Settles(cfg, s, Detached(a), Detach(cfg, s, a), route)
  {
    UsedKnown(cfg, s, route);
    InvAssociations(cfg, s);
    hide Inv, Split, Capable, LiveRoutes, RouteRanges, DerivedFor, CarriersNow, CarriersNoted, Others, NotedCapable, Recompute;
    RecomputeRoute(cfg, s, None, route);
    StrangerCarriers(cfg, s, a, route);
    SplitBy(cfg, s, Detached(a), s, route, {});
    SplitLeaves(cfg, s, Detached(a), s, Detach(cfg, s, a), route);
  }

  lemma DetachSettles(cfg: Config, s: State, a: Association, route: Id)
    requires Inv(cfg, s) && route in RouteRanges(cfg) && a in s.associations
    ensures Settles(cfg, s, Detached(a), Detach(cfg, s, a), route)
  {
    InvAssociations(cfg, s);
    DepartedIsDetach(cfg, s, a);
    DepartedCarriers(cfg, s, a, route);
    hide Inv, Split, LiveRoutes, RouteRanges, CarriersNow, CarriersNoted, Others, Recompute, KeepsNotes, Departed, Detach,
      GatewayRoutes, GatewayAttached, Settles;
    var e, left := Detached(a), Departed(s, a);
    if route in Recomputed(cfg, s, e) { SplitBy(cfg, s, e, left, route, {}); }
    SettlesBy(cfg, s, e, left, Recomputed(cfg, s, e), route);
  }

  ghost function WrittenBy(s: State, keys: seq<RangeKey>, update: Update): State {
    s.(store := WriteAll(s.store, keys, update))
  }

  lemma ReportShape(cfg: Config, s: State, a: Association, identity: Identity, keys: seq<RangeKey>, update: Update)
    ensures var (t, outcome) := Report(cfg, s, a, identity, keys, update);
            t == if outcome == Accepted then Recompute(cfg, WrittenBy(s, keys, update), Some(AffectedRoutes(keys))) else s
  {
    hide Recompute, WriteAll, Refused, AffectedRoutes;
  }

  lemma WrittenCarriers(cfg: Config, s: State, keys: seq<RangeKey>, update: Update, route: Id)
    ensures var t := WrittenBy(s, keys, update);
            Capable(cfg, t, route) == Capable(cfg, s, route) && NotedCapable(t, route) == NotedCapable(s, route)
  {
    hide WriteAll, LiveRoutes;
  }

  lemma ReportSplit(cfg: Config, s: State, e: Event, t: State, route: Id)
    requires e.Reported?
    requires Capable(cfg, t, route) == Capable(cfg, s, route) && NotedCapable(t, route) == NotedCapable(s, route)
    ensures Split(cfg, s, e, t, route)
  {
    CapableGateways(cfg, s, route);
    hide Capable, NotedCapable, GatewaysOf, CarriersNow, CarriersNoted;
  }

  lemma ReportSettles(cfg: Config, s: State, a: Association, identity: Identity, keys: seq<RangeKey>, update: Update, route: Id)
    requires Inv(cfg, s) && route in RouteRanges(cfg)
    ensures Settles(cfg, s, Reported(a, identity, keys, update), Report(cfg, s, a, identity, keys, update).0, route)
  {
    UsedKnown(cfg, s, route);
    hide Inv, RouteRanges, Report, Recompute, Capable, NotedCapable, AffectedRoutes, Split, WrittenBy;
    ReportShape(cfg, s, a, identity, keys, update);
    var written, t := WrittenBy(s, keys, update), Report(cfg, s, a, identity, keys, update).0;
    WrittenCarriers(cfg, s, keys, update, route);
    assert written.used == s.used by { UsedWritten(s, keys, update); }
    if Report(cfg, s, a, identity, keys, update).1 == Accepted {
      RecomputeRoute(cfg, written, Some(AffectedRoutes(keys)), route);
      ReportSplit(cfg, s, Reported(a, identity, keys, update), t, route);
    }
  }

  lemma UsedWritten(s: State, keys: seq<RangeKey>, update: Update)
    ensures WrittenBy(s, keys, update).used == s.used
  {
    hide WriteAll;
  }

  /** The state a note leaves before the recomputation. */
  ghost function Renoted(cfg: Config, s: State, a: Association): State
    requires a in s.associations
  {
    s.(eligible := s.eligible[a := LiveRoutes(cfg, s.live, a, s.associations[a])])
  }

  ghost function OwnCarrier(cfg: Config, s: State, a: Association, route: Id): set<Association>
    requires a in s.associations
  {
    if route in LiveRoutes(cfg, s.live, a, s.associations[a]) then {a} else {}
  }

  lemma RenotedCarriers(cfg: Config, s: State, a: Association, route: Id)
    requires a in s.associations && a in s.eligible
    ensures var t := Renoted(cfg, s, a);
            && CarriersNow(cfg, t, route) == Others(CarriersNow(cfg, s, route), Noted(a)) + OwnCarrier(cfg, s, a, route)
            && CarriersNoted(t, route) == Others(CarriersNoted(s, route), Noted(a)) + OwnCarrier(cfg, s, a, route)
            && (route !in Recomputed(cfg, s, Noted(a)) ==> KeepsNotes(s, t, route))
            && StateChanged(cfg, s, a) == if Recomputed(cfg, s, Noted(a)) == {} then s else Recompute(cfg, t, Some(Recomputed(cfg, s, Noted(a))))
  {
    hide LiveRoutes, Recompute;
  }

  lemma NoteSettles(cfg: Config, s: State, a: Association, route: Id)
    requires Inv(cfg, s) && route in RouteRanges(cfg)
    ensures Settles(cfg, s, Noted(a), StateChanged(cfg, s, a), route)
  {
    UsedKnown(cfg, s, route);
    InvAssociations(cfg, s);
    hide Inv, Split, LiveRoutes, RouteRanges, CarriersNow, CarriersNoted, Others, NotedCapable, Recompute, KeepsNotes, Changed;
    var e, affected := Noted(a), Recomputed(cfg, s, Noted(a));
    if affected != {} {
      RenotedCarriers(cfg, s, a, route);
      if route in affected { SplitBy(cfg, s, e, Renoted(cfg, s, a), route, OwnCarrier(cfg, s, a, route)); }
      SettlesBy(cfg, s, e, Renoted(cfg, s, a), affected, route);
    } else if a in s.associations {
      RenotedCarriers(cfg, s, a, route);
    }
  }

  lemma StepSettles(cfg: Config, s: State, e: Event, route: Id)
    requires Inv(cfg, s) && Legal(cfg, s, e) && route in RouteRanges(cfg)
    ensures Settles(cfg, s, e, Step(cfg, s, e), route)
  {
    hide Inv, Settles, RouteRanges;
    match e
    case Attached(a, identity) => AttachSettles(cfg, s, a, identity, route);
    case Detached(a) => if a in s.associations { DetachSettles(cfg, s, a, route); } else { StrangerSettles(cfg, s, a, route); }
    case Reported(a, identity, keys, update) => ReportSettles(cfg, s, a, identity, keys, update, route);
    case Moved(a, routes) => MoveSettles(cfg, s, a, routes, route);
    case Noted(a) => NoteSettles(cfg, s, a, route);
  }

  lemma MoveSettles(cfg: Config, s: State, a: Association, routes: set<Id>, route: Id)
    requires Inv(cfg, s) && route in RouteRanges(cfg)
    ensures Settles(cfg, s, Moved(a, routes), SetLive(s, a, routes), route)
  {
    UsedKnown(cfg, s, route);
    assert NotedCapable(SetLive(s, a, routes), route) == NotedCapable(s, route);
  }

  /** asp_routes.go:194-264, 315-331, 563-586. Whether one event leaves a route derived with the
      capability noted: when the event derives the route, exactly if its guard held before it;
      when it does not, exactly if that was so already. */
  lemma CoherentStep(cfg: Config, s: State, e: Event, route: Id)
    requires Inv(cfg, s) && Legal(cfg, s, e) && route in RouteRanges(cfg)
    ensures CoherentRoute(Step(cfg, s, e), route)
       <==> if route in Recomputed(cfg, s, e) then Guard(cfg, s, e, route) else CoherentRoute(s, route)
  {
    StepSettles(cfg, s, e, route);
    hide Inv, Step, Legal, Capable, NotedCapable, Recomputed, RouteRanges, GatewaysOf, Others, OwnGateway;
  }

  // ---- Whole runs ----

  /** The guard held at the last event of the run that derived the route. */
  ghost predicate LastDeriveGuarded(cfg: Config, events: seq<Event>, route: Id) {
    events != [] ==>
      var before, last := events[..|events| - 1], events[|events| - 1];
      if route in Recomputed(cfg, Run(cfg, before), last) then Guard(cfg, Run(cfg, before), last, route)
      else LastDeriveGuarded(cfg, before, route)
  }

  lemma InitiallyCoherent(cfg: Config, route: Id)
    requires route in RouteRanges(cfg)
    ensures CoherentRoute(Initial(cfg), route)
  {
    assert NotedCapable(Initial(cfg), route) == {};
  }

  /** In every reachable state a route was derived with the capability noted now exactly if
      the guard held when it was last derived. */
  lemma {:induction false} EveryRunCoherent(cfg: Config, events: seq<Event>, route: Id)
    requires ValidConfig(cfg) && LegalRun(cfg, events) && route in RouteRanges(cfg)
    ensures CoherentRoute(Run(cfg, events), route) <==> LastDeriveGuarded(cfg, events, route)
  {
    hide Inv, CoherentRoute, Guard, ValidConfig, RouteRanges, Step, Recomputed, Legal, LegalRun;
    if events == [] {
      InitiallyCoherent(cfg, route);
    } else {
      var before, last := events[..|events| - 1], events[|events| - 1];
      LegalPrefix(cfg, events);
      EveryRunCoherent(cfg, before, route);
      RunInv(cfg, before);
      CoherentStep(cfg, Run(cfg, before), last, route);
    }
  }

  /** asp_routes.go:194-264, 266-331, 563-586. Once every change has been noted, a route's
      leaves were derived with the gateways that can carry it now if and only if, just before
      the event that derived it last, the other associations' changes to it had been noted. */
  lemma CurrentExactly(cfg: Config, events: seq<Event>, route: Id)
    requires ValidConfig(cfg) && LegalRun(cfg, events) && route in RouteRanges(cfg)
    requires AllNoted(cfg, Run(cfg, events))
    ensures UpToDate(cfg, Run(cfg, events), route) <==> LastDeriveGuarded(cfg, events, route)
  {
    RunInv(cfg, events);
    EveryRunCoherent(cfg, events, route);
    InvAssociations(cfg, Run(cfg, events));
    NotedIsCapable(cfg, Run(cfg, events), route);
  }

  /** Every point code of such a route reads the naive scan over the gateways that can carry
      the route now. */
  lemma GuardedRunsAreCurrent(cfg: Config, events: seq<Event>, route: Id, q: nat)
    requires ValidConfig(cfg) && LegalRun(cfg, events) && route in RouteRanges(cfg)
    requires AllNoted(cfg, Run(cfg, events)) && LastDeriveGuarded(cfg, events, route)
    ensures ReadsPresent(cfg, Run(cfg, events), route, q)
  {
    CurrentExactly(cfg, events, route);
    RunInv(cfg, events);
    InvReads(cfg, Run(cfg, events), route, q);
  }

  /** What has been noted of every association is what holds now. */
  lemma NotedIsCapable(cfg: Config, s: State, route: Id)
    requires AssociationsOk(cfg, s) && AllNoted(cfg, s)
    ensures NotedCapable(s, route) == Capable(cfg, s, route)
  {
    forall g ensures g in NotedCapable(s, route) <==> g in Capable(cfg, s, route) {
      if g in NotedCapable(s, route) {
        var a :| a in s.associations && a in s.eligible && route in s.eligible[a] && s.associations[a].gateway == g;
        assert NotedNow(cfg, s, a);
      }
      if g in Capable(cfg, s, route) {
        var a :| a in s.associations && route in LiveRoutes(cfg, s.live, a, s.associations[a]) && s.associations[a].gateway == g;
        assert NotedNow(cfg, s, a);
      }
    }
  }

  // ---- Changes noted promptly ----

  /** Whenever anything but a note happens, every earlier eligibility change has been noted:
      an association reports its change before anything else touches the registry. */
  ghost predicate Prompt(cfg: Config, s: State, e: Event) {
    e.Noted? || AllNoted(cfg, s)
  }

  ghost predicate PromptRun(cfg: Config, events: seq<Event>) {
    forall n :: 0 <= n < |events| ==> Prompt(cfg, Run(cfg, events[..n]), events[n])
  }

  /** At most one association's change is waiting to be noted. */
  ghost predicate NotedBut(cfg: Config, s: State, except: Option<Association>) {
    forall a: Association {:trigger NotedNow(cfg, s, a)} :: Some(a) != except ==> NotedNow(cfg, s, a)
  }

  ghost predicate Waiting(cfg: Config, s: State) {
    exists except: Option<Association> :: NotedBut(cfg, s, except)
  }

  lemma SameNotes(cfg: Config, s: State, t: State, except: Option<Association>)
    requires NotedBut(cfg, s, except)
    requires t.live == s.live
    requires forall a :: a in t.associations && a in t.eligible && Some(a) != except && NotedNow(cfg, s, a) ==> NotedNow(cfg, t, a)
    ensures NotedBut(cfg, t, except)
  {
    forall a: Association | Some(a) != except ensures NotedNow(cfg, t, a) {
      assert NotedNow(cfg, s, a);
    }
  }

  lemma MovedStep(cfg: Config, s: State, a: Association, routes: set<Id>)
    requires AllNoted(cfg, s)
    ensures NotedBut(cfg, SetLive(s, a, routes), Some(a))
  {
    forall b: Association | Some(b) != Some(a) ensures NotedNow(cfg, SetLive(s, a, routes), b) {
      assert NotedNow(cfg, s, b);
    }
  }

  /** A note that derives anything is the one that was waiting. */
  lemma NoteStep(cfg: Config, s: State, a: Association, except: Option<Association>)
    requires Inv(cfg, s) && NotedBut(cfg, s, except)
    ensures NotedBut(cfg, StateChanged(cfg, s, a), except)
    ensures Recomputed(cfg, s, Noted(a)) != {} ==> AllNoted(cfg, StateChanged(cfg, s, a))
  {
    hide Inv;
    var t := StateChanged(cfg, s, a);
    InvAssociations(cfg, s);
    NoteFrame(cfg, s, a);
    SameNotes(cfg, s, t, except);
    if Recomputed(cfg, s, Noted(a)) != {} {
      assert except == Some(a);
      forall b ensures NotedNow(cfg, t, b) {
        if b != a { assert NotedNow(cfg, t, b); }
      }
    }
  }

  lemma InvAssociations(cfg: Config, s: State)
    requires Inv(cfg, s)
    ensures AssociationsOk(cfg, s)
  {}

  /** Noting one association leaves the others' notes as they were. */
  lemma NoteFrame(cfg: Config, s: State, a: Association)
    requires AssociationsOk(cfg, s)
    ensures var t := StateChanged(cfg, s, a);
            && t.associations == s.associations && t.live == s.live && t.eligible.Keys == s.eligible.Keys
            && NotedNow(cfg, t, a)
            && (forall b :: NotedNow(cfg, s, b) ==> NotedNow(cfg, t, b))
            && (Recomputed(cfg, s, Noted(a)) != {} ==> !NotedNow(cfg, s, a))
  {
    hide LiveRoutes, SgpRoutes, DerivedFor, Capable;
  }

  /** Every event but a silent change leaves everything noted that was. */
  lemma NotedStep(cfg: Config, s: State, e: Event)
    requires Inv(cfg, s) && Legal(cfg, s, e) && Prompt(cfg, s, e) && Waiting(cfg, s)
    ensures Waiting(cfg, Step(cfg, s, e))
    ensures !e.Noted? && !e.Moved? ==> AllNoted(cfg, Step(cfg, s, e))
    ensures e.Noted? && Recomputed(cfg, s, e) != {} ==> AllNoted(cfg, Step(cfg, s, e))
  {
    if e.Moved? {
      MovedStep(cfg, s, e.a, e.routes);
    } else if e.Noted? {
      var except :| NotedBut(cfg, s, except);
      NoteStep(cfg, s, e.a, except);
    } else {
      OthersNoted(cfg, s, e);
      assert NotedBut(cfg, Step(cfg, s, e), None);
    }
  }

  lemma OthersNoted(cfg: Config, s: State, e: Event)
    requires Inv(cfg, s) && Legal(cfg, s, e) && AllNoted(cfg, s) && !e.Noted? && !e.Moved?
    ensures AllNoted(cfg, Step(cfg, s, e))
  {
    InvAssociations(cfg, s);
    hide Inv, Recompute, NotedNow;
    var t := Step(cfg, s, e);
    match e
    case Attached(a, identity) =>
      forall b ensures NotedNow(cfg, t, b) { NotedJoined(cfg, s, a, identity, b); }
    case Detached(a) =>
      forall b ensures NotedNow(cfg, t, b) { NotedDeparted(cfg, s, a, b); }
    case Reported(a, identity, keys, update) =>
      ReportShape(cfg, s, a, identity, keys, update);
      forall b ensures NotedNow(cfg, t, b) { NotedWritten(cfg, s, keys, update, b); }
  }

  lemma NotedJoined(cfg: Config, s: State, a: Association, identity: Identity, b: Association)
    requires AllNoted(cfg, s)
    ensures NotedNow(cfg, Attach(cfg, s, a, identity), b)
  {
    hide LiveRoutes, RouteRanges, Capable, DerivedFor;
    assert NotedNow(cfg, s, b);
  }

  lemma NotedDeparted(cfg: Config, s: State, a: Association, b: Association)
    requires AllNoted(cfg, s)
    ensures NotedNow(cfg, Detach(cfg, s, a), b)
  {
    hide LiveRoutes, RouteRanges, Capable, DerivedFor, Reclaim, GatewayAttached, GatewayRoutes;
    assert NotedNow(cfg, s, b);
  }

  lemma NotedWritten(cfg: Config, s: State, keys: seq<RangeKey>, update: Update, b: Association)
    requires AllNoted(cfg, s)
    ensures NotedNow(cfg, s, b)
    ensures NotedNow(cfg, Recompute(cfg, WrittenBy(s, keys, update), Some(AffectedRoutes(keys))), b)
  {
    hide LiveRoutes, RouteRanges, Capable, DerivedFor, WriteAll, AffectedRoutes;
    assert NotedNow(cfg, s, b);
  }

  /** The other changes to a recomputed route have been noted. */
  lemma PromptCoherent(cfg: Config, s: State, e: Event)
    requires ValidConfig(cfg) && Inv(cfg, s) && Coherent(cfg, s)
    requires Legal(cfg, s, e) && Prompt(cfg, s, e) && Waiting(cfg, s)
    ensures Coherent(cfg, Step(cfg, s, e))
  {
    hide Inv, ValidConfig, Legal, Prompt, Waiting, CoherentRoute, RouteRanges, Step, Recomputed;
    forall r | r in RouteRanges(cfg) ensures CoherentRoute(Step(cfg, s, e), r) {
      assert CoherentRoute(s, r);
      if r in Recomputed(cfg, s, e) { PromptRoute(cfg, s, e, r); } else { CoherentStep(cfg, s, e, r); }
    }
  }

  lemma PromptRoute(cfg: Config, s: State, e: Event, route: Id)
    requires ValidConfig(cfg) && Inv(cfg, s) && route in RouteRanges(cfg) && route in Recomputed(cfg, s, e)
    requires Legal(cfg, s, e) && Prompt(cfg, s, e) && Waiting(cfg, s)
    ensures CoherentRoute(Step(cfg, s, e), route)
  {
    StepInv(cfg, s, e);
    NotedStep(cfg, s, e);
    StepSettles(cfg, s, e, route);
    NotAMove(cfg, s, e, route);
    InvAssociations(cfg, Step(cfg, s, e));
    hide Inv, ValidConfig, Legal, Prompt, Waiting, RouteRanges, Step, Recomputed, Split, Capable, NotedCapable, AllNoted;
    NotedIsCapable(cfg, Step(cfg, s, e), route);
  }

  lemma NotAMove(cfg: Config, s: State, e: Event, route: Id)
    requires route in Recomputed(cfg, s, e)
    ensures !e.Moved?
  {}

  lemma {:induction false} PromptRunCoherent(cfg: Config, events: seq<Event>)
    requires ValidConfig(cfg) && LegalRun(cfg, events) && PromptRun(cfg, events)
    ensures Coherent(cfg, Run(cfg, events)) && Waiting(cfg, Run(cfg, events))
  {
    if events == [] {
      assert NotedBut(cfg, Initial(cfg), None);
      forall r | r in RouteRanges(cfg) ensures CoherentRoute(Initial(cfg), r) {
        assert NotedCapable(Initial(cfg), r) == {};
      }
    } else {
      var before := events[..|events| - 1];
      LegalPrefix(cfg, events);
      forall n | 0 <= n < |before| ensures Prompt(cfg, Run(cfg, before[..n]), before[n]) {
        assert before[..n] == events[..n];
      }
      PromptRunCoherent(cfg, before);
      RunInv(cfg, before);
      assert Prompt(cfg, Run(cfg, events[..|events| - 1]), events[|events| - 1]);
      NotedStep(cfg, Run(cfg, before), events[|events| - 1]);
      PromptCoherent(cfg, Run(cfg, before), events[|events| - 1]);
    }
  }

  /** When eligibility changes are noted promptly, every state in which the last one has been
      noted reads, at every point code of every route, the naive scan over the gateways that
      can carry the route now. */
  lemma PromptRunsAreCurrent(cfg: Config, events: seq<Event>, route: Id, q: nat)
    requires ValidConfig(cfg) && LegalRun(cfg, events) && PromptRun(cfg, events)
    requires AllNoted(cfg, Run(cfg, events)) && route in RouteRanges(cfg)
    ensures ReadsPresent(cfg, Run(cfg, events), route, q)
  {
    PromptRunCoherent(cfg, events);
    RunInv(cfg, events);
    var s := Run(cfg, events);
    assert CoherentRoute(s, route);
    NotedIsCapable(cfg, s, route);
    InvReads(cfg, s, route, q);
  }

  // ---- Changes noted late ----

  /** An association gains a route, a report derives that route, and the association loses it
      again, all before its first change is noted. */
  ghost function Gained(s: State, a: Association, route: Id): State {
    SetLive(s, a, {route})
  }

  ghost predicate RaceReady(cfg: Config, s: State, a: Association, route: Id, keys: seq<RangeKey>, update: Update) {
    && a in s.associations && s.live == s.live[a := {}] && AllNoted(cfg, s)
    && SgpRoutes(cfg, s.associations[a]).Some? && route in SgpRoutes(cfg, s.associations[a]).value
    && route in RouteRanges(cfg) && route in AffectedRoutes(keys)
    && ValidReport(cfg, s.associations[a], keys)
    && Report(cfg, Gained(s, a, route), a, s.associations[a], keys, update).1 == Accepted
  }

  lemma GainedCapable(cfg: Config, s: State, a: Association, route: Id)
    requires a in s.associations && s.live == s.live[a := {}]
    requires SgpRoutes(cfg, s.associations[a]).Some? && route in SgpRoutes(cfg, s.associations[a]).value
    ensures Capable(cfg, Gained(s, a, route), route) == Capable(cfg, s, route) + {s.associations[a].gateway}
  {
    var t := Gained(s, a, route);
    forall b | b in s.associations
      ensures route in LiveRoutes(cfg, t.live, b, s.associations[b])
         <==> b == a || route in LiveRoutes(cfg, s.live, b, s.associations[b])
    {}
    forall g ensures g in Capable(cfg, t, route) <==> g in Capable(cfg, s, route) || g == s.associations[a].gateway {
      if g in Capable(cfg, s, route) {
        var b :| b in s.associations && route in LiveRoutes(cfg, s.live, b, s.associations[b]) && s.associations[b].gateway == g;
        assert route in LiveRoutes(cfg, t.live, b, t.associations[b]);
      }
      if g == s.associations[a].gateway { assert route in LiveRoutes(cfg, t.live, a, t.associations[a]); }
    }
  }

  ghost function GainReported(cfg: Config, s: State, a: Association, route: Id, keys: seq<RangeKey>, update: Update): State
    requires a in s.associations
  {
    Report(cfg, Gained(s, a, route), a, s.associations[a], keys, update).0
  }

  lemma UsedKnown(cfg: Config, s: State, route: Id)
    requires Inv(cfg, s) && route in RouteRanges(cfg)
    ensures route in s.used
  {}

  /** Capability depends on the associations and their own state only. */
  lemma CapableFrame(cfg: Config, s: State, t: State, route: Id)
    requires t.associations == s.associations && t.live == s.live
    ensures Capable(cfg, t, route) == Capable(cfg, s, route)
  {}

  lemma GainReport(cfg: Config, s: State, a: Association, route: Id, keys: seq<RangeKey>, update: Update)
    requires ValidConfig(cfg) && Inv(cfg, s) && RaceReady(cfg, s, a, route, keys, update)
    ensures var reported := GainReported(cfg, s, a, route, keys, update);
            && reported.associations == s.associations && reported.eligible == s.eligible
            && reported.live == s.live[a := {route}]
            && route in reported.used && reported.used[route] == Capable(cfg, s, route) + {s.associations[a].gateway}
  {
    hide Inv, ValidConfig, Capable, ValidReport, WriteAll, Refused, AllNoted, DerivedFor, NotedCapable;
    UsedKnown(cfg, s, route);
    GainedCapable(cfg, s, a, route);
    var gained := Gained(s, a, route);
    var written := gained.(store := WriteAll(gained.store, keys, update));
    CapableFrame(cfg, gained, written, route);
    RecomputeRoute(cfg, written, Some(AffectedRoutes(keys)), route);
  }

  /** The leaves then name the association's gateway although every change has been noted;
      unless another of its associations carries the route they are out of date, and nothing
      derives the route again until it changes once more. */
  lemma LateNote(cfg: Config, s: State, a: Association, route: Id, keys: seq<RangeKey>, update: Update)
    requires ValidConfig(cfg) && Inv(cfg, s) && RaceReady(cfg, s, a, route, keys, update)
    ensures var reported := GainReported(cfg, s, a, route, keys, update);
            var t := StateChanged(cfg, SetLive(reported, a, {}), a);
            && AllNoted(cfg, t) && t.store == reported.store
            && route in t.used && t.used[route] == Capable(cfg, s, route) + {s.associations[a].gateway}
            && Capable(cfg, t, route) == Capable(cfg, s, route)
  {
    GainReport(cfg, s, a, route, keys, update);
    LateNoteEnds(cfg, s, GainReported(cfg, s, a, route, keys, update), a, route);
  }

  lemma LateNoteEnds(cfg: Config, s: State, reported: State, a: Association, route: Id)
    requires Inv(cfg, s) && AllNoted(cfg, s) && a in s.associations && s.live == s.live[a := {}]
    requires reported.associations == s.associations && reported.eligible == s.eligible
    requires reported.live == s.live[a := {route}]
    ensures var t := SetLive(reported, a, {});
            && StateChanged(cfg, t, a) == t && AllNoted(cfg, t) && Capable(cfg, t, route) == Capable(cfg, s, route)
  {
    var t := SetLive(reported, a, {});
    assert t.live == s.live;
    assert NotedNow(cfg, s, a);
    forall b ensures NotedNow(cfg, t, b) {
      assert NotedNow(cfg, s, b);
    }
  }

  /** One SGP with one route of a single point code. */
  const RACE_CONFIG := Config([Route("r", Range(0, 0))], [Gateway("G", [Sgp("p", ["r"])])], 1, 1, 1)
  const RACE_IDENTITY := Identity("G", "p")
  const RACE_KEY := RangeKey("G", "r", Range(0, 0))
  const RACE_UPDATE := AvailabilityUpdate(Available)

  lemma RaceConfigValid()
    ensures ValidConfig(RACE_CONFIG)
    ensures RouteRanges(RACE_CONFIG) == map["r" := Range(0, 0)]
    ensures SgpRoutes(RACE_CONFIG, RACE_IDENTITY) == Some(["r"])
    ensures ValidReport(RACE_CONFIG, RACE_IDENTITY, [RACE_KEY])
  {
    var g := RACE_CONFIG.gateways[0];
    assert g.sgps[0].routes == ["r"] && GatewayCarries(g, "r");
    assert RangesFrom(RACE_CONFIG.routes[1..]) == map[];
    forall r | r in RACE_CONFIG.routes ensures exists g :: g in RACE_CONFIG.gateways && GatewayCarries(g, r.id) {
      assert g in RACE_CONFIG.gateways;
    }
    assert Aligned(Range(0, 0));
    assert Route("r", Range(0, 0)) in RACE_CONFIG.routes;
    assert "r" in RouteIds(RACE_CONFIG);
  }

  ghost function RaceStart(): State {
    Step(RACE_CONFIG, SetLive(Initial(RACE_CONFIG), 0, {}), Attached(0, RACE_IDENTITY))
  }

  lemma RaceStarted()
    ensures var s := RaceStart();
            && s.associations == map[0 := RACE_IDENTITY] && s.live == map[0 := {}] && s.eligible == map[0 := {}]
            && s.store == Store(map[], map[], 0, Counters(map[], map[], 0))
            && AllNoted(RACE_CONFIG, s)
  {
    RaceConfigValid();
    assert LiveRoutes(RACE_CONFIG, map[0 := {}], 0, RACE_IDENTITY) == {};
  }

  lemma RaceIsReady(s: State)
    requires s.associations == map[0 := RACE_IDENTITY] && s.live == map[0 := {}] && AllNoted(RACE_CONFIG, s)
    requires s.store == Store(map[], map[], 0, Counters(map[], map[], 0))
    ensures RaceReady(RACE_CONFIG, s, 0, "r", [RACE_KEY], RACE_UPDATE)
  {
    RaceConfigValid();
    RaceAccepted(s.store);
    assert RACE_KEY in [RACE_KEY];
  }

  lemma RaceIncapable(s: State)
    requires s.associations == map[0 := RACE_IDENTITY] && s.live == map[0 := {}]
    ensures Capable(RACE_CONFIG, s, "r") == {}
  {
    assert LiveRoutes(RACE_CONFIG, s.live, 0, RACE_IDENTITY) == {};
  }

  lemma RaceAccepted(s: Store)
    requires s == Store(map[], map[], 0, Counters(map[], map[], 0))
    ensures Refused(RACE_CONFIG, s, [RACE_KEY], RACE_UPDATE) == None
  {
    assert [RACE_KEY][..0] == [];
    assert Refused(RACE_CONFIG, s, [], RACE_UPDATE) == None;
  }

  lemma RaceViews(capable: set<Id>)
    ensures Views(RACE_CONFIG.gateways, capable, "r") == [GatewayView("G", "G" in capable)]
  {
    assert RACE_CONFIG.gateways[0].sgps[0].routes == ["r"];
    assert GatewayCarries(RACE_CONFIG.gateways[0], "r");
    assert Views(RACE_CONFIG.gateways[1..], capable, "r") == [];
  }

  lemma OneGateway(capable: bool, availability: Records<Availability>, congestion: Records<Congestion>)
    ensures NaiveStatus([GatewayView("G", capable)], availability, congestion, "r", 0)
         == GatewayStatus(capable, Newest(availability, "G", "r", 0), Newest(congestion, "G", "r", 0))
  {
    var statuses := NaiveStatuses([GatewayView("G", capable)], availability, congestion, "r", 0);
    assert statuses[..0] == [];
  }

  /** The two readings of the written store: with the gateway and without it. */
  lemma RaceReads(s: State)
    requires Inv(RACE_CONFIG, s) && s.associations == map[0 := RACE_IDENTITY]
    requires s.store == Store(map[], map[], 0, Counters(map[], map[], 0))
    ensures var t := Report(RACE_CONFIG, s, 0, RACE_IDENTITY, [RACE_KEY], RACE_UPDATE).0.store;
            && NaiveStatus(Views(RACE_CONFIG.gateways, {"G"}, "r"), t.availability, t.congestion, "r", 0)
               == Status(Available, NO_CONGESTION)
            && NaiveStatus(Views(RACE_CONFIG.gateways, {}, "r"), t.availability, t.congestion, "r", 0) == UNAVAILABLE
  {
    RaceNewest(s);
    hide Inv, Report, Views, NaiveStatus, Newest;
    var t := Report(RACE_CONFIG, s, 0, RACE_IDENTITY, [RACE_KEY], RACE_UPDATE).0.store;
    RaceViews({"G"});
    RaceViews({});
    OneGateway(true, t.availability, t.congestion);
    OneGateway(false, t.availability, t.congestion);
  }

  lemma RaceNewest(s: State)
    requires Inv(RACE_CONFIG, s) && s.associations == map[0 := RACE_IDENTITY]
    requires s.store == Store(map[], map[], 0, Counters(map[], map[], 0))
    ensures var t := Report(RACE_CONFIG, s, 0, RACE_IDENTITY, [RACE_KEY], RACE_UPDATE).0.store;
            Newest(t.availability, "G", "r", 0) == Some(Available) && Newest(t.congestion, "G", "r", 0) == None
  {
    RaceConfigValid();
    RaceAccepted(s.store);
    AcceptedWritesAll(RACE_CONFIG, s, 0, RACE_IDENTITY, [RACE_KEY], RACE_UPDATE, "G", "r", 0);
    NewestNone(s.store.congestion, "G", "r", 0);
    hide Inv, Recompute, WriteAll, Newest, Refused;
    assert RACE_KEY in [RACE_KEY] && Covers(RACE_KEY, "G", "r", 0);
    assert SomeCovers([RACE_KEY], "G", "r", 0);
  }

  const RACE: seq<Event> := [Moved(0, {}), Attached(0, RACE_IDENTITY), Moved(0, {"r"}),
                             Reported(0, RACE_IDENTITY, [RACE_KEY], RACE_UPDATE), Moved(0, {}), Noted(0)]

  ghost function RaceEnd(s: State): State
    requires 0 in s.associations
  {
    StateChanged(RACE_CONFIG, SetLive(GainReported(RACE_CONFIG, s, 0, "r", [RACE_KEY], RACE_UPDATE), 0, {}), 0)
  }

  lemma RaceBegins()
    ensures LegalRun(RACE_CONFIG, [Moved(0, {})] + [Attached(0, RACE_IDENTITY)])
    ensures Run(RACE_CONFIG, [Moved(0, {})] + [Attached(0, RACE_IDENTITY)]) == RaceStart()
  {
    RaceConfigValid();
    RunThen(RACE_CONFIG, [], Moved(0, {}));
    assert [] + [Moved(0, {})] == [Moved(0, {})];
    RunThen(RACE_CONFIG, [Moved(0, {})], Attached(0, RACE_IDENTITY));
  }

  lemma RaceEnds(events: seq<Event>, s: State)
    requires LegalRun(RACE_CONFIG, events) && Run(RACE_CONFIG, events) == s
    requires s.associations == map[0 := RACE_IDENTITY]
    ensures var race := events + [Moved(0, {"r"})] + [Reported(0, RACE_IDENTITY, [RACE_KEY], RACE_UPDATE)]
                        + [Moved(0, {})] + [Noted(0)];
            LegalRun(RACE_CONFIG, race) && Run(RACE_CONFIG, race) == RaceEnd(s)
  {
    RaceConfigValid();
    var gained := events + [Moved(0, {"r"})];
    RunThen(RACE_CONFIG, events, Moved(0, {"r"}));
    var reported := gained + [Reported(0, RACE_IDENTITY, [RACE_KEY], RACE_UPDATE)];
    RunThen(RACE_CONFIG, gained, Reported(0, RACE_IDENTITY, [RACE_KEY], RACE_UPDATE));
    RunThen(RACE_CONFIG, reported, Moved(0, {}));
    RunThen(RACE_CONFIG, reported + [Moved(0, {})], Noted(0));
  }

  lemma RaceSpelled()
    ensures [Moved(0, {})] + [Attached(0, RACE_IDENTITY)] + [Moved(0, {"r"})]
            + [Reported(0, RACE_IDENTITY, [RACE_KEY], RACE_UPDATE)] + [Moved(0, {})] + [Noted(0)] == RACE
  {}

  lemma RaceRuns()
    ensures LegalRun(RACE_CONFIG, RACE) && 0 in RaceStart().associations
    ensures Run(RACE_CONFIG, RACE) == RaceEnd(RaceStart()) && Inv(RACE_CONFIG, RaceStart())
  {
    RaceBegins();
    RaceStarted();
    RaceConfigValid();
    var events := [Moved(0, {})] + [Attached(0, RACE_IDENTITY)];
    RunInv(RACE_CONFIG, events);
    RaceEnds(events, RaceStart());
    RaceSpelled();
  }

  lemma RaceOutcome(s: State)
    requires Inv(RACE_CONFIG, s) && AllNoted(RACE_CONFIG, s)
    requires s.associations == map[0 := RACE_IDENTITY] && s.live == map[0 := {}]
    requires s.store == Store(map[], map[], 0, Counters(map[], map[], 0))
    ensures var t := RaceEnd(s);
            && AllNoted(RACE_CONFIG, t) && "r" in t.used && t.used["r"] == {"G"} && Capable(RACE_CONFIG, t, "r") == {}
            && NaiveStatus(Views(RACE_CONFIG.gateways, {"G"}, "r"), t.store.availability, t.store.congestion, "r", 0)
               == Status(Available, NO_CONGESTION)
            && NaiveStatus(Views(RACE_CONFIG.gateways, {}, "r"), t.store.availability, t.store.congestion, "r", 0)
               == UNAVAILABLE
  {
    RaceConfigValid();
    RaceIsReady(s);
    RaceIncapable(s);
    LateNote(RACE_CONFIG, s, 0, "r", [RACE_KEY], RACE_UPDATE);
    SetLiveInv(RACE_CONFIG, s, 0, {"r"});
    RaceReads(Gained(s, 0, "r"));
  }

  /** A concrete run: the route reads available although no association can carry it and
      every change has been noted. */
  lemma StaleAfterRace()
    ensures ValidConfig(RACE_CONFIG) && LegalRun(RACE_CONFIG, RACE)
    ensures var s := Run(RACE_CONFIG, RACE);
            && AllNoted(RACE_CONFIG, s) && "r" in s.derived
            && Reads(s.derived["r"], Range(0, 0), 0, Status(Available, NO_CONGESTION))
            && NaiveStatus(Views(RACE_CONFIG.gateways, Capable(RACE_CONFIG, s, "r"), "r"),
                           s.store.availability, s.store.congestion, "r", 0) == UNAVAILABLE
  {
    RaceConfigValid();
    RaceRuns();
    RaceStarted();
    RaceOutcome(RaceStart());
    RunInv(RACE_CONFIG, RACE);
    InvReads(RACE_CONFIG, Run(RACE_CONFIG, RACE), "r", 0);
  }
}
