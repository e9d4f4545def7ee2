/** Resolving a report to route ranges before the routing lock is taken
    (asp_routes.go:1296-1384): a memo per wire scope against the plain nested filter, and what
    the resulting keys cover. */
module ReportRanges {
  import opened Common
  import opened PointCodes
  import opened RouteRecords
  import opened RouteState
  import opened RouteInvariants
  import opened RouteReports

  /** The part of a status that decides which routes it concerns (asp_routes.go:1388-1393). */
  datatype Scope = Scope(appearance: nat, appearanceSet: bool, contexts: seq<nat>, contextsSet: bool)

  datatype DestinationReport = DestinationReport(scope: Scope, pc: nat, mask: nat)

  /** Whether some candidate of a route is carried in a scope; asked of the association. */
  type Carries = (Id, Scope) -> bool

  // ---- The plain filter ----

  function Carrying(routes: seq<Id>, carries: Carries, scope: Scope): seq<Id> {
    if routes == [] then []
    else
      var before, last := Carrying(routes[..|routes| - 1], carries, scope), routes[|routes| - 1];
      if carries(last, scope) then before + [last] else before
  }

  function KeyFor(gateway: Id, ranges: map<Id, Range>, route: Id, status: DestinationReport): Option<RangeKey> {
    if route !in ranges then None
    else
      match RouteIntersection(ranges[route], status.pc, status.mask)
      case NoOverlap => None
      case Overlap(range) => Some(RangeKey(gateway, route, range))
  }

  function KeysOfStatus(gateway: Id, ranges: map<Id, Range>, routes: seq<Id>, status: DestinationReport): seq<RangeKey> {
    if routes == [] then []
    else
      var before, key := KeysOfStatus(gateway, ranges, routes[..|routes| - 1], status), KeyFor(gateway, ranges, routes[|routes| - 1], status);
      if key.Some? then before + [key.value] else before
  }

  /** Every range the report names, in report then route order, repeats included. */
  function KeysOfReport(gateway: Id, ranges: map<Id, Range>, served: seq<Id>, carries: Carries,
                        statuses: seq<Option<DestinationReport>>): seq<RangeKey>
  {
    if statuses == [] then []
    else
      var before, last := KeysOfReport(gateway, ranges, served, carries, statuses[..|statuses| - 1]), statuses[|statuses| - 1];
      if last.None? then before
      else before + KeysOfStatus(gateway, ranges, Carrying(served, carries, last.value.scope), last.value)
  }

  /** First occurrences only, in order. */
  function Firsts(keys: seq<RangeKey>): (firsts: seq<RangeKey>)
    ensures forall k :: k in firsts <==> k in keys
    ensures forall i, j :: 0 <= i < j < |firsts| ==> firsts[i] != firsts[j]
  {
    if keys == [] then []
    else
      var before, last := Firsts(keys[..|keys| - 1]), keys[|keys| - 1];
      assert keys == keys[..|keys| - 1] + [last];
      if last in before then before else before + [last]
  }

  // ---- The memo (asp_routes.go:1360-1384) ----

  datatype ScopeMatch = ScopeMatch(scope: Scope, routes: seq<Id>)

  class ScopeMatches {
    const served: seq<Id>
    const carries: Carries
    var first: Option<ScopeMatch>
    var more: seq<ScopeMatch>

    /** Every remembered answer is the plain filter's. */
    ghost predicate Valid()
      reads this
    {
      && (first.Some? ==> first.value.routes == Carrying(served, carries, first.value.scope))
      && (forall i :: 0 <= i < |more| ==> more[i].routes == Carrying(served, carries, more[i].scope))
    }

    constructor (served: seq<Id>, carries: Carries)
      ensures Valid() && this.served == served && this.carries == carries
    {
      this.served, this.carries := served, carries;
      first, more := None, [];
    }

    method RoutesFor(scope: Scope) returns (routes: seq<Id>)
      requires Valid()
      modifies this
      ensures Valid() && routes == Carrying(served, carries, scope)
    {
      if first.Some? && first.value.scope == scope {
        return first.value.routes;
      }
      for i := 0 to |more| {
        if more[i].scope == scope {
          return more[i].routes;
        }
      }
      routes := [];
      for i := 0 to |served|
        invariant routes == Carrying(served[..i], carries, scope)
      {
        assert served[..i + 1][..i] == served[..i];
        if carries(served[i], scope) {
          routes := routes + [served[i]];
        }
      }
      assert served[..|served|] == served;
      if first.None? {
        first := Some(ScopeMatch(scope, routes));
      } else {
        more := more + [ScopeMatch(scope, routes)];
      }
    }
  }

  lemma FirstsSnoc(keys: seq<RangeKey>, key: RangeKey)
    ensures Firsts(keys + [key]) == if key in Firsts(keys) then Firsts(keys) else Firsts(keys) + [key]
  {
    assert (keys + [key])[..|keys|] == keys;
  }

  /** asp_routes.go:1296-1330. */
  method ReportRanges(gateway: Id, ranges: map<Id, Range>, served: seq<Id>, carries: Carries,
                      statuses: seq<Option<DestinationReport>>)
    returns (keys: seq<RangeKey>, affected: set<Id>)
    ensures keys == Firsts(KeysOfReport(gateway, ranges, served, carries, statuses))
    ensures affected == AffectedRoutes(keys)
  {
    hide Firsts, AffectedRoutes;
    keys, affected := [], {};
    NoKeys();
    var seen: set<RangeKey> := {};
    var scopes := new ScopeMatches(served, carries);
    for i := 0 to |statuses|
      invariant scopes.Valid() && fresh(scopes) && scopes.served == served && scopes.carries == carries
      invariant keys == Firsts(KeysOfReport(gateway, ranges, served, carries, statuses[..i]))
      invariant seen == (set k | k in keys) && affected == AffectedRoutes(keys)
    {
      assert statuses[..i + 1][..i] == statuses[..i];
      if statuses[i].Some? {
        var routes := scopes.RoutesFor(statuses[i].value.scope);
        keys, seen, affected := AppendStatus(gateway, ranges, routes, statuses[i].value, keys, seen, affected,
                                             KeysOfReport(gateway, ranges, served, carries, statuses[..i]));
      }
    }
    assert statuses[..|statuses|] == statuses;
  }

  lemma NoKeys()
    ensures Firsts([]) == [] && AffectedRoutes([]) == {}
  {}

  /** The inner loop: one status over the routes carried in its scope. */
  method AppendStatus(gateway: Id, ranges: map<Id, Range>, routes: seq<Id>, status: DestinationReport,
                      before: seq<RangeKey>, seenBefore: set<RangeKey>, affectedBefore: set<Id>, ghost named: seq<RangeKey>)
    returns (keys: seq<RangeKey>, seen: set<RangeKey>, affected: set<Id>)
    requires before == Firsts(named) && seenBefore == (set k | k in before) && affectedBefore == AffectedRoutes(before)
    ensures keys == Firsts(named + KeysOfStatus(gateway, ranges, routes, status))
    ensures seen == (set k | k in keys) && affected == AffectedRoutes(keys)
  {
    hide Firsts;
    keys, seen, affected := before, seenBefore, affectedBefore;
    assert named + [] == named;
    for j := 0 to |routes|
      invariant keys == Firsts(named + KeysOfStatus(gateway, ranges, routes[..j], status))
      invariant seen == (set k | k in keys) && affected == AffectedRoutes(keys)
    {
      ghost var earlier := KeysOfStatus(gateway, ranges, routes[..j], status);
      assert routes[..j + 1][..j] == routes[..j];
      var key := KeyFor(gateway, ranges, routes[j], status);
      if key.Some? {
        FirstsSnoc(named + earlier, key.value);
        assert named + (earlier + [key.value]) == named + earlier + [key.value];
        if key.value !in seen {
          AffectedSnoc(keys, key.value);
          seen := seen + {key.value};
          keys := keys + [key.value];
          affected := affected + {key.value.route};
        }
      }
    }
    assert routes[..|routes|] == routes;
  }

  lemma AffectedSnoc(keys: seq<RangeKey>, key: RangeKey)
    ensures AffectedRoutes(keys + [key]) == AffectedRoutes(keys) + {key.route}
    ensures (set k | k in keys + [key]) == (set k | k in keys) + {key}
  {
    assert key in keys + [key];
    forall r | r in AffectedRoutes(keys) ensures r in AffectedRoutes(keys + [key]) {
      var k :| k in keys && k.route == r;
      assert k in keys + [key];
    }
  }

  // ---- What the keys are ----

  lemma {:induction false} CarryingExact(routes: seq<Id>, carries: Carries, scope: Scope)
    ensures forall r :: r in Carrying(routes, carries, scope) <==> r in routes && carries(r, scope)
  {
    if routes != [] {
      var before, last := routes[..|routes| - 1], routes[|routes| - 1];
      assert routes == before + [last];
      CarryingExact(before, carries, scope);
    }
  }

  lemma {:induction false} KeysOfStatusExact(gateway: Id, ranges: map<Id, Range>, routes: seq<Id>, status: DestinationReport)
    ensures forall k :: k in KeysOfStatus(gateway, ranges, routes, status)
                   <==> k.route in routes && KeyFor(gateway, ranges, k.route, status) == Some(k)
  {
    if routes != [] {
      var before, last := routes[..|routes| - 1], routes[|routes| - 1];
      assert routes == before + [last];
      KeysOfStatusExact(gateway, ranges, before, status);
    }
  }

  ghost predicate NamedBy(gateway: Id, ranges: map<Id, Range>, served: seq<Id>, carries: Carries,
                          status: Option<DestinationReport>, k: RangeKey)
  {
    && status.Some? && k.route in served && carries(k.route, status.value.scope)
    && KeyFor(gateway, ranges, k.route, status.value) == Some(k)
  }

  lemma {:induction false} KeysOfReportExact(gateway: Id, ranges: map<Id, Range>, served: seq<Id>, carries: Carries,
                                             statuses: seq<Option<DestinationReport>>, k: RangeKey)
    ensures k in KeysOfReport(gateway, ranges, served, carries, statuses)
       <==> exists status :: status in statuses && NamedBy(gateway, ranges, served, carries, status, k)
  {
    if statuses != [] {
      var before, last := statuses[..|statuses| - 1], statuses[|statuses| - 1];
      assert statuses == before + [last];
      KeysOfReportExact(gateway, ranges, served, carries, before, k);
      if last.Some? {
        var carrying := Carrying(served, carries, last.value.scope);
        CarryingExact(served, carries, last.value.scope);
        KeysOfStatusExact(gateway, ranges, carrying, last.value);
        assert k in KeysOfStatus(gateway, ranges, carrying, last.value) <==> NamedBy(gateway, ranges, served, carries, last, k);
      }
      assert last in statuses;
      if status :| status in before && NamedBy(gateway, ranges, served, carries, status, k) { assert status in statuses; }
    }
  }

  /** The resolved keys are what the writing half may be given: distinct, of the SGP's own
      gateway, each an aligned part of a route the SGP serves. */
  lemma ResolvedIsValid(cfg: Config, identity: Identity, carries: Carries, statuses: seq<Option<DestinationReport>>)
    requires ValidConfig(cfg) && SgpRoutes(cfg, identity).Some?
    ensures ValidReport(cfg, identity, Firsts(KeysOfReport(identity.gateway, RouteRanges(cfg), SgpRoutes(cfg, identity).value, carries, statuses)))
  {
    var served := SgpRoutes(cfg, identity).value;
    var all := KeysOfReport(identity.gateway, RouteRanges(cfg), served, carries, statuses);
    var keys := Firsts(all);
    forall i | 0 <= i < |keys|
      ensures keys[i].gateway == identity.gateway && keys[i].route in served && keys[i].route in RouteRanges(cfg)
      ensures Aligned(keys[i].range) && Inside(keys[i].range, RouteRanges(cfg)[keys[i].route])
    {
      var k := keys[i];
      assert k in all;
      KeysOfReportExact(identity.gateway, RouteRanges(cfg), served, carries, statuses, k);
      var status :| status in statuses && NamedBy(identity.gateway, RouteRanges(cfg), served, carries, status, k);
      ConfiguredRoute(cfg, k.route, {});
      IntersectionExact(RouteRanges(cfg)[k.route], status.value.pc, status.value.mask);
    }
  }

  /** Some status of the report concerns the point code of the route. */
  ghost predicate Concerns(ranges: map<Id, Range>, served: seq<Id>, carries: Carries, status: Option<DestinationReport>, route: Id, q: nat) {
    && status.Some? && route in served && route in ranges && carries(route, status.value.scope)
    && Contains(ranges[route], q) && Reported(status.value.pc, status.value.mask, q)
  }

  /** A point code of a route is covered by the resolved keys exactly when some status of the
      report, in a scope that carries the route, names it. */
  lemma ResolvedCovers(gateway: Id, ranges: map<Id, Range>, served: seq<Id>, carries: Carries,
                       statuses: seq<Option<DestinationReport>>, route: Id, q: nat)
    requires forall r :: r in ranges ==> Aligned(ranges[r])
    ensures SomeCovers(Firsts(KeysOfReport(gateway, ranges, served, carries, statuses)), gateway, route, q)
       <==> exists status :: status in statuses && Concerns(ranges, served, carries, status, route, q)
  {
    var all := KeysOfReport(gateway, ranges, served, carries, statuses);
    if SomeCovers(Firsts(all), gateway, route, q) {
      var k :| k in Firsts(all) && Covers(k, gateway, route, q);
      KeysOfReportExact(gateway, ranges, served, carries, statuses, k);
      var status :| status in statuses && NamedBy(gateway, ranges, served, carries, status, k);
      IntersectionExact(ranges[route], status.value.pc, status.value.mask);
      assert Concerns(ranges, served, carries, status, route, q);
    }
    if status :| status in statuses && Concerns(ranges, served, carries, status, route, q) {
      IntersectionExact(ranges[route], status.value.pc, status.value.mask);
      var k := KeyFor(gateway, ranges, route, status.value).value;
      assert NamedBy(gateway, ranges, served, carries, status, k);
      KeysOfReportExact(gateway, ranges, served, carries, statuses, k);
      assert k in Firsts(all) && Covers(k, gateway, route, q);
    }
  }
}
