/** The flat route-state records of asp_routes.go and the naive reading of them: for every
    Signalling Gateway the newest record covering a point code, then the best over gateways.
    Everything the incremental engine derives is measured against this reading. */
module RouteRecords {
  import opened Common
  import opened PointCodes

  /** Signalling Gateway, SGP, route and Application Server names. */
  type Id = string

  datatype Availability = Available | Unavailable | Restricted

  datatype Congestion = Congestion(congested: bool, level: nat, levelSet: bool)

  const NO_CONGESTION := Congestion(false, 0, false)

  /** One stored report; the sequence number orders reports of one kind. */
  datatype Record<T> = Record(value: T, sequence: nat)

  datatype RangeKey = RangeKey(gateway: Id, route: Id, range: Range)

  type Records<T> = map<RangeKey, Record<T>>

  datatype Status = Status(availability: Availability, congestion: Congestion)

  /** What is reported when nothing is known: the zero status of the source. */
  const UNAVAILABLE := Status(Unavailable, NO_CONGESTION)

  /** One gateway configured for a route, and whether it can carry the route now. */
  datatype GatewayView = GatewayView(id: Id, capable: bool)

  // ---- Ranks (asp_routes.go:1517-1545) ----

  function AvailabilityRank(availability: Availability): nat {
    match availability
    case Available => 0
    case Restricted => 1
    case Unavailable => 2
  }

  function CongestionRank(congestion: Congestion): nat {
    if !congestion.congested then 0
    else if !congestion.levelSet then 4
    else congestion.level
  }

  function LeastCongested(first: Status, second: Status): Status {
    if CongestionRank(second.congestion) < CongestionRank(first.congestion) then second else first
  }

  /** One gateway's contribution (asp_routes.go:919-947). */
  function GatewayStatus(capable: bool, availability: Option<Availability>, congestion: Option<Congestion>): Status {
    if !capable then UNAVAILABLE
    else Status(if availability.Some? then availability.value else Available,
                if congestion.Some? then congestion.value else NO_CONGESTION)
  }

  /** The running comparison of asp_routes.go:948-955. */
  function Better(best: Option<Status>, status: Status): Status {
    if best.None? || AvailabilityRank(status.availability) < AvailabilityRank(best.value.availability) then status
    else if status.availability == best.value.availability then LeastCongested(best.value, status)
    else best.value
  }

  function BestSoFar(statuses: seq<Status>): (best: Option<Status>)
    ensures best.None? <==> statuses == []
  {
    if statuses == [] then None
    else Some(Better(BestSoFar(statuses[..|statuses| - 1]), statuses[|statuses| - 1]))
  }

  function BestOf(statuses: seq<Status>): Status {
    var best := BestSoFar(statuses);
    if best.Some? then best.value else UNAVAILABLE
  }

  /** Availability decides first, then the lower congestion. */
  predicate Preferred(first: Status, second: Status) {
    var a, b := AvailabilityRank(first.availability), AvailabilityRank(second.availability);
    a < b || (a == b && CongestionRank(first.congestion) < CongestionRank(second.congestion))
  }

  /** asp_routes.go:913-958. The status chosen over all gateways is the first one that no
      other gateway is preferred to. */
  lemma {:induction false} BestIsFirstLeast(statuses: seq<Status>) returns (i: nat)
    requires statuses != []
    ensures i < |statuses| && BestOf(statuses) == statuses[i]
    ensures forall j :: 0 <= j < |statuses| ==> !Preferred(statuses[j], statuses[i])
    ensures forall j :: 0 <= j < i ==> Preferred(statuses[i], statuses[j])
  {
    var last := |statuses| - 1;
    var before := statuses[..last];
    if before == [] {
      i := 0;
    } else {
      var k := BestIsFirstLeast(before);
      assert statuses[k] == before[k];
      i := if Preferred(statuses[last], statuses[k]) then last else k;
      forall j | 0 <= j < |statuses|
        ensures !Preferred(statuses[j], statuses[i])
        ensures j < i ==> Preferred(statuses[i], statuses[j])
      {
        if j < last { assert statuses[j] == before[j]; }
      }
    }
  }

  // ---- The naive scan ----

  ghost predicate Covering<T>(records: Records<T>, gateway: Id, route: Id, q: nat, key: RangeKey) {
    key in records && key.gateway == gateway && key.route == route && Contains(key.range, q)
  }

  /** key holds the newest record of this gateway and route that covers q. */
  ghost predicate IsNewest<T>(records: Records<T>, gateway: Id, route: Id, q: nat, key: RangeKey) {
    && Covering(records, gateway, route, q, key)
    && forall other :: Covering(records, gateway, route, q, other) ==>
         records[other].sequence <= records[key].sequence
  }

  ghost function Newest<T>(records: Records<T>, gateway: Id, route: Id, q: nat): Option<T> {
    if key :| IsNewest(records, gateway, route, q, key) then Some(records[key].value) else None
  }

  /** The status of one point code by scanning every record. */
  ghost function NaiveStatus(gateways: seq<GatewayView>,
                             availability: Records<Availability>, congestion: Records<Congestion>,
                             route: Id, q: nat): Status
  {
    BestOf(NaiveStatuses(gateways, availability, congestion, route, q))
  }

  ghost function NaiveStatuses(gateways: seq<GatewayView>,
                               availability: Records<Availability>, congestion: Records<Congestion>,
                               route: Id, q: nat): seq<Status>
  {
    seq(|gateways|, i requires 0 <= i < |gateways| =>
      GatewayStatus(gateways[i].capable,
                    Newest(availability, gateways[i].id, route, q),
                    Newest(congestion, gateways[i].id, route, q)))
  }

  ghost predicate DistinctSequences<T>(records: Records<T>) {
    forall k, l :: k in records && l in records && records[k].sequence == records[l].sequence ==> k == l
  }

  /** Some record covers q exactly when a newest one does. */
  lemma {:induction false} NewestExists<T>(records: Records<T>, gateway: Id, route: Id, q: nat)
    ensures (exists key :: Covering(records, gateway, route, q, key))
       <==> (exists key :: IsNewest(records, gateway, route, q, key))
  {
    var covering := set key | key in records && Covering(records, gateway, route, q, key);
    if covering != {} {
      var key := LatestOf(records, covering);
      assert IsNewest(records, gateway, route, q, key);
    } else {
      forall key ensures !Covering(records, gateway, route, q, key) {
        assert key !in covering;
      }
    }
  }

  lemma {:induction false} LatestOf<T>(records: Records<T>, keys: set<RangeKey>) returns (key: RangeKey)
    requires keys != {} && keys <= records.Keys
    ensures key in keys && forall other :: other in keys ==> records[other].sequence <= records[key].sequence
    decreases |keys|
  {
    var first :| first in keys;
    var rest := keys - {first};
    key := first;
    if rest == {} {
      assert keys == {first};
    } else {
      var later := LatestOf(records, rest);
      if records[first].sequence < records[later].sequence { key := later; }
      assert forall other :: other in keys ==> other == first || other in rest;
    }
  }

  lemma NewestIs<T>(records: Records<T>, gateway: Id, route: Id, q: nat, key: RangeKey)
    requires DistinctSequences(records) && IsNewest(records, gateway, route, q, key)
    ensures Newest(records, gateway, route, q) == Some(records[key].value)
  {}

  lemma NewestNone<T>(records: Records<T>, gateway: Id, route: Id, q: nat)
    requires forall key :: !Covering(records, gateway, route, q, key)
    ensures Newest(records, gateway, route, q) == None
  {}

  // ---- What a route's reading depends on ----

  /** Both maps hold the same reports for one route, in the same order of age. */
  ghost predicate RouteAgrees<T>(first: Records<T>, second: Records<T>, route: Id) {
    && (forall k: RangeKey :: k.route == route ==> (k in first <==> k in second))
    && (forall k: RangeKey :: k.route == route && k in first && k in second ==> first[k].value == second[k].value)
    && (forall k: RangeKey, l: RangeKey ::
          k.route == route && l.route == route && k in first && k in second && l in first && l in second ==>
          (first[k].sequence <= first[l].sequence <==> second[k].sequence <= second[l].sequence))
  }

  /** The answer for a route depends on that route's reports and their relative age only. */
  lemma NewestDepends<T>(first: Records<T>, second: Records<T>, gateway: Id, route: Id, q: nat)
    requires RouteAgrees(first, second, route) && DistinctSequences(first) && DistinctSequences(second)
    ensures Newest(first, gateway, route, q) == Newest(second, gateway, route, q)
  {
    NewestExists(first, gateway, route, q);
    NewestExists(second, gateway, route, q);
    if key :| IsNewest(first, gateway, route, q, key) {
      forall other | Covering(second, gateway, route, q, other)
        ensures second[other].sequence <= second[key].sequence
      {
        assert Covering(first, gateway, route, q, other);
      }
      assert IsNewest(second, gateway, route, q, key);
      NewestIs(first, gateway, route, q, key);
      NewestIs(second, gateway, route, q, key);
    } else {
      forall key ensures !Covering(second, gateway, route, q, key) {
        assert !Covering(first, gateway, route, q, key);
      }
      NewestNone(first, gateway, route, q);
      NewestNone(second, gateway, route, q);
    }
  }

  lemma NaiveDepends(gateways: seq<GatewayView>,
                     av1: Records<Availability>, cg1: Records<Congestion>,
                     av2: Records<Availability>, cg2: Records<Congestion>, route: Id, q: nat)
    requires RouteAgrees(av1, av2, route) && RouteAgrees(cg1, cg2, route)
    requires DistinctSequences(av1) && DistinctSequences(av2) && DistinctSequences(cg1) && DistinctSequences(cg2)
    ensures NaiveStatus(gateways, av1, cg1, route, q) == NaiveStatus(gateways, av2, cg2, route, q)
  {
    forall i | 0 <= i < |gateways|
      ensures NaiveStatuses(gateways, av1, cg1, route, q)[i] == NaiveStatuses(gateways, av2, cg2, route, q)[i]
    {
      NewestDepends(av1, av2, gateways[i].id, route, q);
      NewestDepends(cg1, cg2, gateways[i].id, route, q);
    }
    assert NaiveStatuses(gateways, av1, cg1, route, q) == NaiveStatuses(gateways, av2, cg2, route, q);
  }

  // ---- Renumbering at sequence wrap (asp_routes.go:588-629) ----

  /** The keys holding a strictly older report. */
  ghost function Older<T>(records: Records<T>, sequence: nat): set<RangeKey> {
    set k | k in records && records[k].sequence < sequence
  }

  /** Every record keeps its value and is numbered after base by its position in age order. */
  ghost function Renumbered<T>(records: Records<T>, base: nat): Records<T> {
    map k | k in records :: Record(records[k].value, base + 1 + |Older(records, records[k].sequence)|)
  }

  lemma OlderGrows<T>(records: Records<T>, k: RangeKey, l: RangeKey)
    requires k in records && l in records && records[k].sequence < records[l].sequence
    ensures |Older(records, records[k].sequence)| < |Older(records, records[l].sequence)|
  {
    var a, b := Older(records, records[k].sequence), Older(records, records[l].sequence);
    assert a <= b && k in b && k !in a;
    SubsetSmaller(a, b);
  }

  lemma SubsetSmaller<T>(a: set<T>, b: set<T>)
    requires a <= b
    ensures |a| <= |b| && (a != b ==> |a| < |b|)
  {
    assert b == a + (b - a);
    assert a != b ==> b - a != {};
  }

  /** The new numbers keep the order of age and run from base + 1 to base + |records|. */
  lemma RenumberingKeepsOrder<T>(records: Records<T>, base: nat, k: RangeKey, l: RangeKey)
    requires k in records && l in records
    ensures records[k].sequence <= records[l].sequence
       <==> Renumbered(records, base)[k].sequence <= Renumbered(records, base)[l].sequence
    ensures base < Renumbered(records, base)[k].sequence <= base + |records|
  {
    if records[k].sequence < records[l].sequence { OlderGrows(records, k, l); }
    if records[l].sequence < records[k].sequence { OlderGrows(records, l, k); }
    var older := Older(records, records[k].sequence);
    assert older <= records.Keys && k !in older;
    SubsetSmaller(older, records.Keys);
  }

  lemma RenumberingAgrees<T>(records: Records<T>, base: nat)
    requires DistinctSequences(records)
    ensures DistinctSequences(Renumbered(records, base))
    ensures forall route :: RouteAgrees(records, Renumbered(records, base), route)
    ensures forall k :: k in records ==> base < Renumbered(records, base)[k].sequence <= base + |records|
  {
    hide RouteAgrees, Older;
    var after := Renumbered(records, base);
    forall k, l | k in records && l in records
      ensures records[k].sequence <= records[l].sequence <==> after[k].sequence <= after[l].sequence
      ensures base < after[k].sequence <= base + |records|
    {
      RenumberingKeepsOrder(records, base, k, l);
    }
    forall route ensures RouteAgrees(records, after, route) {
      SameOrderAgrees(records, after, route);
    }
    SameOrderDistinct(records, after);
  }

  ghost predicate SameOrder<T>(first: Records<T>, second: Records<T>) {
    && first.Keys == second.Keys
    && (forall k :: k in first && k in second ==> first[k].value == second[k].value)
    && (forall k, l :: k in first && l in first && k in second && l in second ==>
          (first[k].sequence <= first[l].sequence <==> second[k].sequence <= second[l].sequence))
  }

  lemma SameOrderAgrees<T>(first: Records<T>, second: Records<T>, route: Id)
    requires SameOrder(first, second)
    ensures RouteAgrees(first, second, route)
  {}

  lemma SameOrderDistinct<T>(first: Records<T>, second: Records<T>)
    requires SameOrder(first, second) && DistinctSequences(first)
    ensures DistinctSequences(second)
  {
    forall k, l | k in second && l in second && second[k].sequence == second[l].sequence ensures k == l {
      assert first[k].sequence <= first[l].sequence && first[l].sequence <= first[k].sequence;
    }
  }

  /** The wrap-time renumbering changes no answer. */
  lemma RenumberingKeepsAnswers<T>(records: Records<T>, base: nat, gateway: Id, route: Id, q: nat)
    requires DistinctSequences(records)
    ensures Newest(records, gateway, route, q) == Newest(Renumbered(records, base), gateway, route, q)
  {
    RenumberingAgrees(records, base);
    NewestDepends(records, Renumbered(records, base), gateway, route, q);
  }
}
