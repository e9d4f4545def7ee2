/** The route-state records as the source keeps them: two flat maps, the tries that mirror
    them, the sequence number and the counters, changed in loops. Each method is proved to do
    what the value Store of RouteState does. */
module RecordStore {
  import opened Common
  import opened PointCodes
  import opened RouteRecords
  import opened DerivedStatus
  import opened RouteIndex
  import opened RouteState
  import opened RouteInvariants
  import opened RouteReports
  import opened StateIndex

  // ---- Sorting by age (the sort.Slice calls of asp_routes.go:594-601, 613-620) ----

  ghost predicate OldestFirst<T>(records: Records<T>, keys: seq<RangeKey>) {
    && |keys| == |records|
    && (forall i :: 0 <= i < |keys| ==> keys[i] in records && |Older(records, records[keys[i]].sequence)| == i)
  }

  method OldestOf<T>(records: Records<T>, among: set<RangeKey>) returns (oldest: RangeKey)
    requires among != {} && among <= records.Keys
    ensures oldest in among && forall k :: k in among ==> records[oldest].sequence <= records[k].sequence
  {
    oldest :| oldest in among;
    var todo := among - {oldest};
    while todo != {}
      invariant todo <= among && oldest in among
      invariant forall k :: k in among && k !in todo ==> records[oldest].sequence <= records[k].sequence
      decreases |todo|
    {
      var k :| k in todo;
      todo := todo - {k};
      if records[k].sequence < records[oldest].sequence {
        oldest := k;
      }
    }
  }

  /** The keys taken so far are the oldest ones, in order. */
  ghost predicate TakenByAge<T>(records: Records<T>, keys: seq<RangeKey>, todo: set<RangeKey>) {
    && todo <= records.Keys && |keys| + |todo| == |records|
    && (forall k :: k in records <==> k in keys || k in todo)
    && (forall i, j :: 0 <= i < j < |keys| ==> keys[i] != keys[j])
    && (forall i :: 0 <= i < |keys| ==> TakenInTurn(records, todo, keys[i], i))
  }

  /** The key has exactly i older ones, and none of those still to take is among them. */
  ghost predicate TakenInTurn<T>(records: Records<T>, todo: set<RangeKey>, key: RangeKey, i: nat) {
    && key in records && key !in todo && |Older(records, records[key].sequence)| == i
    && (forall k :: k in todo && k in records ==> records[key].sequence < records[k].sequence)
  }

  method SortedByAge<T>(records: Records<T>) returns (keys: seq<RangeKey>)
    requires DistinctSequences(records)
    ensures OldestFirst(records, keys)
    ensures forall k :: k in records <==> k in keys
    ensures forall i, j :: 0 <= i < j < |keys| ==> keys[i] != keys[j]
  {
    keys := [];
    var todo := records.Keys;
    while todo != {}
      invariant TakenByAge(records, keys, todo)
      decreases |todo|
    {
      var key := OldestOf(records, todo);
      TakeOldest(records, keys, todo, key);
      todo := todo - {key};
      keys := keys + [key];
    }
  }

  lemma TakeOldest<T>(records: Records<T>, keys: seq<RangeKey>, todo: set<RangeKey>, key: RangeKey)
    requires DistinctSequences(records) && TakenByAge(records, keys, todo) && key in todo
    requires forall k :: k in todo ==> records[key].sequence <= records[k].sequence
    ensures TakenByAge(records, keys + [key], todo - {key})
  {
    hide Older, DistinctSequences;
    var longer, rest := keys + [key], todo - {key};
    forall i | 0 <= i < |keys| ensures keys[i] != key && TakenInTurn(records, rest, longer[i], i) {
      assert TakenInTurn(records, todo, keys[i], i);
    }
    TakeThis(records, keys, todo, key);
    forall k ensures k in records <==> k in longer || k in rest {
      assert k in longer <==> k in keys || k == key;
    }
  }

  lemma TakeThis<T>(records: Records<T>, keys: seq<RangeKey>, todo: set<RangeKey>, key: RangeKey)
    requires DistinctSequences(records) && TakenByAge(records, keys, todo) && key in todo
    requires forall k :: k in todo ==> records[key].sequence <= records[k].sequence
    ensures TakenInTurn(records, todo - {key}, key, |keys|)
  {
    hide Older;
    forall i | 0 <= i < |keys|
      ensures keys[i] in records && keys[i] !in todo
      ensures forall k :: k in todo ==> records[keys[i]].sequence < records[k].sequence
    {
      assert TakenInTurn(records, todo, keys[i], i);
    }
    OlderIsDone(records, keys, todo, key);
  }

  lemma OlderIsDone<T>(records: Records<T>, keys: seq<RangeKey>, todo: set<RangeKey>, key: RangeKey)
    requires key in todo && todo <= records.Keys && |keys| + |todo| == |records|
    requires forall k :: k in records <==> k in keys || k in todo
    requires forall i :: 0 <= i < |keys| ==> keys[i] in records && keys[i] !in todo
    requires forall i, k :: 0 <= i < |keys| && k in todo ==> records[keys[i]].sequence < records[k].sequence
    requires forall k :: k in todo ==> records[key].sequence <= records[k].sequence
    ensures |Older(records, records[key].sequence)| == |keys|
  {
    var older := Older(records, records[key].sequence);
    forall k ensures k in older <==> k in records.Keys - todo {
      if k in records.Keys - todo {
        assert k in keys;
      }
    }
    assert older == records.Keys - todo;
    assert |records.Keys - todo| == |records.Keys| - |todo| by {
      assert records.Keys == (records.Keys - todo) + todo;
    }
    assert |records.Keys| == |records|;
  }

  /** Records of which the first n keys in order of age have been renumbered. */
  ghost function PartlyRenumbered<T>(records: Records<T>, keys: seq<RangeKey>, base: nat): Records<T> {
    map k | k in records :: if k in keys then Renumbered(records, base)[k] else records[k]
  }

  lemma RenumberNext<T>(records: Records<T>, keys: seq<RangeKey>, n: nat, base: nat)
    requires OldestFirst(records, keys) && n < |keys|
    requires forall i, j :: 0 <= i < j < |keys| ==> keys[i] != keys[j]
    ensures var before := PartlyRenumbered(records, keys[..n], base);
            && keys[n] in before && before[keys[n]] == records[keys[n]]
            && PartlyRenumbered(records, keys[..n + 1], base)
               == before[keys[n] := Record(before[keys[n]].value, base + n + 1)]
  {
    assert keys[..n + 1] == keys[..n] + [keys[n]];
  }

  lemma RenumberStart<T>(records: Records<T>, base: nat)
    ensures PartlyRenumbered(records, [], base) == records
  {}

  lemma RenumberDone<T>(records: Records<T>, keys: seq<RangeKey>, base: nat)
    requires forall k :: k in records <==> k in keys
    ensures PartlyRenumbered(records, keys, base) == Renumbered(records, base)
  {}

  /** Every key names a configured route and an aligned part of it. */
  ghost predicate KeysPlaced<T>(ranges: map<Id, Range>, records: Records<T>) {
    forall k :: k in records ==> KeyPlaced(ranges, k)
  }

  ghost predicate KeyPlaced(ranges: map<Id, Range>, k: RangeKey) {
    k.route in ranges && Aligned(k.range) && Inside(k.range, ranges[k.route])
  }

  lemma {:induction false} ReadyTake(cfg: Config, associations: map<Association, Identity>, s: Store, keys: seq<RangeKey>,
                                     update: Update, n: nat)
    requires Ready(cfg, associations, s, keys, update) && n <= |keys|
    ensures Ready(cfg, associations, s, keys[..n], update)
    decreases |keys| - n
  {
    hide Ready;
    if n < |keys| {
      ReadyTake(cfg, associations, s, keys, update, n + 1);
      PrefixReady(cfg, associations, s, keys[..n + 1], update);
      assert keys[..n + 1][..n] == keys[..n];
    } else {
      assert keys[..n] == keys;
    }
  }

  /** Before each write of an accepted report the numbers are distinct. */
  lemma WriteStep(cfg: Config, associations: map<Association, Identity>, s: Store, keys: seq<RangeKey>, update: Update, n: nat)
    requires Ready(cfg, associations, s, keys, update) && n < |keys|
    ensures var middle := WriteAll(s, keys[..n], update);
            && DistinctSequences(middle.availability) && DistinctSequences(middle.congestion)
            && WriteAll(s, keys[..n + 1], update) == WriteOne(middle, keys[n], update)
    ensures KeyPlaced(RouteRanges(cfg), keys[n])
  {
    ReadyTake(cfg, associations, s, keys, update, n + 1);
    assert keys[..n + 1][..n] == keys[..n];
    MiddleSequenced(cfg, associations, s, keys[..n + 1], update);
    assert keys[n] in keys && ValidKey(cfg, keys[n]);
  }

  /** What the admission loop has counted for the keys it passed. */
  ghost predicate CountedNew(s: Store, keys: seq<RangeKey>, update: Update,
                             onRoute: map<(Id, Id), nat>, onGateway: map<Id, nat>, inAll: nat)
  {
    && (forall g, r :: Count(onRoute, (g, r)) == NewOnRoute(s, keys, update, g, r))
    && (forall g :: Count(onGateway, g) == NewOnGateway(s, keys, update, g))
    && inAll == NewInAll(s, keys, update)
  }

  // ---- Recounting ----

  ghost function RouteGroups(keys: set<RangeKey>): set<(Id, Id)> {
    set k | k in keys :: (k.gateway, k.route)
  }

  ghost function GatewayGroups(keys: set<RangeKey>): set<Id> {
    set k | k in keys :: k.gateway
  }

  lemma GroupsGrow(keys: set<RangeKey>, key: RangeKey)
    ensures RouteGroups(keys + {key}) == RouteGroups(keys) + {(key.gateway, key.route)}
    ensures GatewayGroups(keys + {key}) == GatewayGroups(keys) + {key.gateway}
  {
    var after := keys + {key};
    assert key in after;
    forall p | p in RouteGroups(keys) ensures p in RouteGroups(after) {
      var k :| k in keys && (k.gateway, k.route) == p;
      assert k in after;
    }
    forall g | g in GatewayGroups(keys) ensures g in GatewayGroups(after) {
      var k :| k in keys && k.gateway == g;
      assert k in after;
    }
  }

  /** A recount lists exactly the groups of its keys, each with its number of records. */
  lemma RecountGroups(av: Records<Availability>, cg: Records<Congestion>)
    ensures RecountRoutes(av, cg).Keys == RouteGroups(av.Keys + cg.Keys)
    ensures RecountGateways(av, cg).Keys == GatewayGroups(av.Keys + cg.Keys)
    ensures forall g, r :: Count(RecountRoutes(av, cg), (g, r)) == |RouteKeys(av, g, r)| + |RouteKeys(cg, g, r)|
    ensures forall g :: Count(RecountGateways(av, cg), g) == |GatewayKeys(av, g)| + |GatewayKeys(cg, g)|
    ensures Recount(av, cg) == Counters(RecountRoutes(av, cg), RecountGateways(av, cg), |av| + |cg|)
  {
    hide RouteKeys, GatewayKeys, Count;
    RecountCounts(av, cg);
    RecountKeys(av, cg);
  }

  lemma RecountKeys(av: Records<Availability>, cg: Records<Congestion>)
    ensures RecountRoutes(av, cg).Keys == RouteGroups(av.Keys + cg.Keys)
    ensures RecountGateways(av, cg).Keys == GatewayGroups(av.Keys + cg.Keys)
  {
    hide RouteKeys, GatewayKeys;
  }

  lemma SameCounters<K>(first: map<K, nat>, second: map<K, nat>)
    requires first.Keys == second.Keys && forall k :: Count(first, k) == Count(second, k)
    ensures first == second
  {
    forall k | k in first ensures first[k] == second[k] {
      assert Count(first, k) == Count(second, k);
    }
  }

  /** Counting one more record is what the recount of one more record gives. */
  lemma RecountAvailability(av: Records<Availability>, cg: Records<Congestion>, key: RangeKey, record: Record<Availability>)
    requires key !in av
    ensures Recount(av[key := record], cg) == Counted(Recount(av, cg), key)
  {
    hide Recount, RecountRoutes, RecountGateways, RouteKeys, GatewayKeys, RouteGroups, GatewayGroups;
    var grown := av[key := record];
    RecountGroups(av, cg);
    RecountGroups(grown, cg);
    GroupsGrow(av.Keys + cg.Keys, key);
    assert grown.Keys + cg.Keys == av.Keys + cg.Keys + {key};
    StoreCount(av, key, record);
    var after, counted := Recount(grown, cg), Counted(Recount(av, cg), key);
    forall p: (Id, Id) ensures Count(after.perRoute, p) == Count(counted.perRoute, p) {
      StoreRouteCount(av, key, record, p.0, p.1);
      assert p == (p.0, p.1);
    }
    forall g ensures Count(after.perGateway, g) == Count(counted.perGateway, g) {
      StoreGatewayCount(av, key, record, g);
    }
    SameCounters(after.perRoute, counted.perRoute);
    SameCounters(after.perGateway, counted.perGateway);
  }

  lemma RecountCongestion(av: Records<Availability>, cg: Records<Congestion>, key: RangeKey, record: Record<Congestion>)
    requires key !in cg
    ensures Recount(av, cg[key := record]) == Counted(Recount(av, cg), key)
  {
    hide Recount, RecountRoutes, RecountGateways, RouteKeys, GatewayKeys, RouteGroups, GatewayGroups;
    var grown := cg[key := record];
    RecountGroups(av, cg);
    RecountGroups(av, grown);
    GroupsGrow(av.Keys + cg.Keys, key);
    assert av.Keys + grown.Keys == av.Keys + cg.Keys + {key};
    StoreCount(cg, key, record);
    var after, counted := Recount(av, grown), Counted(Recount(av, cg), key);
    forall p: (Id, Id) ensures Count(after.perRoute, p) == Count(counted.perRoute, p) {
      StoreRouteCount(cg, key, record, p.0, p.1);
      assert p == (p.0, p.1);
    }
    forall g ensures Count(after.perGateway, g) == Count(counted.perGateway, g) {
      StoreGatewayCount(cg, key, record, g);
    }
    SameCounters(after.perRoute, counted.perRoute);
    SameCounters(after.perGateway, counted.perGateway);
  }

  /** The records visited so far. */
  ghost function Visited<T>(records: Records<T>, todo: set<RangeKey>): Records<T> {
    map k | k in records && k !in todo :: records[k]
  }

  class RecordStore {
    const routes: seq<Route>
    const ranges: map<Id, Range>
    var availability: Records<Availability>
    var congestion: Records<Congestion>
    var sequence: nat
    var perRoute: map<(Id, Id), nat>
    var perGateway: map<Id, nat>
    var count: nat
    var index: RouteTries

    ghost function Contents(): Store
      reads this
    {
      Store(availability, congestion, sequence, Counters(perRoute, perGateway, count))
    }

    lemma HoldsRecords()
      ensures Contents().availability == availability && Contents().congestion == congestion
    {}

    ghost function Repr(): set<object>
      reads this, index
    {
      {this, index} + index.Nodes()
    }

    ghost predicate RoutesOk()
    {
      && ranges == RangesFrom(routes)
      && (forall i, j :: 0 <= i < j < |routes| ==> routes[i].id != routes[j].id)
      && (forall i :: 0 <= i < |routes| ==> Aligned(routes[i].range))
    }

    /** The tries mirror the flat records. */
    ghost predicate Valid()
      reads this, index, index.Nodes()
    {
      && RoutesOk() && KeysPlaced(ranges, availability) && KeysPlaced(ranges, congestion)
      && index.Valid(ranges, availability, congestion)
    }

    constructor (routes: seq<Route>)
      requires forall i, j :: 0 <= i < j < |routes| ==> routes[i].id != routes[j].id
      requires forall i :: 0 <= i < |routes| ==> Aligned(routes[i].range)
      ensures Valid() && fresh(Repr()) && this.routes == routes && ranges == RangesFrom(routes)
      ensures Contents() == Store(map[], map[], 0, Counters(map[], map[], 0))
    {
      this.routes, ranges := routes, RangesFrom(routes);
      availability, congestion, sequence := map[], map[], 0;
      perRoute, perGateway, count := map[], map[], 0;
      index := new RouteTries(routes);
    }

    /** asp_routes.go:485-490, 530-539. */
    method StoreAvailability(key: RangeKey, record: Record<Availability>)
      requires Valid() && KeyPlaced(ranges, key)
      modifies this`availability, index, index.Nodes()
      ensures Valid() && availability == old(availability)[key := record]
      ensures index == old(index) && fresh(index.Nodes() - old(index.Nodes()))
    {
      hide RouteTries.Valid;
      index.StoreAvailability(ranges, key, record, availability, congestion);
      availability := availability[key := record];
    }

    /** asp_routes.go:492-499, 541-550. */
    method StoreCongestion(key: RangeKey, record: Record<Congestion>)
      requires Valid() && KeyPlaced(ranges, key)
      modifies this`congestion, index, index.Nodes()
      ensures Valid() && congestion == old(congestion)[key := record]
      ensures index == old(index) && fresh(index.Nodes() - old(index.Nodes()))
    {
      hide RouteTries.Valid;
      index.StoreCongestion(ranges, key, record, availability, congestion);
      congestion := congestion[key := record];
    }

    /** asp_routes.go:588-608: the first half of renumberLocked. */
    method RenumberAvailability()
      requires Valid() && DistinctSequences(availability)
      modifies this`availability, index, index.Nodes()
      ensures Valid() && availability == Renumbered(old(availability), 0)
      ensures index == old(index) && fresh(index.Nodes() - old(index.Nodes()))
    {
      hide RecordStore.Valid, PartlyRenumbered, Renumbered, OldestFirst;
      ghost var before := availability;
      var keys := SortedByAge(availability);
      RenumberStart(before, 0);
      assert keys[..0] == [];
      var next := 0;
      for i := 0 to |keys|
        invariant Valid() && next == i && index == old(index) && fresh(index.Nodes() - old(index.Nodes()))
        invariant availability == PartlyRenumbered(before, keys[..i], 0)
      {
        RenumberNext(before, keys, i, 0);
        next := next + 1;
        StoredKeyPlaced(keys[i]);
        StoreAvailability(keys[i], Record(availability[keys[i]].value, next));
      }
      assert keys[..|keys|] == keys;
      RenumberDone(before, keys, 0);
    }

    /** asp_routes.go:609-629: the second half. */
    method RenumberCongestion(base: nat)
      requires Valid() && DistinctSequences(congestion)
      modifies this`congestion, index, index.Nodes()
      ensures Valid() && congestion == Renumbered(old(congestion), base)
      ensures index == old(index) && fresh(index.Nodes() - old(index.Nodes()))
    {
      hide RecordStore.Valid, PartlyRenumbered, Renumbered, OldestFirst;
      ghost var before := congestion;
      var keys := SortedByAge(congestion);
      RenumberStart(before, base);
      assert keys[..0] == [];
      var next := base;
      for i := 0 to |keys|
        invariant Valid() && next == base + i && index == old(index) && fresh(index.Nodes() - old(index.Nodes()))
        invariant congestion == PartlyRenumbered(before, keys[..i], base)
      {
        RenumberNext(before, keys, i, base);
        next := next + 1;
        StoredKeyPlaced(keys[i]);
        StoreCongestion(keys[i], Record(congestion[keys[i]].value, next));
      }
      assert keys[..|keys|] == keys;
      RenumberDone(before, keys, base);
    }

    lemma StoredKeyPlaced(key: RangeKey)
      requires Valid() && (key in availability || key in congestion)
      ensures KeyPlaced(ranges, key)
    {}

    /** renumberLocked. */
    method RenumberRecords()
      requires Valid() && DistinctSequences(availability) && DistinctSequences(congestion)
      modifies this, index, index.Nodes()
      ensures Valid() && Contents() == Renumber(old(Contents()))
      ensures index == old(index) && fresh(index.Nodes() - old(index.Nodes()))
    {
      hide RecordStore.Valid, Renumbered, DistinctSequences;
      RenumberAvailability();
      RenumberCongestion(|availability|);
      SetSequence(|availability| + |congestion|);
      SameSize(old(availability), 0);
      SameSize(old(congestion), |availability|);
    }

    lemma SameSize<T>(records: Records<T>, base: nat)
      ensures |Renumbered(records, base)| == |records|
    {
      assert Renumbered(records, base).Keys == records.Keys;
      assert |Renumbered(records, base).Keys| == |records.Keys|;
    }

    /** asp_routes.go:478-482. */
    method NextNumber()
      requires Valid() && DistinctSequences(availability) && DistinctSequences(congestion)
      modifies this, index, index.Nodes()
      ensures Valid() && Contents() == Advance(old(Contents()))
      ensures index == old(index) && fresh(index.Nodes() - old(index.Nodes()))
    {
      hide RecordStore.Valid;
      SetSequence(NextSequence(sequence));
      if sequence == 0 {
        RenumberRecords();
        SetSequence(NextSequence(sequence));
      }
    }

    method SetSequence(next: nat)
      requires Valid()
      modifies this`sequence
      ensures Valid() && sequence == next
    {
      sequence := next;
      ValidAfter();
    }

    /** The number and the counters are no part of the mirror. */
    twostate lemma ValidAfter()
      requires old(Valid()) && index == old(index) && availability == old(availability) && congestion == old(congestion)
      requires unchanged(index) && unchanged(old(index.Nodes()))
      ensures Valid()
    {}

    /** One key of the writing loop (asp_routes.go:476-510). */
    method WriteKey(key: RangeKey, update: Update)
      requires Valid() && DistinctSequences(availability) && DistinctSequences(congestion) && KeyPlaced(ranges, key)
      modifies this, index, index.Nodes()
      ensures Valid() && Contents() == WriteOne(old(Contents()), key, update)
      ensures index == old(index) && fresh(index.Nodes() - old(index.Nodes()))
    {
      hide RecordStore.Valid;
      var newRecord := !HasRecord(key, update);
      NextNumber();
      match update {
        case AvailabilityUpdate(value) => StoreAvailability(key, Record(value, sequence));
        case CongestionUpdate(value) => StoreCongestion(key, Record(value, sequence));
      }
      if newRecord {
        CountKey(key);
      }
    }

    /** hasRouteStateRecordLocked (asp_routes.go:517-528). */
    predicate HasRecord(key: RangeKey, update: Update)
      reads this
    {
      match update
      case AvailabilityUpdate(_) => key in availability
      case CongestionUpdate(_) => key in congestion
    }

    /** recordRouteStateAccountingLocked (asp_routes.go:369-377). */
    method CountKey(key: RangeKey)
      requires Valid()
      modifies this`perRoute, this`perGateway, this`count
      ensures Valid() && Counters(perRoute, perGateway, count) == Counted(old(Counters(perRoute, perGateway, count)), key)
    {
      var budget := (key.gateway, key.route);
      perRoute := perRoute[budget := Count(perRoute, budget) + 1];
      perGateway := perGateway[key.gateway := Count(perGateway, key.gateway) + 1];
      count := count + 1;
      ValidAfter();
    }

    /** asp_routes.go:476-510: the writes of an accepted report. */
    method Write(keys: seq<RangeKey>, update: Update, ghost cfg: Config, ghost associations: map<Association, Identity>)
      requires Valid() && ranges == RouteRanges(cfg) && Ready(cfg, associations, Contents(), keys, update)
      modifies this, index, index.Nodes()
      ensures Valid() && Contents() == WriteAll(old(Contents()), keys, update)
      ensures index == old(index) && fresh(index.Nodes() - old(index.Nodes()))
    {
      hide RecordStore.Valid, WriteOne, Ready;
      ghost var before := Contents();
      for i := 0 to |keys|
        invariant Valid() && index == old(index) && fresh(index.Nodes() - old(index.Nodes()))
        invariant Contents() == WriteAll(before, keys[..i], update)
      {
        WriteStep(cfg, associations, before, keys, update, i);
        WriteKey(keys[i], update);
      }
      assert keys[..|keys|] == keys;
    }

    /** asp_routes.go:435-474: whether the report passes a limit, before anything is written. */
    method Admit(perRouteLimit: nat, perGatewayLimit: nat, totalLimit: nat, keys: seq<RangeKey>, update: Update, ghost cfg: Config)
      returns (refusal: Option<Refusal>)
      requires cfg.perRouteLimit == perRouteLimit && cfg.perGatewayLimit == perGatewayLimit && cfg.totalLimit == totalLimit
      ensures refusal == Refused(cfg, Contents(), keys, update)
    {
      hide CountedNew, RefusedKey, Refused;
      ghost var s := Contents();
      var onRoute: map<(Id, Id), nat> := map[];
      var onGateway: map<Id, nat> := map[];
      var inAll := 0;
      AdmitFirst(cfg, s, keys, update);
      for i := 0 to |keys|
        invariant Refused(cfg, s, keys[..i], update) == None
        invariant CountedNew(s, keys[..i], update, onRoute, onGateway, inAll)
      {
        var key := keys[i];
        var budget := (key.gateway, key.route);
        AdmitNext(cfg, s, keys, i, update, onRoute, onGateway, inAll);
        if !HasRecord(key, update) {
          if Count(perRoute, budget) + Count(onRoute, budget) + 1 > perRouteLimit {
            RefusedEarly(cfg, s, keys, i + 1, update);
            return Some(RouteLimit);
          }
          if Count(perGateway, key.gateway) + Count(onGateway, key.gateway) + 1 > perGatewayLimit {
            RefusedEarly(cfg, s, keys, i + 1, update);
            return Some(GatewayLimit);
          }
          if count + inAll + 1 > totalLimit {
            RefusedEarly(cfg, s, keys, i + 1, update);
            return Some(EndpointLimit);
          }
          onRoute := onRoute[budget := Count(onRoute, budget) + 1];
          onGateway := onGateway[key.gateway := Count(onGateway, key.gateway) + 1];
          inAll := inAll + 1;
        }
      }
      assert keys[..|keys|] == keys;
      return None;
    }

    lemma AdmitFirst(cfg: Config, s: Store, keys: seq<RangeKey>, update: Update)
      ensures Refused(cfg, s, keys[..0], update) == None && CountedNew(s, keys[..0], update, map[], map[], 0)
    {}

    /** The decision about one key, and what has been counted once it is passed. */
    lemma AdmitNext(cfg: Config, s: Store, keys: seq<RangeKey>, i: nat, update: Update,
                    onRoute: map<(Id, Id), nat>, onGateway: map<Id, nat>, inAll: nat)
      requires i < |keys| && Refused(cfg, s, keys[..i], update) == None
      requires CountedNew(s, keys[..i], update, onRoute, onGateway, inAll)
      ensures var key, budget := keys[i], (keys[i].gateway, keys[i].route);
              Refused(cfg, s, keys[..i + 1], update)
              == if Has(s, key, update) then None
                 else if Count(s.counters.perRoute, budget) + Count(onRoute, budget) + 1 > cfg.perRouteLimit then Some(RouteLimit)
                 else if Count(s.counters.perGateway, key.gateway) + Count(onGateway, key.gateway) + 1 > cfg.perGatewayLimit
                 then Some(GatewayLimit)
                 else if s.counters.count + inAll + 1 > cfg.totalLimit then Some(EndpointLimit)
                 else None
      ensures var key, budget := keys[i], (keys[i].gateway, keys[i].route);
              if Has(s, key, update) then CountedNew(s, keys[..i + 1], update, onRoute, onGateway, inAll)
              else CountedNew(s, keys[..i + 1], update, onRoute[budget := Count(onRoute, budget) + 1],
                              onGateway[key.gateway := Count(onGateway, key.gateway) + 1], inAll + 1)
    {
      var key, budget := keys[i], (keys[i].gateway, keys[i].route);
      assert keys[..i + 1][..i] == keys[..i];
      assert Count(onRoute, budget) == NewOnRoute(s, keys[..i], update, key.gateway, key.route);
      var grown := if Has(s, key, update) then onRoute else onRoute[budget := Count(onRoute, budget) + 1];
      forall g, r
        ensures Count(grown, (g, r)) == NewOnRoute(s, keys[..i + 1], update, g, r)
      {
        assert Count(onRoute, (g, r)) == NewOnRoute(s, keys[..i], update, g, r);
        assert (g, r) == budget <==> key.gateway == g && key.route == r;
      }
      var spread := if Has(s, key, update) then onGateway else onGateway[key.gateway := Count(onGateway, key.gateway) + 1];
      forall g ensures Count(spread, g) == NewOnGateway(s, keys[..i + 1], update, g) {
        assert Count(onGateway, g) == NewOnGateway(s, keys[..i], update, g);
      }
    }

    lemma {:induction false} RefusedEarly(cfg: Config, s: Store, keys: seq<RangeKey>, n: nat, update: Update)
      requires n <= |keys| && Refused(cfg, s, keys[..n], update).Some?
      ensures Refused(cfg, s, keys, update) == Refused(cfg, s, keys[..n], update)
      decreases |keys|
    {
      if n < |keys| {
        var before := keys[..|keys| - 1];
        assert before[..n] == keys[..n];
        RefusedEarly(cfg, s, before, n, update);
      } else {
        assert keys[..n] == keys;
      }
    }

    /** rebuildRouteStateAccountingLocked (asp_routes.go:357-367). */
    method RebuildAccounting()
      requires Valid()
      modifies this`perRoute, this`perGateway, this`count
      ensures Valid() && Counters(perRoute, perGateway, count) == Recount(availability, congestion)
    {
      hide RecordStore.Valid, Recount;
      ResetAccounting();
      var todo := availability.Keys;
      assert Visited(availability, todo) == map[] && Visited(congestion, congestion.Keys) == map[];
      while todo != {}
        invariant Valid() && todo <= availability.Keys
        invariant Counters(perRoute, perGateway, count) == Recount(Visited(availability, todo), map[])
        decreases |todo|
      {
        var key :| key in todo;
        RecountAvailability(Visited(availability, todo), map[], key, availability[key]);
        assert Visited(availability, todo - {key}) == Visited(availability, todo)[key := availability[key]];
        todo := todo - {key};
        CountKey(key);
      }
      assert Visited(availability, {}) == availability;
      todo := congestion.Keys;
      while todo != {}
        invariant Valid() && todo <= congestion.Keys
        invariant Counters(perRoute, perGateway, count) == Recount(availability, Visited(congestion, todo))
        decreases |todo|
      {
        var key :| key in todo;
        RecountCongestion(availability, Visited(congestion, todo), key, congestion[key]);
        assert Visited(congestion, todo - {key}) == Visited(congestion, todo)[key := congestion[key]];
        todo := todo - {key};
        CountKey(key);
      }
      assert Visited(congestion, {}) == congestion;
    }

    method ResetAccounting()
      requires Valid()
      modifies this`perRoute, this`perGateway, this`count
      ensures Valid() && Counters(perRoute, perGateway, count) == Recount(map[], map[])
    {
      perRoute, perGateway, count := map[], map[], 0;
      ValidAfter();
    }

    /** rebuildRouteStateIndexLocked (asp_routes.go:379-390). */
    method RebuildIndex()
      requires RoutesOk() && KeysPlaced(ranges, availability) && KeysPlaced(ranges, congestion)
      modifies this`index
      ensures Valid() && fresh(index) && fresh(index.Nodes())
    {
      hide RouteTries.Valid, KeysPlaced;
      index := BuiltIndex();
    }

    /** Its loops, into a new index. */
    method BuiltIndex() returns (built: RouteTries)
      requires RoutesOk() && KeysPlaced(ranges, availability) && KeysPlaced(ranges, congestion)
      ensures fresh(built) && fresh(built.Nodes()) && built.Valid(ranges, availability, congestion)
    {
      hide RouteTries.Valid, KeysPlaced;
      built := new RouteTries(routes);
      IndexAvailabilities(built, ranges, availability);
      IndexCongestions(built, ranges, availability, congestion);
    }

    /** reclaimSignallingGatewayStateLocked (asp_routes.go:342-355). */
    method ReclaimGateway(gateway: Id)
      requires Valid()
      modifies this
      ensures Valid() && Contents() == Reclaim(old(Contents()), gateway)
      ensures fresh(index) && fresh(index.Nodes())
    {
      availability := DropGateway(availability, gateway);
      congestion := DropGateway(congestion, gateway);
      RebuildIndex();
      RebuildAccounting();
    }

    /** The leaves of one route, from its trie. */
    method Derive(route: Id, gateways: seq<GatewayView>) returns (updated: map<Range, Status>)
      requires Valid() && route in ranges && DistinctSequences(availability) && DistinctSequences(congestion)
      ensures updated == Derived(gateways, availability, congestion, route, ranges[route])
    {
      hide RouteTries.Valid;
      updated := index.Derive(ranges, route, gateways, availability, congestion);
    }
  }

  /** The deleting loops of asp_routes.go:343-352. */
  method DropGateway<T>(records: Records<T>, gateway: Id) returns (kept: Records<T>)
    ensures kept == Without(records, gateway)
  {
    kept := records;
    var todo := records.Keys;
    while todo != {}
      invariant todo <= records.Keys && todo <= kept.Keys
      invariant kept == map k | k in records && (k in todo || k.gateway != gateway) :: records[k]
      decreases |todo|
    {
      var key :| key in todo;
      if key.gateway == gateway {
        kept := kept - {key};
      }
      todo := todo - {key};
    }
  }

  method IndexAvailabilities(index: RouteTries, ranges: map<Id, Range>, availability: Records<Availability>)
    requires index.Valid(ranges, map[], map[]) && KeysPlaced(ranges, availability)
    modifies index, index.Nodes()
    ensures index.Valid(ranges, availability, map[]) && fresh(index.Nodes() - old(index.Nodes()))
  {
    hide RouteTries.Valid;
    var todo := availability.Keys;
    assert Visited(availability, todo) == map[];
    while todo != {}
      invariant todo <= availability.Keys && fresh(index.Nodes() - old(index.Nodes()))
      invariant index.Valid(ranges, Visited(availability, todo), map[])
      decreases |todo|
    {
      var key :| key in todo;
      index.StoreAvailability(ranges, key, availability[key], Visited(availability, todo), map[]);
      assert Visited(availability, todo - {key}) == Visited(availability, todo)[key := availability[key]];
      todo := todo - {key};
    }
    assert Visited(availability, {}) == availability;
  }

  method IndexCongestions(index: RouteTries, ranges: map<Id, Range>, ghost availability: Records<Availability>,
                          congestion: Records<Congestion>)
    requires index.Valid(ranges, availability, map[]) && KeysPlaced(ranges, congestion)
    modifies index, index.Nodes()
    ensures index.Valid(ranges, availability, congestion) && fresh(index.Nodes() - old(index.Nodes()))
  {
    hide RouteTries.Valid;
    var todo := congestion.Keys;
    assert Visited(congestion, todo) == map[];
    while todo != {}
      invariant todo <= congestion.Keys && fresh(index.Nodes() - old(index.Nodes()))
      invariant index.Valid(ranges, availability, Visited(congestion, todo))
      decreases |todo|
    {
      var key :| key in todo;
      index.StoreCongestion(ranges, key, congestion[key], availability, Visited(congestion, todo));
      assert Visited(congestion, todo - {key}) == Visited(congestion, todo)[key := congestion[key]];
      todo := todo - {key};
    }
    assert Visited(congestion, {}) == congestion;
  }
}
