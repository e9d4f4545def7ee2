/** The derived partition of one MTP Route: its range split until no stored report lies
    strictly inside a leaf, each leaf carrying the naive status of its point codes. */
module DerivedStatus {
  import opened PointCodes
  import opened RouteRecords

  ghost function RangesOf<T>(records: Records<T>, route: Id): set<Range> {
    set k | k in records && k.route == route :: k.range
  }

  /** The ranges of one route for which some gateway has a record. */
  ghost function KeyRanges(availability: Records<Availability>, congestion: Records<Congestion>, route: Id): set<Range> {
    RangesOf(availability, route) + RangesOf(congestion, route)
  }

  /** Some key lies strictly inside r, so r must be split. */
  ghost predicate Below(keys: set<Range>, r: Range) {
    exists k :: k in keys && k.mask < r.mask && Contains(r, k.pc)
  }

  ghost function Leaves(keys: set<Range>, r: Range): set<Range>
    decreases r.mask
  {
    if r.mask == 0 || !Below(keys, r) then {r}
    else Leaves(keys, Child(r, 0)) + Leaves(keys, Child(r, 1))
  }

  /** The leaf a point code falls in, found by its bits. */
  ghost function LeafAt(keys: set<Range>, r: Range, q: nat): Range
    decreases r.mask
  {
    if r.mask == 0 || !Below(keys, r) then r
    else LeafAt(keys, Child(r, Branch(q, r.mask)), q)
  }

  lemma {:induction false} LeafShape(keys: set<Range>, r: Range, leaf: Range)
    requires Aligned(r) && leaf in Leaves(keys, r)
    ensures Aligned(leaf) && Inside(leaf, r)
    ensures leaf.mask == 0 || !Below(keys, leaf)
    decreases r.mask
  {
    if r.mask > 0 && Below(keys, r) {
      var branch := if leaf in Leaves(keys, Child(r, 0)) then 0 else 1;
      ChildBits(r, branch);
      LeafShape(keys, Child(r, branch), leaf);
      InsideTransitive(leaf, Child(r, branch), r);
    }
  }

  /** Every point code of the range lies in exactly one leaf. */
  lemma {:induction false} LeavesPartition(keys: set<Range>, r: Range, q: nat)
    requires Aligned(r) && Contains(r, q)
    ensures LeafAt(keys, r, q) in Leaves(keys, r) && Contains(LeafAt(keys, r, q), q)
    ensures forall leaf :: leaf in Leaves(keys, r) && Contains(leaf, q) ==> leaf == LeafAt(keys, r, q)
    decreases r.mask
  {
    if r.mask > 0 && Below(keys, r) {
      var branch := Branch(q, r.mask);
      BranchSelects(r, q, branch);
      ChildBits(r, branch);
      LeavesPartition(keys, Child(r, branch), q);
      forall leaf | leaf in Leaves(keys, Child(r, 1 - branch)) ensures !Contains(leaf, q) {
        ChildBits(r, 1 - branch);
        LeafShape(keys, Child(r, 1 - branch), leaf);
        if Contains(leaf, q) {
          InsideContains(leaf, Child(r, 1 - branch), q);
          BranchSelects(r, q, 1 - branch);
        }
      }
    }
  }

  /** A set of ranges, each with the naive status at its first point code. */
  ghost function StatusMap(gateways: seq<GatewayView>,
                           availability: Records<Availability>, congestion: Records<Congestion>,
                           route: Id, ranges: set<Range>): map<Range, Status>
  {
    map range | range in ranges :: NaiveStatus(gateways, availability, congestion, route, range.pc)
  }

  /** The leaf map the engine must hold for one route. */
  ghost function Derived(gateways: seq<GatewayView>,
                         availability: Records<Availability>, congestion: Records<Congestion>,
                         route: Id, root: Range): map<Range, Status>
  {
    if gateways == [] then map[]
    else StatusMap(gateways, availability, congestion, route, Leaves(KeyRanges(availability, congestion, route), root))
  }

  ghost predicate AlignedKeys<T>(records: Records<T>, route: Id) {
    forall k: RangeKey :: k in records && k.route == route ==> Aligned(k.range)
  }

  /** No report distinguishes two point codes of one leaf. */
  lemma LeafUniform<T>(records: Records<T>, keys: set<Range>, leaf: Range, gateway: Id, route: Id, q: nat)
    requires AlignedKeys(records, route) && Aligned(leaf) && Contains(leaf, q)
    requires forall k: RangeKey :: k in records && k.route == route ==> k.range in keys
    requires DistinctSequences(records) && (leaf.mask == 0 || !Below(keys, leaf))
    ensures Newest(records, gateway, route, q) == Newest(records, gateway, route, leaf.pc)
  {
    forall k ensures Covering(records, gateway, route, q, k) <==> Covering(records, gateway, route, leaf.pc, k) {
      if k in records && k.route == route {
        if k.range.mask >= leaf.mask {
          AgreeAbove(q, leaf.pc, leaf.mask, k.range.mask);
        } else {
          if Contains(k.range, q) { SharedPointNests(k.range, leaf, q); }
          if Contains(k.range, leaf.pc) { SharedPointNests(k.range, leaf, leaf.pc); }
        }
      }
    }
    NewestExists(records, gateway, route, q);
    if k :| IsNewest(records, gateway, route, q, k) {
      assert IsNewest(records, gateway, route, leaf.pc, k);
      NewestIs(records, gateway, route, q, k);
      NewestIs(records, gateway, route, leaf.pc, k);
    } else {
      NewestNone(records, gateway, route, q);
      NewestNone(records, gateway, route, leaf.pc);
    }
  }

  /** asp_routes.go:793-958. The derived leaves of a route are disjoint, cover it exactly, and
      read at every point code what a scan of all records reads. */
  lemma DerivedReadsNaive(gateways: seq<GatewayView>,
                          availability: Records<Availability>, congestion: Records<Congestion>,
                          route: Id, root: Range, q: nat)
    requires Aligned(root) && gateways != []
    requires AlignedKeys(availability, route) && AlignedKeys(congestion, route)
    requires DistinctSequences(availability) && DistinctSequences(congestion)
    ensures var derived := Derived(gateways, availability, congestion, route, root);
            && (Contains(root, q) <==> exists leaf :: leaf in derived && Contains(leaf, q))
            && (forall leaf, other ::
                  leaf in derived && other in derived && Contains(leaf, q) && Contains(other, q) ==> leaf == other)
            && (forall leaf :: leaf in derived && Contains(leaf, q) ==>
                  derived[leaf] == NaiveStatus(gateways, availability, congestion, route, q))
  {
    var keys := KeyRanges(availability, congestion, route);
    var derived := Derived(gateways, availability, congestion, route, root);
    forall leaf | leaf in derived && Contains(leaf, q)
      ensures Contains(root, q) && leaf == LeafAt(keys, root, q)
      ensures derived[leaf] == NaiveStatus(gateways, availability, congestion, route, q)
    {
      LeafShape(keys, root, leaf);
      InsideContains(leaf, root, q);
      LeavesPartition(keys, root, q);
      forall i | 0 <= i < |gateways|
        ensures NaiveStatuses(gateways, availability, congestion, route, q)[i]
             == NaiveStatuses(gateways, availability, congestion, route, leaf.pc)[i]
      {
        LeafUniform(availability, keys, leaf, gateways[i].id, route, q);
        LeafUniform(congestion, keys, leaf, gateways[i].id, route, q);
      }
      assert NaiveStatuses(gateways, availability, congestion, route, q)
          == NaiveStatuses(gateways, availability, congestion, route, leaf.pc);
    }
    if Contains(root, q) {
      LeavesPartition(keys, root, q);
      assert LeafAt(keys, root, q) in derived;
    }
  }

  /** The leaf map depends only on the route's own reports, their relative age and the
      gateways' capability, so an update elsewhere need not touch it. */
  lemma DerivedDepends(gateways: seq<GatewayView>,
                       av1: Records<Availability>, cg1: Records<Congestion>,
                       av2: Records<Availability>, cg2: Records<Congestion>, route: Id, root: Range)
    requires RouteAgrees(av1, av2, route) && RouteAgrees(cg1, cg2, route)
    requires DistinctSequences(av1) && DistinctSequences(av2) && DistinctSequences(cg1) && DistinctSequences(cg2)
    ensures Derived(gateways, av1, cg1, route, root) == Derived(gateways, av2, cg2, route, root)
  {
    assert KeyRanges(av1, cg1, route) == KeyRanges(av2, cg2, route) by {
      SameRanges(av1, av2, route);
      SameRanges(cg1, cg2, route);
    }
    forall leaf | leaf in Leaves(KeyRanges(av1, cg1, route), root)
      ensures NaiveStatus(gateways, av1, cg1, route, leaf.pc) == NaiveStatus(gateways, av2, cg2, route, leaf.pc)
    {
      NaiveDepends(gateways, av1, cg1, av2, cg2, route, leaf.pc);
    }
    StatusMapDepends(gateways, av1, cg1, av2, cg2, route, Leaves(KeyRanges(av1, cg1, route), root));
  }

  lemma StatusMapDepends(gateways: seq<GatewayView>,
                         av1: Records<Availability>, cg1: Records<Congestion>,
                         av2: Records<Availability>, cg2: Records<Congestion>, route: Id, ranges: set<Range>)
    requires forall r :: r in ranges ==>
               NaiveStatus(gateways, av1, cg1, route, r.pc) == NaiveStatus(gateways, av2, cg2, route, r.pc)
    ensures StatusMap(gateways, av1, cg1, route, ranges) == StatusMap(gateways, av2, cg2, route, ranges)
  {}

  lemma SameRanges<T>(first: Records<T>, second: Records<T>, route: Id)
    requires RouteAgrees(first, second, route)
    ensures RangesOf(first, route) == RangesOf(second, route)
  {
    forall range | range in RangesOf(first, route) ensures range in RangesOf(second, route) {
      var k :| k in first && k.route == route && k.range == range;
      assert k in second;
    }
    forall range | range in RangesOf(second, route) ensures range in RangesOf(first, route) {
      var k :| k in second && k.route == route && k.range == range;
      assert k in first;
    }
  }

  lemma GrownRanges<T>(records: Records<T>, key: RangeKey, record: Record<T>)
    ensures RangesOf(records[key := record], key.route) == RangesOf(records, key.route) + {key.range}
  {
    var grown := records[key := record];
    assert key in grown;
    forall range | range in RangesOf(records, key.route) ensures range in RangesOf(grown, key.route) {
      var k :| k in records && k.route == key.route && k.range == range;
      assert k in grown;
    }
  }
}
