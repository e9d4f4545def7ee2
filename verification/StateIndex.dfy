/** The tries of all MTP Routes together (aspRoutes.stateIndex): one root per route, no node
    shared between routes, every trie a mirror of its route's flat records. */
module StateIndex {
  import opened PointCodes
  import opened RouteRecords
  import opened DerivedStatus
  import opened RouteIndex
  import opened RouteState
  import opened RouteInvariants

  /** Both maps hold the same records for one route. */
  ghost predicate SameRecords<T>(first: Records<T>, second: Records<T>, route: Id) {
    forall k: RangeKey :: k.route == route ==> (k in first <==> k in second) && (k in first && k in second ==> first[k] == second[k])
  }

  lemma SameKeyRanges<T>(first: Records<T>, second: Records<T>, route: Id)
    requires SameRecords(first, second, route)
    ensures RangesOf(first, route) == RangesOf(second, route)
  {
    forall range | range in RangesOf(first, route) ensures range in RangesOf(second, route) {
      var k :| k in first && k.route == route && k.range == range;
      assert k in second;
    }
    forall range | range in RangesOf(second, route) ensures range in RangesOf(first, route) {
      var k :| k in second && k.route == route && k.range == range;
      assert k in first;
    }
  }

  /** A trie mirrors any maps that agree on its own route. */
  lemma MirrorsDepends(trie: Trie, root: Range, route: Id,
                       av1: Records<Availability>, cg1: Records<Congestion>,
                       av2: Records<Availability>, cg2: Records<Congestion>)
    requires Mirrors(trie, root, route, av1, cg1)
    requires SameRecords(av1, av2, route) && SameRecords(cg1, cg2, route)
    ensures Mirrors(trie, root, route, av2, cg2)
  {
    SameKeyRanges(av1, av2, route);
    SameKeyRanges(cg1, cg2, route);
    forall p | p in trie
      ensures MirrorsAt(trie[p].availability, av2, route, p) && MirrorsAt(trie[p].congestion, cg2, route, p)
    {
      assert MirrorsAt(trie[p].availability, av1, route, p) && MirrorsAt(trie[p].congestion, cg1, route, p);
      assert forall g :: RangeKey(g, route, p).route == route;
    }
  }

  /** A lone childless root without records mirrors the empty maps. */
  lemma LoneRootMirrors(node: IndexNode, root: Range, route: Id)
    requires Aligned(root) && node.low == null && node.high == null && node.availability == map[] && node.congestion == map[]
    ensures Mirrors(map[root := node], root, route, map[], map[])
  {
    var trie: Trie := map[root := node];
    assert Inside(root, root);
    forall a | Between(root, a, root) ensures a == root {
      SharedPointNests(a, root, root.pc);
    }
    forall p, b: nat | p in trie && p.mask > 0 && b <= 1 ensures ChildLink(trie, p, b) {
      ChildBits(p, b);
    }
  }

  ghost predicate OwnedBy(tries: map<Id, Trie>, owner: map<IndexNode, Id>) {
    forall r, p {:trigger tries[r][p]} :: r in tries && p in tries[r] ==> tries[r][p] in owner && owner[tries[r][p]] == r
  }

  lemma OwnedGrows(tries: map<Id, Trie>, owner: map<IndexNode, Id>, id: Id, range: Range, node: IndexNode)
    requires OwnedBy(tries, owner) && id !in tries && node !in owner
    ensures OwnedBy(tries[id := map[range := node]], owner[node := id])
  {}

  class RouteTries {
    var roots: map<Id, IndexNode>
    ghost var tries: map<Id, Trie>
    /** The route each node belongs to. */
    ghost var owner: map<IndexNode, Id>

    ghost function Nodes(): set<IndexNode>
      reads this
    {
      owner.Keys
    }

    ghost predicate RouteMirrors(ranges: map<Id, Range>, route: Id, av: Records<Availability>, cg: Records<Congestion>)
      requires route in tries && route in roots && route in ranges
      reads this, tries[route].Values
    {
      && Mirrors(tries[route], ranges[route], route, av, cg)
      && tries[route][ranges[route]] == roots[route]
    }

    /** No node belongs to two routes. */
    ghost predicate Owned()
      reads this
    {
      OwnedBy(tries, owner)
    }

    lemma OwnerOf(route: Id, n: IndexNode)
      requires Owned() && route in tries && n in tries[route].Values
      ensures n in owner && owner[n] == route
    {
      var p :| p in tries[route] && tries[route][p] == n;
      assert owner[tries[route][p]] == route;
    }

    lemma NodesOwned(route: Id)
      requires Owned() && route in tries
      ensures tries[route].Values <= Nodes()
    {
      forall n | n in tries[route].Values ensures n in Nodes() { OwnerOf(route, n); }
    }

    lemma OthersApart(route: Id, r: Id)
      requires Owned() && route in tries && r in tries && r != route
      ensures tries[r].Values !! tries[route].Values
    {
      forall n | n in tries[r].Values ensures n in owner && owner[n] == r { OwnerOf(r, n); }
      forall n | n in tries[route].Values ensures n in owner && owner[n] == route { OwnerOf(route, n); }
    }

    /** Every route's trie holds exactly that route's records of the flat maps. */
    ghost predicate Valid(ranges: map<Id, Range>, av: Records<Availability>, cg: Records<Congestion>)
      reads this, Nodes()
    {
      && roots.Keys == ranges.Keys && tries.Keys == ranges.Keys && Owned()
      && (forall r {:trigger tries[r]} :: r in ranges ==> RouteMirrors(ranges, r, av, cg))
    }

    /** A new index with an empty trie per route. */
    constructor (routes: seq<Route>)
      requires forall i, j :: 0 <= i < j < |routes| ==> routes[i].id != routes[j].id
      requires forall i :: 0 <= i < |routes| ==> Aligned(routes[i].range)
      ensures Valid(RangesFrom(routes), map[], map[]) && fresh(Nodes())
    {
      roots, tries, owner := map[], map[], map[];
      new;
      hide Valid, Owned, RouteMirrors, Mirrors, RangesFrom, Aligned;
      ghost var done: map<Id, Range> := map[];
      NoRoutes();
      for i := 0 to |routes|
        invariant Valid(done, map[], map[]) && fresh(Nodes())
        invariant done.Keys == set j | 0 <= j < i :: routes[j].id
        invariant forall j :: 0 <= j < i ==> done[routes[j].id] == routes[j].range
      {
        AddRoute(routes[i].id, routes[i].range, done);
        done := done[routes[i].id := routes[i].range];
      }
      RangesBuilt(routes, done);
    }

    lemma NoRoutes()
      requires roots == map[] && tries == map[] && owner == map[]
      ensures Valid(map[], map[], map[]) && Nodes() == {}
    {}

    /** What Valid says of each trie, in terms of the tries alone. */
    static ghost predicate Rooted(tries: map<Id, Trie>, roots: map<Id, IndexNode>, ranges: map<Id, Range>)
      reads set r, p | r in tries && p in tries[r] :: tries[r][p]
    {
      && roots.Keys == ranges.Keys && tries.Keys == ranges.Keys
      && forall r {:trigger tries[r]} :: r in ranges ==>
           Mirrors(tries[r], ranges[r], r, map[], map[]) && ranges[r] in tries[r] && tries[r][ranges[r]] == roots[r]
    }

    lemma ValidIsRooted(ranges: map<Id, Range>)
      ensures Valid(ranges, map[], map[]) <==> Rooted(tries, roots, ranges) && Owned()
      ensures Valid(ranges, map[], map[]) ==> tries.Keys == ranges.Keys
    {
      hide OwnedBy, Holds;
      if Valid(ranges, map[], map[]) {
        forall r {:trigger tries[r]} | r in ranges ensures Mirrors(tries[r], ranges[r], r, map[], map[]) && ranges[r] in tries[r] && tries[r][ranges[r]] == roots[r] {
          assert RouteMirrors(ranges, r, map[], map[]);
        }
      }
    }

    static method NewRoot(id: Id, range: Range) returns (node: IndexNode, ghost trie: Trie)
      requires Aligned(range)
      ensures fresh(node) && trie == map[range := node] && Mirrors(trie, range, id, map[], map[])
    {
      node := new IndexNode();
      trie := map[range := node];
      LoneRootMirrors(node, range, id);
    }

    static lemma RootedGrows(tries: map<Id, Trie>, roots: map<Id, IndexNode>, ranges: map<Id, Range>, id: Id, range: Range,
                             node: IndexNode, trie: Trie)
      requires Rooted(tries, roots, ranges) && id !in ranges
      requires trie == map[range := node] && Mirrors(trie, range, id, map[], map[])
      ensures Rooted(tries[id := trie], roots[id := node], ranges[id := range])
    {
      hide Mirrors;
    }

    method AddRoute(id: Id, range: Range, ghost ranges: map<Id, Range>)
      requires Valid(ranges, map[], map[]) && id !in ranges && Aligned(range)
      modifies this
      ensures Valid(ranges[id := range], map[], map[]) && fresh(Nodes() - old(Nodes()))
    {
      hide Mirrors, OwnedBy, Rooted, Valid;
      ValidIsRooted(ranges);
      ghost var trie;
      var node;
      node, trie := NewRoot(id, range);
      RootedGrows(tries, roots, ranges, id, range, node, trie);
      OwnedGrows(tries, owner, id, range, node);
      roots := roots[id := node];
      tries, owner := tries[id := trie], owner[node := id];
      ValidIsRooted(ranges[id := range]);
    }

    /** One route's trie after it has grown by fresh nodes. */
    ghost method Adopt(route: Id, grown: Trie)
      requires route in tries && Owned()
      requires forall n :: n in grown.Values && n !in tries[route].Values ==> n !in owner
      modifies this`tries, this`owner
      ensures tries == old(tries)[route := grown] && Owned()
      ensures Nodes() == old(Nodes()) + grown.Values
    {
      owner := map n | n in owner.Keys + grown.Values :: if n in grown.Values then route else owner[n];
      tries := tries[route := grown];
    }

    /** asp_routes.go:530-539. */
    method StoreAvailability(ranges: map<Id, Range>, key: RangeKey, record: Record<Availability>,
                             ghost av: Records<Availability>, ghost cg: Records<Congestion>)
      requires Valid(ranges, av, cg)
      requires key.route in ranges && Aligned(key.range) && Inside(key.range, ranges[key.route])
      modifies this, Nodes()
      ensures Valid(ranges, av[key := record], cg) && fresh(Nodes() - old(Nodes())) && roots == old(roots)
    {
      hide Mirrors, Aligned, Inside, RangesFrom, OwnedBy;
      NodesOwned(key.route);
      assert RouteMirrors(ranges, key.route, av, cg);
      forall r {:trigger tries[r]} | r in ranges && r != key.route
        ensures tries[r].Values !! tries[key.route].Values && RouteMirrors(ranges, r, av[key := record], cg)
      {
        OthersApart(key.route, r);
        assert RouteMirrors(ranges, r, av, cg);
        MirrorsDepends(tries[r], ranges[r], r, av, cg, av[key := record], cg);
      }
      ghost var grown := IndexAvailability(roots[key.route], ranges[key.route], key, record, tries[key.route], av, cg);
      Adopt(key.route, grown);
      forall r | r in ranges ensures RouteMirrors(ranges, r, av[key := record], cg) {
        if r != key.route { assert Mirrors(tries[r], ranges[r], r, av[key := record], cg); }
      }
    }

    /** asp_routes.go:541-550. */
    method StoreCongestion(ranges: map<Id, Range>, key: RangeKey, record: Record<Congestion>,
                           ghost av: Records<Availability>, ghost cg: Records<Congestion>)
      requires Valid(ranges, av, cg)
      requires key.route in ranges && Aligned(key.range) && Inside(key.range, ranges[key.route])
      modifies this, Nodes()
      ensures Valid(ranges, av, cg[key := record]) && fresh(Nodes() - old(Nodes())) && roots == old(roots)
    {
      hide Mirrors, Aligned, Inside, RangesFrom, OwnedBy;
      NodesOwned(key.route);
      assert RouteMirrors(ranges, key.route, av, cg);
      forall r {:trigger tries[r]} | r in ranges && r != key.route
        ensures tries[r].Values !! tries[key.route].Values && RouteMirrors(ranges, r, av, cg[key := record])
      {
        OthersApart(key.route, r);
        assert RouteMirrors(ranges, r, av, cg);
        MirrorsDepends(tries[r], ranges[r], r, av, cg, av, cg[key := record]);
      }
      ghost var grown := IndexCongestion(roots[key.route], ranges[key.route], key, record, tries[key.route], av, cg);
      Adopt(key.route, grown);
      forall r | r in ranges ensures RouteMirrors(ranges, r, av, cg[key := record]) {
        if r != key.route { assert Mirrors(tries[r], ranges[r], r, av, cg[key := record]); }
      }
    }

    /** asp_routes.go:821-835: the leaves of one route. */
    method Derive(ranges: map<Id, Range>, route: Id, gateways: seq<GatewayView>,
                  ghost av: Records<Availability>, ghost cg: Records<Congestion>)
      returns (updated: map<Range, Status>)
      requires Valid(ranges, av, cg) && route in ranges
      requires DistinctSequences(av) && DistinctSequences(cg)
      ensures updated == Derived(gateways, av, cg, route, ranges[route])
    {
      hide Mirrors;
      updated := map[];
      if gateways == [] {
        return;
      }
      assert RouteMirrors(ranges, route, av, cg);
      RootPath(tries[route], ranges[route], route, av, cg);
      assert [] + [roots[route]] == [roots[route]];
      updated := AppendDerivedLeaves(roots[route], ranges[route], gateways, [], map[], tries[route], ranges[route], route, av, cg);
    }
  }

  lemma RangesBuilt(routes: seq<Route>, done: map<Id, Range>)
    requires forall i, j :: 0 <= i < j < |routes| ==> routes[i].id != routes[j].id
    requires done.Keys == set j | 0 <= j < |routes| :: routes[j].id
    requires forall j :: 0 <= j < |routes| ==> done[routes[j].id] == routes[j].range
    ensures done == RangesFrom(routes)
  {
    hide RangesFrom;
    forall j | 0 <= j < |routes| ensures routes[j].id in RangesFrom(routes) && RangesFrom(routes)[routes[j].id] == routes[j].range {
      RangesFromExact(routes, j);
    }
    forall r | r in RangesFrom(routes) ensures r in done {
      var route :| route in routes && route.id == r;
      var j :| 0 <= j < |routes| && routes[j] == route;
    }
  }

  lemma RootPath(trie: Trie, root: Range, route: Id, av: Records<Availability>, cg: Records<Congestion>)
    requires Mirrors(trie, root, route, av, cg)
    ensures root in trie && PathTo(trie, [trie[root]], root)
  {
    forall p | p in trie ensures trie[p] in [trie[root]] <==> Inside(root, p) {
      if Inside(root, p) { SharedPointNests(root, p, root.pc); }
      assert Inside(root, root);
    }
  }
}
