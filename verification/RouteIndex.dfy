/** The binary prefix trie that mirrors the flat records of one MTP Route, as linked nodes.
    A ghost map from ranges to nodes says which node stands for which range. */
module RouteIndex {
  import opened Common
  import opened PointCodes
  import opened RouteRecords
  import opened DerivedStatus

  /** asp_routes.go:79-83. */
  class IndexNode {
    var low: IndexNode?
    var high: IndexNode?
    var availability: map<Id, Record<Availability>>
    var congestion: map<Id, Record<Congestion>>

    constructor ()
      ensures low == null && high == null && availability == map[] && congestion == map[]
    {
      low, high := null, null;
      availability, congestion := map[], map[];
    }

    function ChildOf(branch: nat): IndexNode?
      reads `low, `high
    {
      if branch == 0 then low else high
    }
  }

  /** Which node stands for which range. */
  type Trie = map<Range, IndexNode>

  ghost predicate ChildLink(trie: Trie, p: Range, branch: nat)
    requires p in trie && p.mask > 0 && branch <= 1
    reads trie.Values`low, trie.Values`high
  {
    var c := Child(p, branch);
    trie[p].ChildOf(branch) == if c in trie then trie[c] else null
  }

  /** Every aligned range between the root and a position is a position. */
  ghost predicate Closed(positions: set<Range>, root: Range) {
    forall p, a {:trigger Between(p, a, root)} :: p in positions && Between(p, a, root) ==> a in positions
  }

  ghost predicate Between(p: Range, a: Range, root: Range) {
    Aligned(a) && Inside(p, a) && Inside(a, root)
  }

  ghost predicate Linked(trie: Trie, root: Range)
    reads trie.Values`low, trie.Values`high
  {
    && Aligned(root) && root in trie
    && (forall p :: p in trie ==> Aligned(p) && Inside(p, root))
    && (forall p, o :: p in trie && o in trie && trie[p] == trie[o] ==> p == o)
    && (forall p {:trigger trie[p].low} {:trigger trie[p].high} ::
          p in trie && p.mask == 0 ==> trie[p].low == null && trie[p].high == null)
    && (forall p, b: nat {:trigger ChildLink(trie, p, b)} ::
          p in trie && p.mask > 0 && b <= 1 ==> ChildLink(trie, p, b))
    && Closed(trie.Keys, root)
  }

  /** The node records of every node are those it had before. */
  twostate predicate SameRecords(trie: Trie)
    reads trie.Values
  {
    forall p :: p in trie ==>
      trie[p].availability == old(trie[p].availability) && trie[p].congestion == old(trie[p].congestion)
  }

  /** An aligned range strictly above a half of p contains p. */
  lemma AboveChild(p: Range, branch: nat, a: Range)
    requires Aligned(p) && p.mask > 0 && branch <= 1 && Aligned(a)
    ensures Inside(Child(p, branch), a) && a != Child(p, branch) ==> Inside(p, a)
    ensures Inside(p, a) ==> Inside(Child(p, branch), a)
  {
    var c := Child(p, branch);
    ChildBits(p, branch);
    if Inside(c, a) && a != c {
      if a.mask == c.mask { SharedPointNests(c, a, c.pc); }
      SharedPointNests(p, a, c.pc);
    }
    if Inside(p, a) { InsideTransitive(c, p, a); }
  }

  /** A range is the half of only one aligned range. */
  lemma ParentUnique(p: Range, o: Range, b: nat, d: nat)
    requires Aligned(p) && Aligned(o) && p.mask > 0 && o.mask > 0 && b <= 1 && d <= 1
    requires Child(p, b) == Child(o, d)
    ensures p == o && b == d
  {
    ChildBits(p, b);
    ChildBits(o, d);
    SharedPointNests(p, o, Child(p, b).pc);
  }

  /** Hangs a new childless node below one position; the trie stays linked. */
  method GrowChild(node: IndexNode, branch: nat, ghost position: Range, ghost root: Range, ghost trie: Trie)
    returns (added: IndexNode, ghost grown: Trie)
    requires Linked(trie, root) && position in trie && trie[position] == node
    requires position.mask > 0 && branch <= 1 && Child(position, branch) !in trie
    modifies node
    ensures fresh(added) && added.availability == map[] && added.congestion == map[]
    ensures grown == trie[Child(position, branch) := added] && Linked(grown, root)
    ensures node.ChildOf(branch) == added
    ensures node.availability == old(node.availability) && node.congestion == old(node.congestion)
  {
    added := new IndexNode();
    if branch == 0 { node.low := added; } else { node.high := added; }
    ghost var c := Child(position, branch);
    grown := trie[c := added];
    ChildBits(position, branch);
    InsideTransitive(c, position, root);
    forall o, d: nat | o in trie && o.mask > 0 && d <= 1
      ensures ChildLink(grown, o, d)
    {
      assert old(ChildLink(trie, o, d));
      if Child(o, d) == c { ParentUnique(o, position, d, branch); }
      if o != position { assert trie[o] != node; }
    }
    if c.mask > 0 {
      forall d: nat | d <= 1 ensures ChildLink(grown, c, d) {
        ChildBits(c, d);
        assert Between(Child(c, d), c, root);
      }
    }
    GrowKeepsClosed(trie.Keys, root, position, branch);
    assert grown.Keys == trie.Keys + {c};
  }

  lemma GrowKeepsClosed(positions: set<Range>, root: Range, p: Range, branch: nat)
    requires Closed(positions, root) && p in positions && Aligned(p) && p.mask > 0 && branch <= 1
    ensures Closed(positions + {Child(p, branch)}, root)
  {
    forall q, a | q in positions + {Child(p, branch)} && Between(q, a, root)
      ensures a in positions + {Child(p, branch)}
    {
      if q !in positions { AboveChild(p, branch, a); assert a == Child(p, branch) || Between(p, a, root); }
    }
  }

  /** asp_routes.go:852-867. Walks from the root to the node of a range, creating the missing
      nodes: exactly the ranges between the root and the target become positions, and no
      existing node's records change. */
  method NodeForRange(rootNode: IndexNode, root: Range, target: Range, ghost trie: Trie)
    returns (node: IndexNode, ghost grown: Trie)
    requires Linked(trie, root) && trie[root] == rootNode && Aligned(target) && Inside(target, root)
    modifies trie.Values
    ensures Linked(grown, root) && target in grown && node == grown[target]
    ensures forall p :: p in trie ==> p in grown && grown[p] == trie[p]
    ensures forall p :: p in grown <==> p in trie || (Aligned(p) && Inside(target, p) && Inside(p, root))
    ensures SameRecords(trie)
    ensures forall p :: p in grown && p !in trie ==>
              fresh(grown[p]) && grown[p].availability == map[] && grown[p].congestion == map[]
  {
    hide Linked;
    LinkedRoot(trie, root);
    node, grown := rootNode, trie;
    ghost var position := root;
    var currentMask := root.mask;
    while currentMask > target.mask
      invariant target.mask <= currentMask <= root.mask && position.mask == currentMask
      invariant Linked(grown, root) && position in grown && node == grown[position] && Inside(target, position)
      invariant forall p :: p in trie ==> p in grown && grown[p] == trie[p]
      invariant forall p :: p in grown ==> p in trie || (Aligned(p) && Inside(target, p) && Inside(p, root))
      invariant forall p :: p in trie ==> allocated(trie[p])
      invariant SameRecords(trie)
      invariant forall p :: p in grown && p !in trie ==>
                  fresh(grown[p]) && grown[p].availability == map[] && grown[p].congestion == map[]
    {
      var branch := Branch(target.pc, currentMask);
      ghost var child := Child(position, branch);
      LinkedChild(grown, root, position, branch);
      BranchNarrows(position, target, branch);
      ChildBits(position, branch);
      InsideTransitive(child, position, root);
      if node.ChildOf(branch) == null {
        var added;
        added, grown := GrowChild(node, branch, position, root, grown);
        node := added;
      } else {
        node := node.ChildOf(branch);
      }
      position := child;
      currentMask := currentMask - 1;
    }
    LinkedChild(grown, root, position, 0);
    SharedPointNests(target, position, target.pc);
    LinkedAbove(grown, root, target);
  }

  lemma LinkedRoot(trie: Trie, root: Range)
    requires Linked(trie, root)
    ensures root in trie && Aligned(root) && Inside(root, root)
  {}

  lemma LinkedChild(trie: Trie, root: Range, position: Range, branch: nat)
    requires Linked(trie, root) && position in trie && branch <= 1
    ensures Aligned(position) && Inside(position, root)
    ensures position.mask > 0 ==> ChildLink(trie, position, branch)
  {}

  lemma LinkedAbove(trie: Trie, root: Range, target: Range)
    requires Linked(trie, root) && target in trie
    ensures forall p :: Aligned(p) && Inside(target, p) && Inside(p, root) ==> p in trie
  {
    forall p | Aligned(p) && Inside(target, p) && Inside(p, root) ensures p in trie {
      assert Between(target, p, root);
    }
  }

  // ---- The trie as a mirror of the flat records ----

  ghost predicate MirrorsAt<T>(stored: map<Id, Record<T>>, records: Records<T>, route: Id, p: Range) {
    forall g :: (g in stored <==> RangeKey(g, route, p) in records)
             && (g in stored ==> stored[g] == records[RangeKey(g, route, p)])
  }

  ghost predicate Holds(trie: Trie, route: Id, availability: Records<Availability>, congestion: Records<Congestion>)
    reads trie.Values`availability, trie.Values`congestion
  {
    && (forall p {:trigger trie[p].availability} :: p in trie ==> MirrorsAt(trie[p].availability, availability, route, p))
    && (forall p {:trigger trie[p].congestion} :: p in trie ==> MirrorsAt(trie[p].congestion, congestion, route, p))
  }

  /** Each node holds exactly the records of its range, and the positions are the root and
      the ranges above some record: the trie holds exactly the flat maps' records. */
  ghost predicate Mirrors(trie: Trie, root: Range, route: Id,
                          availability: Records<Availability>, congestion: Records<Congestion>)
    reads trie.Values
  {
    && Linked(trie, root)
    && Holds(trie, route, availability, congestion)
    && Positions(trie.Keys, root, KeyRanges(availability, congestion, route))
  }

  ghost predicate Positions(positions: set<Range>, root: Range, keys: set<Range>) {
    && (forall k :: k in keys ==> k in positions)
    && (forall p {:trigger HasKeyIn(keys, p)} :: p in positions && p != root ==> HasKeyIn(keys, p))
  }

  ghost predicate HasKeyIn(keys: set<Range>, p: Range) {
    exists k :: k in keys && Inside(k, p)
  }

  lemma KeyInRanges(availability: Records<Availability>, congestion: Records<Congestion>, key: RangeKey)
    ensures key in availability || key in congestion ==> key.range in KeyRanges(availability, congestion, key.route)
  {}

  lemma HalfIsPosition(positions: set<Range>, root: Range, keys: set<Range>, r: Range, b: nat)
    requires Closed(positions, root) && Positions(positions, root, keys)
    requires Aligned(r) && Inside(r, root) && r.mask > 0 && b <= 1
    ensures Child(r, b) in positions <==> HasKeyIn(keys, Child(r, b))
  {
    ChildBits(r, b);
    InsideTransitive(Child(r, b), r, root);
    if k :| k in keys && Inside(k, Child(r, b)) {
      assert Between(k, Child(r, b), root);
    }
  }

  /** A position is split exactly when one of its halves is a position. */
  lemma SplitIsBelow(positions: set<Range>, root: Range, keys: set<Range>, r: Range)
    requires Closed(positions, root) && Positions(positions, root, keys)
    requires Aligned(r) && Inside(r, root) && r.mask > 0
    ensures Below(keys, r) <==> Child(r, 0) in positions || Child(r, 1) in positions
  {
    HalfIsPosition(positions, root, keys, r, 0);
    HalfIsPosition(positions, root, keys, r, 1);
    BelowIsHalf(keys, r);
  }

  lemma BelowIsHalf(keys: set<Range>, r: Range)
    requires Aligned(r) && r.mask > 0
    ensures Below(keys, r) <==> (exists k :: k in keys && (Inside(k, Child(r, 0)) || Inside(k, Child(r, 1))))
  {
    forall k | k in keys
      ensures k.mask < r.mask && Contains(r, k.pc) <==> Inside(k, Child(r, 0)) || Inside(k, Child(r, 1))
    {
      if k.mask < r.mask {
        BranchNarrows(r, k, 0);
        BranchNarrows(r, k, 1);
      }
    }
  }

  // ---- Reading a path (asp_routes.go:913-958) ----

  /** The node list from the root to r: exactly the nodes whose ranges contain r. */
  ghost predicate PathTo(trie: Trie, path: seq<IndexNode>, r: Range) {
    && (forall n :: n in path ==> n in trie.Values)
    && (forall p :: p in trie ==> (trie[p] in path <==> Inside(r, p)))
  }

  /** The newest record one gateway has on the first nodes of a path. */
  ghost function PathNewest<T>(stored: seq<map<Id, Record<T>>>, gateway: Id): Option<Record<T>> {
    if stored == [] then None
    else
      var last := |stored| - 1;
      var before := PathNewest(stored[..last], gateway);
      if gateway in stored[last] && (before.None? || stored[last][gateway].sequence > before.value.sequence)
      then Some(stored[last][gateway]) else before
  }

  lemma {:induction false} PathNewestIsMaximum<T>(stored: seq<map<Id, Record<T>>>, gateway: Id)
    ensures var newest := PathNewest(stored, gateway);
            && (newest.Some? <==> exists i :: 0 <= i < |stored| && gateway in stored[i])
            && (newest.Some? ==>
                  && (exists i :: 0 <= i < |stored| && gateway in stored[i] && stored[i][gateway] == newest.value)
                  && (forall i :: 0 <= i < |stored| && gateway in stored[i] ==>
                        stored[i][gateway].sequence <= newest.value.sequence))
  {
    if stored != [] {
      var last := |stored| - 1;
      var before := stored[..last];
      PathNewestIsMaximum(before, gateway);
      forall i | 0 <= i < last ensures before[i] == stored[i] {}
      var newest := PathNewest(stored, gateway);
      if newest.Some? && newest != PathNewest(before, gateway) {
        assert gateway in stored[last] && stored[last][gateway] == newest.value;
      }
    }
  }

  /** The records met on the path to a leaf are the records covering its point codes. */
  lemma PathReadsScan<T>(positions: seq<Range>, stored: seq<map<Id, Record<T>>>,
                         records: Records<T>, gateway: Id, route: Id, q: nat)
    requires |positions| == |stored| && DistinctSequences(records)
    requires forall i :: 0 <= i < |positions| ==> Contains(positions[i], q) && MirrorsAt(stored[i], records, route, positions[i])
    requires forall key :: Covering(records, gateway, route, q, key) ==> key.range in positions
    ensures var newest := PathNewest(stored, gateway);
            Newest(records, gateway, route, q) == if newest.Some? then Some(newest.value.value) else None
  {
    PathNewestIsMaximum(stored, gateway);
    var newest := PathNewest(stored, gateway);
    if newest.Some? {
      var i :| 0 <= i < |stored| && gateway in stored[i] && stored[i][gateway] == newest.value;
      var key := RangeKey(gateway, route, positions[i]);
      forall other | Covering(records, gateway, route, q, other)
        ensures records[other].sequence <= records[key].sequence
      {
        var j :| 0 <= j < |positions| && positions[j] == other.range;
        assert other == RangeKey(gateway, route, positions[j]);
      }
      NewestIs(records, gateway, route, q, key);
    } else {
      NewestNone(records, gateway, route, q);
    }
  }

  ghost function AvailabilityOf(path: seq<IndexNode>): seq<map<Id, Record<Availability>>>
    reads path
  {
    seq(|path|, i requires 0 <= i < |path| reads path => path[i].availability)
  }

  ghost function CongestionOf(path: seq<IndexNode>): seq<map<Id, Record<Congestion>>>
    reads path
  {
    seq(|path|, i requires 0 <= i < |path| reads path => path[i].congestion)
  }

  function ValueOf<T>(record: Option<Record<T>>): Option<T> {
    if record.Some? then Some(record.value.value) else None
  }

  ghost function PathStatuses(gateways: seq<GatewayView>, path: seq<IndexNode>): seq<Status>
    reads path
  {
    seq(|gateways|, i requires 0 <= i < |gateways| reads path =>
      GatewayStatus(gateways[i].capable,
                    ValueOf(PathNewest(AvailabilityOf(path), gateways[i].id)),
                    ValueOf(PathNewest(CongestionOf(path), gateways[i].id))))
  }

  /** asp_routes.go:913-958. */
  method StatusFromGatewayPath(gateways: seq<GatewayView>, path: seq<IndexNode>) returns (best: Status)
    ensures best == BestOf(PathStatuses(gateways, path))
  {
    var bestSet := false;
    best := UNAVAILABLE;
    ghost var statuses := PathStatuses(gateways, path);
    for i := 0 to |gateways|
      invariant (if bestSet then Some(best) else None) == BestSoFar(statuses[..i])
      invariant !bestSet ==> best == UNAVAILABLE
    {
      var gateway := gateways[i];
      var status := UNAVAILABLE;
      if gateway.capable {
        var availability, congestion := NewestOnPath(path, gateway.id);
        status := Status(if availability.Some? then availability.value.value else Available,
                         if congestion.Some? then congestion.value.value else NO_CONGESTION);
      }
      assert status == statuses[i];
      assert statuses[..i + 1][..i] == statuses[..i];
      if !bestSet || AvailabilityRank(status.availability) < AvailabilityRank(best.availability) {
        best, bestSet := status, true;
      } else if status.availability == best.availability {
        best := LeastCongested(best, status);
      }
    }
    assert statuses[..|gateways|] == statuses;
  }

  method NewestOnPath(path: seq<IndexNode>, gateway: Id)
    returns (availability: Option<Record<Availability>>, congestion: Option<Record<Congestion>>)
    ensures availability == PathNewest(AvailabilityOf(path), gateway)
    ensures congestion == PathNewest(CongestionOf(path), gateway)
  {
    availability, congestion := None, None;
    ghost var avs, cgs := AvailabilityOf(path), CongestionOf(path);
    for j := 0 to |path|
      invariant availability == PathNewest(avs[..j], gateway)
      invariant congestion == PathNewest(cgs[..j], gateway)
    {
      var node := path[j];
      assert avs[..j + 1][..j] == avs[..j] && cgs[..j + 1][..j] == cgs[..j];
      if gateway in node.availability &&
         (availability.None? || node.availability[gateway].sequence > availability.value.sequence) {
        availability := Some(node.availability[gateway]);
      }
      if gateway in node.congestion &&
         (congestion.None? || node.congestion[gateway].sequence > congestion.value.sequence) {
        congestion := Some(node.congestion[gateway]);
      }
    }
    assert avs[..|path|] == avs && cgs[..|path|] == cgs;
  }

  /** On the path to an unsplit range the engine reads what the naive scan reads. */
  lemma PathReadsNaive(trie: Trie, root: Range, route: Id, gateways: seq<GatewayView>, path: seq<IndexNode>,
                       availability: Records<Availability>, congestion: Records<Congestion>, r: Range)
    requires Mirrors(trie, root, route, availability, congestion) && PathTo(trie, path, r)
    requires DistinctSequences(availability) && DistinctSequences(congestion)
    requires r.mask == 0 || !Below(KeyRanges(availability, congestion, route), r)
    ensures BestOf(PathStatuses(gateways, path)) == NaiveStatus(gateways, availability, congestion, route, r.pc)
  {
    var positions := seq(|path|, i requires 0 <= i < |path| => RangeOf(trie, path[i]));
    forall key: RangeKey | (key in availability || key in congestion) && key.route == route && Contains(key.range, r.pc)
      ensures key.range in positions
    {
      var keys := KeyRanges(availability, congestion, route);
      KeyInRanges(availability, congestion, key);
      assert key.range in trie;
      if key.range.mask < r.mask { SharedPointNests(key.range, r, r.pc); }
      assert trie[key.range] in path;
      var i :| 0 <= i < |path| && path[i] == trie[key.range];
      assert positions[i] == key.range;
    }
    forall i | 0 <= i < |path| ensures Contains(positions[i], r.pc) {
      assert trie[positions[i]] in path;
    }
    forall i | 0 <= i < |gateways|
      ensures PathStatuses(gateways, path)[i] == NaiveStatuses(gateways, availability, congestion, route, r.pc)[i]
    {
      PathReadsScan(positions, AvailabilityOf(path), availability, gateways[i].id, route, r.pc);
      PathReadsScan(positions, CongestionOf(path), congestion, gateways[i].id, route, r.pc);
    }
    assert PathStatuses(gateways, path) == NaiveStatuses(gateways, availability, congestion, route, r.pc);
  }

  ghost function RangeOf(trie: Trie, node: IndexNode): (p: Range)
    requires node in trie.Values
    ensures p in trie && trie[p] == node
  {
    var p :| p in trie && trie[p] == node;
    p
  }

  // ---- Deriving the leaves (asp_routes.go:869-911) ----

  ghost function LeafMap(gateways: seq<GatewayView>,
                         availability: Records<Availability>, congestion: Records<Congestion>,
                         route: Id, r: Range): map<Range, Status>
  {
    StatusMap(gateways, availability, congestion, route, Leaves(KeyRanges(availability, congestion, route), r))
  }

  /** The path to a half of r: one node longer when the half is a position, else unchanged. */
  lemma PathToHalf(trie: Trie, root: Range, path: seq<IndexNode>, r: Range, branch: nat)
    requires Linked(trie, root) && r in trie && PathTo(trie, path, r) && r.mask > 0 && branch <= 1
    ensures Child(r, branch) !in trie ==> PathTo(trie, path, Child(r, branch))
    ensures Child(r, branch) in trie ==> PathTo(trie, path + [trie[Child(r, branch)]], Child(r, branch))
  {
    var c := Child(r, branch);
    forall p | p in trie && p != c
      ensures Inside(c, p) <==> Inside(r, p)
    {
      AboveChild(r, branch, p);
    }
    if c in trie {
      var longer := path + [trie[c]];
      forall p | p in trie ensures trie[p] in longer <==> Inside(c, p) {
        assert trie[p] in longer <==> trie[p] in path || trie[p] == trie[c];
      }
    }
  }

  /** The leaves below a position, each with the naive status of its point codes, are added
      to what was derived before. */
  method AppendDerivedLeaves(node: IndexNode, r: Range, gateways: seq<GatewayView>, path: seq<IndexNode>,
                             updated: map<Range, Status>, ghost trie: Trie, ghost root: Range, ghost route: Id,
                             ghost availability: Records<Availability>, ghost congestion: Records<Congestion>)
    returns (result: map<Range, Status>)
    requires Mirrors(trie, root, route, availability, congestion)
    requires DistinctSequences(availability) && DistinctSequences(congestion)
    requires r in trie && trie[r] == node && PathTo(trie, path + [node], r)
    ensures result == updated + LeafMap(gateways, availability, congestion, route, r)
    decreases r.mask, 1
  {
    ghost var keys := KeyRanges(availability, congestion, route);
    var here := path + [node];
    SplitNode(trie, root, keys, r);
    if r.mask == 0 || (node.low == null && node.high == null) {
      PathReadsNaive(trie, root, route, gateways, here, availability, congestion, r);
      LeafMapSingle(updated, gateways, availability, congestion, route, r);
      var status := StatusFromGatewayPath(gateways, here);
      return updated[r := status];
    }
    result := updated;
    LeafMapSplits(updated, gateways, availability, congestion, route, r);
    ghost var low := LeafMap(gateways, availability, congestion, route, Child(r, 0));
    ghost var high := LeafMap(gateways, availability, congestion, route, Child(r, 1));
    for branch := 0 to 2
      invariant result == if branch == 0 then updated else if branch == 1 then updated + low else updated + low + high
    {
      result := AppendHalf(node, r, branch, gateways, here, result, trie, root, route, availability, congestion);
    }
  }

  /** A node has a child exactly when a record lies strictly inside its range. */
  lemma SplitNode(trie: Trie, root: Range, keys: set<Range>, r: Range)
    requires Linked(trie, root) && Positions(trie.Keys, root, keys) && r in trie
    ensures trie[r].low != null || trie[r].high != null <==> r.mask > 0 && Below(keys, r)
  {
    if r.mask > 0 {
      assert ChildLink(trie, r, 0) && ChildLink(trie, r, 1);
      SplitIsBelow(trie.Keys, root, keys, r);
    }
  }

  lemma LeafMapSingle(updated: map<Range, Status>, gateways: seq<GatewayView>,
                      availability: Records<Availability>, congestion: Records<Congestion>, route: Id, r: Range)
    requires r.mask == 0 || !Below(KeyRanges(availability, congestion, route), r)
    ensures updated + LeafMap(gateways, availability, congestion, route, r)
         == updated[r := NaiveStatus(gateways, availability, congestion, route, r.pc)]
  {
    var leaves := Leaves(KeyRanges(availability, congestion, route), r);
    assert leaves == {r};
    assert StatusMap(gateways, availability, congestion, route, leaves)
        == map[r := NaiveStatus(gateways, availability, congestion, route, r.pc)];
  }

  /** The leaf map of a split range is that of its two halves. */
  lemma LeafMapSplits(updated: map<Range, Status>, gateways: seq<GatewayView>,
                      availability: Records<Availability>, congestion: Records<Congestion>, route: Id, r: Range)
    requires r.mask > 0 && Below(KeyRanges(availability, congestion, route), r)
    ensures updated + LeafMap(gateways, availability, congestion, route, r)
         == updated + LeafMap(gateways, availability, congestion, route, Child(r, 0))
                    + LeafMap(gateways, availability, congestion, route, Child(r, 1))
  {
    var keys := KeyRanges(availability, congestion, route);
    StatusMapJoins(updated, gateways, availability, congestion, route, Leaves(keys, Child(r, 0)), Leaves(keys, Child(r, 1)));
  }

  lemma StatusMapJoins(updated: map<Range, Status>, gateways: seq<GatewayView>,
                       availability: Records<Availability>, congestion: Records<Congestion>, route: Id,
                       low: set<Range>, high: set<Range>)
    ensures updated + StatusMap(gateways, availability, congestion, route, low + high)
         == updated + StatusMap(gateways, availability, congestion, route, low)
                    + StatusMap(gateways, availability, congestion, route, high)
  {}

  /** One half of a split position: a leaf of its own when no node stands for it. */
  method AppendHalf(node: IndexNode, r: Range, branch: nat, gateways: seq<GatewayView>, path: seq<IndexNode>,
                    updated: map<Range, Status>, ghost trie: Trie, ghost root: Range, ghost route: Id,
                    ghost availability: Records<Availability>, ghost congestion: Records<Congestion>)
    returns (result: map<Range, Status>)
    requires Mirrors(trie, root, route, availability, congestion)
    requires DistinctSequences(availability) && DistinctSequences(congestion)
    requires r in trie && trie[r] == node && PathTo(trie, path, r) && r.mask > 0 && branch <= 1
    ensures result == updated + LeafMap(gateways, availability, congestion, route, Child(r, branch))
    decreases r.mask, 0
  {
    var child := Child(r, branch);
    var next := node.ChildOf(branch);
    assert ChildLink(trie, r, branch);
    PathToHalf(trie, root, path, r, branch);
    if next == null {
      MissingIsLeaf(trie, root, KeyRanges(availability, congestion, route), r, branch);
      LeafMapSingle(updated, gateways, availability, congestion, route, child);
      PathReadsNaive(trie, root, route, gateways, path, availability, congestion, child);
      var status := StatusFromGatewayPath(gateways, path);
      result := updated[child := status];
    } else {
      result := AppendDerivedLeaves(next, child, gateways, path, updated, trie, root, route, availability, congestion);
    }
  }

  /** Nothing is stored below an absent half. */
  lemma MissingIsLeaf(trie: Trie, root: Range, keys: set<Range>, r: Range, branch: nat)
    requires Linked(trie, root) && Positions(trie.Keys, root, keys)
    requires r in trie && r.mask > 0 && branch <= 1 && Child(r, branch) !in trie
    ensures !Below(keys, Child(r, branch))
  {
    HalfIsPosition(trie.Keys, root, keys, r, branch);
  }

  // ---- Writing one record through to the trie (asp_routes.go:530-563) ----

  method IndexAvailability(rootNode: IndexNode, root: Range, key: RangeKey, record: Record<Availability>,
                           ghost trie: Trie, ghost availability: Records<Availability>, ghost congestion: Records<Congestion>)
    returns (ghost grown: Trie)
    requires Mirrors(trie, root, key.route, availability, congestion) && trie[root] == rootNode
    requires Aligned(key.range) && Inside(key.range, root)
    modifies trie.Values
    ensures Mirrors(grown, root, key.route, availability[key := record], congestion) && grown[root] == rootNode
    ensures fresh(grown.Values - trie.Values)
  {
    var node;
    node, grown := NodeForRecord(rootNode, root, key, trie, availability, congestion);
    StoreAvailability(node, grown, key, record, availability, congestion);
    GrownRanges(availability, key, record);
    assert KeyRanges(availability[key := record], congestion, key.route)
        == KeyRanges(availability, congestion, key.route) + {key.range};
  }

  method IndexCongestion(rootNode: IndexNode, root: Range, key: RangeKey, record: Record<Congestion>,
                         ghost trie: Trie, ghost availability: Records<Availability>, ghost congestion: Records<Congestion>)
    returns (ghost grown: Trie)
    requires Mirrors(trie, root, key.route, availability, congestion) && trie[root] == rootNode
    requires Aligned(key.range) && Inside(key.range, root)
    modifies trie.Values
    ensures Mirrors(grown, root, key.route, availability, congestion[key := record]) && grown[root] == rootNode
    ensures fresh(grown.Values - trie.Values)
  {
    var node;
    node, grown := NodeForRecord(rootNode, root, key, trie, availability, congestion);
    StoreCongestion(node, grown, key, record, availability, congestion);
    GrownRanges(congestion, key, record);
    assert KeyRanges(availability, congestion[key := record], key.route)
        == KeyRanges(availability, congestion, key.route) + {key.range};
  }

  /** asp_routes.go:552-563. */
  method NodeForRecord(rootNode: IndexNode, root: Range, key: RangeKey, ghost trie: Trie,
                       ghost availability: Records<Availability>, ghost congestion: Records<Congestion>)
    returns (node: IndexNode, ghost grown: Trie)
    requires Mirrors(trie, root, key.route, availability, congestion) && trie[root] == rootNode
    requires Aligned(key.range) && Inside(key.range, root)
    modifies trie.Values
    ensures Linked(grown, root) && Holds(grown, key.route, availability, congestion)
    ensures Positions(grown.Keys, root, KeyRanges(availability, congestion, key.route) + {key.range})
    ensures key.range in grown && node == grown[key.range] && grown[root] == rootNode
    ensures fresh(grown.Values - trie.Values)
  {
    node, grown := NodeForRange(rootNode, root, key.range, trie);
    GrownPositions(trie.Keys, grown.Keys, root, key.range, KeyRanges(availability, congestion, key.route));
    forall p | p in grown
      ensures MirrorsAt(grown[p].availability, availability, key.route, p)
      ensures MirrorsAt(grown[p].congestion, congestion, key.route, p)
    {
      if p in trie {
        assert old(MirrorsAt(trie[p].availability, availability, key.route, p));
        assert old(MirrorsAt(trie[p].congestion, congestion, key.route, p));
      } else {
        NewPositionEmpty(trie.Keys, root, key.route, availability, congestion, p);
      }
    }
  }

  method StoreAvailability(node: IndexNode, ghost trie: Trie, key: RangeKey, record: Record<Availability>,
                           ghost availability: Records<Availability>, ghost congestion: Records<Congestion>)
    requires Holds(trie, key.route, availability, congestion) && key.range in trie && node == trie[key.range]
    requires forall p, o :: p in trie && o in trie && trie[p] == trie[o] ==> p == o
    modifies node`availability
    ensures Holds(trie, key.route, availability[key := record], congestion)
  {
    node.availability := node.availability[key.gateway := record];
    forall p | p in trie
      ensures MirrorsAt(trie[p].availability, availability[key := record], key.route, p)
    {
      assert old(MirrorsAt(trie[p].availability, availability, key.route, p));
    }
  }

  method StoreCongestion(node: IndexNode, ghost trie: Trie, key: RangeKey, record: Record<Congestion>,
                         ghost availability: Records<Availability>, ghost congestion: Records<Congestion>)
    requires Holds(trie, key.route, availability, congestion) && key.range in trie && node == trie[key.range]
    requires forall p, o :: p in trie && o in trie && trie[p] == trie[o] ==> p == o
    modifies node`congestion
    ensures Holds(trie, key.route, availability, congestion[key := record])
  {
    node.congestion := node.congestion[key.gateway := record];
    forall p | p in trie
      ensures MirrorsAt(trie[p].congestion, congestion[key := record], key.route, p)
    {
      assert old(MirrorsAt(trie[p].congestion, congestion, key.route, p));
    }
  }

  /** Ranges that are not positions yet hold no record. */
  lemma NewPositionEmpty(positions: set<Range>, root: Range, route: Id,
                         availability: Records<Availability>, congestion: Records<Congestion>, p: Range)
    requires Positions(positions, root, KeyRanges(availability, congestion, route)) && p !in positions
    ensures MirrorsAt(map[], availability, route, p) && MirrorsAt(map[], congestion, route, p)
  {
    forall g ensures RangeKey(g, route, p) !in availability && RangeKey(g, route, p) !in congestion {
      KeyInRanges(availability, congestion, RangeKey(g, route, p));
    }
  }

  lemma GrownPositions(before: set<Range>, after: set<Range>, root: Range, added: Range, keys: set<Range>)
    requires Positions(before, root, keys) && before <= after && added in after
    requires forall p :: p in after ==> p in before || Inside(added, p)
    ensures Positions(after, root, keys + {added})
  {
    forall p | p in after && p != root ensures HasKeyIn(keys + {added}, p) {
      if p in before {
        assert HasKeyIn(keys, p);
        var k :| k in keys && Inside(k, p);
        assert k in keys + {added};
      } else {
        assert added in keys + {added};
      }
    }
  }
}
