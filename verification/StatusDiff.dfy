/** The tree diff of asp_routes.go: two maps of ranges to statuses are laid out as binary
    trees in node arenas and walked together; the walk emits the ranges whose status changed. */
module StatusDiff {
  import opened Common
  import opened PointCodes
  import opened RouteRecords
  import opened DerivedStatus
  import opened RouteIndex

  // ---- Indications (mtp_indication.go, asp_routes.go:1100-1123) ----

  datatype Kind = Pause | Resume | StatusChange

  datatype Indication = Indication(kind: Kind, range: Range, status: Status)

  function KindOf(previous: Status, current: Status): Kind {
    if previous.availability != Unavailable && current.availability == Unavailable then Pause
    else if previous.availability == Unavailable && current.availability != Unavailable then Resume
    else StatusChange
  }

  function NewIndication(range: Range, previous: Status, current: Status): Option<Indication> {
    if previous == current then None else Some(Indication(KindOf(previous, current), range, current))
  }

  // ---- What a map of ranges says about a point code ----

  /** The status of the deepest range holding q, searched downwards from r; `inherited` is
      what the ranges above r said. */
  ghost function ViewFrom(statuses: map<Range, Status>, r: Range, q: nat, inherited: Option<Status>): Option<Status>
    decreases r.mask
  {
    var here := if r in statuses then Some(statuses[r]) else inherited;
    if r.mask == 0 then here
    else ViewFrom(statuses, Child(r, Branch(q, r.mask)), q, here)
  }

  /** A point code nothing is said about is unavailable. */
  function Known(status: Option<Status>): Status {
    if status.Some? then status.value else UNAVAILABLE
  }

  ghost function View(statuses: map<Range, Status>, root: Range, q: nat): Status {
    Known(ViewFrom(statuses, root, q, None))
  }

  ghost predicate AlignedRanges(statuses: map<Range, Status>) {
    forall k :: k in statuses ==> Aligned(k)
  }

  /** The view of a point code is the status of the smallest range of the map inside the
      root that holds it, and of none when no such range does. */
  lemma {:induction false} ViewIsSmallest(statuses: map<Range, Status>, r: Range, q: nat, inherited: Option<Status>)
    requires AlignedRanges(statuses) && Aligned(r) && Contains(r, q)
    ensures var view := ViewFrom(statuses, r, q, inherited);
            || (view == inherited && forall k :: k in statuses && Contains(k, q) ==> !Inside(k, r))
            || (exists k :: k in statuses && Contains(k, q) && Inside(k, r) && view == Some(statuses[k])
                  && forall o :: o in statuses && Contains(o, q) && Inside(o, r) ==> k.mask <= o.mask)
    decreases r.mask
  {
    var here := if r in statuses then Some(statuses[r]) else inherited;
    if r.mask > 0 {
      var b := Branch(q, r.mask);
      var c := Child(r, b);
      BranchSelects(r, q, b);
      ChildBits(r, b);
      ViewIsSmallest(statuses, c, q, here);
      forall k | k in statuses && Contains(k, q) && k != r
        ensures Inside(k, r) <==> Inside(k, c)
      {
        if Inside(k, c) { InsideTransitive(k, c, r); }
        if Inside(k, r) {
          if k.mask == r.mask { SharedPointNests(k, r, q); }
          SharedPointNests(k, c, q);
        }
      }
      InsideSelf(r);
    } else {
      forall k | k in statuses && Contains(k, q) && Inside(k, r) ensures k == r {
        SharedPointNests(k, r, q);
      }
      InsideSelf(r);
    }
  }

  lemma InsideSelf(r: Range)
    ensures Inside(r, r)
  {}

  /** In a partition the view is the status of the one leaf that holds the point code. */
  lemma ViewOfLeaf(statuses: map<Range, Status>, root: Range, leaf: Range, q: nat)
    requires AlignedRanges(statuses) && Aligned(root) && leaf in statuses && Inside(leaf, root) && Contains(leaf, q)
    requires forall k :: k in statuses && Contains(k, q) ==> k == leaf
    ensures View(statuses, root, q) == statuses[leaf]
  {
    InsideContains(leaf, root, q);
    ViewIsSmallest(statuses, root, q, None);
  }

  /** Nothing strictly below r: every point code of r reads what r says. */
  lemma {:induction false} ViewFlat(statuses: map<Range, Status>, r: Range, q: nat, inherited: Option<Status>)
    requires AlignedRanges(statuses) && Aligned(r) && Contains(r, q)
    requires r.mask == 0 || !Below(statuses.Keys, r)
    ensures ViewFrom(statuses, r, q, inherited) == if r in statuses then Some(statuses[r]) else inherited
  {
    ViewIsSmallest(statuses, r, q, inherited);
    if k :| k in statuses && Contains(k, q) && Inside(k, r) {
      if k.mask == r.mask { SharedPointNests(k, r, q); }
    }
    InsideSelf(r);
  }

  // ---- The node arena (asp_routes.go:69-77, 984-1025) ----

  /** Children are positions in the arena counted from one; zero is no child. */
  datatype TreeNode = TreeNode(low: nat, high: nat, status: Option<Status>) {
    function ChildOf(branch: nat): nat {
      if branch == 0 then low else high
    }
  }

  const EMPTY_NODE := TreeNode(0, 0, None)

  /** The node standing for p is in the arena, and p is an aligned range of the route. */
  ghost predicate Placed(nodes: seq<TreeNode>, at: map<Range, nat>, root: Range, p: Range) {
    && p in at && 1 <= at[p] <= |nodes| && Aligned(p) && Inside(p, root)
    && (p.mask == 0 ==> nodes[at[p] - 1].low == 0 && nodes[at[p] - 1].high == 0)
  }

  /** The child of p on one side is the node of that half, if there is one. */
  ghost predicate NodeLink(nodes: seq<TreeNode>, at: map<Range, nat>, p: Range, branch: nat) {
    && p in at && 1 <= at[p] <= |nodes| && p.mask > 0 && branch <= 1
    && nodes[at[p] - 1].ChildOf(branch) == NodeAt(at, Child(p, branch))
  }

  ghost predicate SameNode(at: map<Range, nat>, p: Range, o: Range) {
    p in at && o in at && at[p] == at[o]
  }

  ghost function NodeAt(at: map<Range, nat>, r: Range): nat {
    if r in at then at[r] else 0
  }

  /** `at` says which node stands for which range. */
  ghost predicate Arena(nodes: seq<TreeNode>, at: map<Range, nat>, root: Range) {
    && Aligned(root) && root in at && at[root] == 1
    && (forall p {:trigger Placed(nodes, at, root, p)} :: p in at ==> Placed(nodes, at, root, p))
    && (forall p, o {:trigger SameNode(at, p, o)} :: SameNode(at, p, o) ==> p == o)
    && (forall p, b: nat {:trigger NodeLink(nodes, at, p, b)} ::
          p in at && p.mask > 0 && b <= 1 ==> NodeLink(nodes, at, p, b))
    && Closed(at.Keys, root)
  }

  ghost predicate Labelled(nodes: seq<TreeNode>, at: map<Range, nat>, statuses: map<Range, Status>, p: Range) {
    p in at && 1 <= at[p] <= |nodes| && nodes[at[p] - 1].status == if p in statuses then Some(statuses[p]) else None
  }

  ghost predicate Labels(nodes: seq<TreeNode>, at: map<Range, nat>, statuses: map<Range, Status>) {
    && statuses.Keys <= at.Keys
    && (forall p {:trigger Labelled(nodes, at, statuses, p)} :: p in at ==> Labelled(nodes, at, statuses, p))
  }

  /** The arena lays out exactly the ranges of the map and the ranges above them. */
  ghost predicate LaysOut(nodes: seq<TreeNode>, at: map<Range, nat>, root: Range, statuses: map<Range, Status>) {
    && Arena(nodes, at, root)
    && Labels(nodes, at, statuses)
    && Positions(at.Keys, root, statuses.Keys)
  }

  /** The arena with one more node, hung below node as the given child. */
  function Grown(nodes: seq<TreeNode>, node: nat, branch: nat): (grown: seq<TreeNode>)
    requires 1 <= node <= |nodes|
    ensures |grown| == |nodes| + 1 && grown[|nodes|] == EMPTY_NODE
    ensures forall i :: 0 <= i < |nodes| ==> grown[i].status == nodes[i].status
    ensures forall i :: 0 <= i < |nodes| && i != node - 1 ==> grown[i] == nodes[i]
    ensures grown[node - 1].ChildOf(branch) == |grown|
    ensures branch == 0 ==> grown[node - 1].high == nodes[node - 1].high
    ensures branch != 0 ==> grown[node - 1].low == nodes[node - 1].low
  {
    var child := |nodes| + 1;
    (nodes + [EMPTY_NODE])[node - 1 :=
      if branch == 0 then nodes[node - 1].(low := child) else nodes[node - 1].(high := child)]
  }

  lemma GrownArena(nodes: seq<TreeNode>, at: map<Range, nat>, root: Range, statuses: map<Range, Status>,
                   position: Range, branch: nat)
    requires Arena(nodes, at, root) && Labels(nodes, at, statuses)
    requires position in at && 1 <= at[position] <= |nodes| && position.mask > 0 && branch <= 1
    requires Child(position, branch) !in at
    ensures var grown := Grown(nodes, at[position], branch);
            var after := at[Child(position, branch) := |nodes| + 1];
            Arena(grown, after, root) && Labels(grown, after, statuses)
  {
    var c := Child(position, branch);
    var grown, after := Grown(nodes, at[position], branch), at[c := |nodes| + 1];
    assert Placed(nodes, at, root, position);
    ChildBits(position, branch);
    InsideTransitive(c, position, root);
    forall o | o in after
      ensures Placed(grown, after, root, o) && Labelled(grown, after, statuses, o)
    {
      if o != c {
        assert Placed(nodes, at, root, o) && Labelled(nodes, at, statuses, o);
        if o != position { assert !SameNode(at, o, position); }
      }
    }
    forall o, p | SameNode(after, o, p) ensures o == p {
      if o != c { assert Placed(nodes, at, root, o); }
      if p != c { assert Placed(nodes, at, root, p); }
      if o != c && p != c { assert SameNode(at, o, p); }
    }
    forall o, d: nat | o in after && o.mask > 0 && d <= 1 ensures NodeLink(grown, after, o, d) {
      GrownLink(nodes, at, root, position, branch, o, d);
    }
    GrowKeepsClosed(at.Keys, root, position, branch);
    assert after.Keys == at.Keys + {c};
  }

  lemma GrownLink(nodes: seq<TreeNode>, at: map<Range, nat>, root: Range, position: Range, branch: nat, o: Range, d: nat)
    requires Arena(nodes, at, root) && Placed(nodes, at, root, position) && position.mask > 0 && branch <= 1
    requires Child(position, branch) !in at
    requires (o in at || o == Child(position, branch)) && o.mask > 0 && d <= 1
    ensures NodeLink(Grown(nodes, at[position], branch), at[Child(position, branch) := |nodes| + 1], o, d)
  {
    var c := Child(position, branch);
    ChildBits(position, branch);
    if o == c {
      InsideTransitive(c, position, root);
      ChildBits(c, d);
      assert Between(Child(c, d), c, root);
      assert Child(c, d) !in at;
    } else {
      assert NodeLink(nodes, at, o, d);
      assert Placed(nodes, at, root, o);
      if o != position { assert !SameNode(at, o, position); }
      if Child(o, d) == c { ParentUnique(o, position, d, branch); }
    }
  }

  class StatusTree {
    var nodes: seq<TreeNode>
    ghost var at: map<Range, nat>

    constructor (ghost root: Range)
      requires Aligned(root)
      ensures LaysOut(nodes, at, root, map[])
    {
      nodes := [EMPTY_NODE];
      at := map[root := 1];
      new;
      InsideSelf(root);
      forall p, a | p in at && Between(p, a, root) ensures a in at {
        SharedPointNests(p, a, p.pc);
      }
      forall b: nat | root.mask > 0 && b <= 1 ensures NodeLink(nodes, at, root, b) {
        ChildBits(root, b);
      }
    }

    /** Appends one empty node and hangs it below an existing one. */
    method Grow(node: nat, branch: nat, ghost position: Range, ghost root: Range, ghost statuses: map<Range, Status>)
      returns (child: nat)
      requires Arena(nodes, at, root) && Labels(nodes, at, statuses)
      requires position in at && at[position] == node && 1 <= node <= |nodes|
      requires position.mask > 0 && branch <= 1 && Child(position, branch) !in at
      modifies this
      ensures Arena(nodes, at, root) && Labels(nodes, at, statuses)
      ensures at == old(at)[Child(position, branch) := child] && child == |nodes|
    {
      GrownArena(nodes, at, root, statuses, position, branch);
      nodes := nodes + [EMPTY_NODE];
      child := |nodes|;
      nodes := nodes[node - 1 := if branch == 0 then nodes[node - 1].(low := child) else nodes[node - 1].(high := child)];
      at := at[Child(position, branch) := child];
    }

    /** asp_routes.go:1008-1025. */
    method NodeForRange(rootMask: nat, target: Range, ghost root: Range, ghost statuses: map<Range, Status>)
      returns (node: nat)
      requires Arena(nodes, at, root) && Labels(nodes, at, statuses)
      requires rootMask == root.mask && Aligned(target) && Inside(target, root)
      modifies this
      ensures Arena(nodes, at, root) && Labels(nodes, at, statuses)
      ensures target in at && at[target] == node && 1 <= node <= |nodes|
      ensures old(at).Keys <= at.Keys
      ensures forall p :: p in at.Keys - old(at).Keys ==> Inside(target, p)
    {
      node := 1;
      ghost var position := root;
      var currentMask := rootMask;
      assert Placed(nodes, at, root, root);
      while currentMask > target.mask
        invariant target.mask <= currentMask <= rootMask && position.mask == currentMask
        invariant Arena(nodes, at, root) && Labels(nodes, at, statuses) && old(at).Keys <= at.Keys
        invariant Placed(nodes, at, root, position) && at[position] == node && Inside(target, position)
        invariant forall p :: p in at.Keys - old(at).Keys ==> Inside(target, p)
      {
        var branch := Branch(target.pc, currentMask);
        BranchNarrows(position, target, branch);
        assert NodeLink(nodes, at, position, branch);
        var child := nodes[node - 1].ChildOf(branch);
        assert Child(position, branch) in at ==> Placed(nodes, at, root, Child(position, branch));
        if child == 0 {
          child := Grow(node, branch, position, root, statuses);
        }
        node := child;
        position := Child(position, branch);
        assert Placed(nodes, at, root, position);
        currentMask := currentMask - 1;
      }
      SharedPointNests(target, position, target.pc);
    }
  }

  /** The ranges of a map that lie in the route (the guard of asp_routes.go:990, 999). */
  ghost function InRoute(statuses: map<Range, Status>, root: Range): map<Range, Status> {
    map k | k in statuses && Inside(k, root) :: statuses[k]
  }

  lemma {:induction false} ViewIgnoresOutside(statuses: map<Range, Status>, root: Range, r: Range, q: nat, inherited: Option<Status>)
    requires Aligned(r) && Inside(r, root) && Contains(r, q)
    ensures ViewFrom(statuses, r, q, inherited) == ViewFrom(InRoute(statuses, root), r, q, inherited)
    decreases r.mask
  {
    if r.mask > 0 {
      var b := Branch(q, r.mask);
      ChildBits(r, b);
      BranchSelects(r, q, b);
      InsideTransitive(Child(r, b), r, root);
      ViewIgnoresOutside(statuses, root, Child(r, b), q, if r in statuses then Some(statuses[r]) else inherited);
    }
  }

  /** Labels play no part in the shape of an arena. */
  lemma RelabelledArena(nodes: seq<TreeNode>, at: map<Range, nat>, root: Range, i: nat, label_: Option<Status>)
    requires Arena(nodes, at, root) && i < |nodes|
    ensures Arena(nodes[i := nodes[i].(status := label_)], at, root)
  {
    var labelled := nodes[i := nodes[i].(status := label_)];
    forall p, b: nat | p in at && p.mask > 0 && b <= 1 ensures NodeLink(labelled, at, p, b) {
      assert NodeLink(nodes, at, p, b);
    }
    forall p | p in at ensures Placed(labelled, at, root, p) {
      assert Placed(nodes, at, root, p);
    }
  }

  /** Labelling one more range of the map. */
  lemma LabelOne(nodes: seq<TreeNode>, at: map<Range, nat>, before: set<Range>, root: Range,
                 statuses: map<Range, Status>, key: Range, status: Status)
    requires Arena(nodes, at, root) && Labels(nodes, at, statuses)
    requires Positions(before, root, statuses.Keys) && before <= at.Keys
    requires forall p :: p in at.Keys - before ==> Inside(key, p)
    requires key in at && 1 <= at[key] <= |nodes|
    ensures var i := at[key] - 1;
            LaysOut(nodes[i := nodes[i].(status := Some(status))], at, root, statuses[key := status])
  {
    var i := at[key] - 1;
    var labelled := nodes[i := nodes[i].(status := Some(status))];
    RelabelledArena(nodes, at, root, i, Some(status));
    forall p | p in at ensures Labelled(labelled, at, statuses[key := status], p) {
      assert Labelled(nodes, at, statuses, p);
      if p != key { assert !SameNode(at, p, key); }
    }
    assert statuses[key := status].Keys == statuses.Keys + {key};
    forall p | p in at.Keys && p !in before ensures Inside(key, p) {
      assert p in at.Keys - before;
    }
    GrownPositions(before, at.Keys, root, key, statuses.Keys);
  }

  /** asp_routes.go:984-1006. */
  method DerivedStatusTree(root: Range, statuses: map<Range, Status>) returns (tree: StatusTree)
    requires Aligned(root) && AlignedRanges(statuses)
    ensures fresh(tree) && LaysOut(tree.nodes, tree.at, root, InRoute(statuses, root))
  {
    tree := new StatusTree(root);
    var todo := statuses.Keys;
    ghost var done: map<Range, Status> := map[];
    while todo != {}
      invariant todo <= statuses.Keys
      invariant done == map k | k in statuses && k !in todo && Inside(k, root) :: statuses[k]
      invariant fresh(tree) && LaysOut(tree.nodes, tree.at, root, done)
      decreases |todo|
    {
      var key :| key in todo;
      todo := todo - {key};
      CoversIsInside(root, key);
      if RangeCovers(root, key) {
        LabelInTree(tree, root, key, statuses[key], done);
        done := done[key := statuses[key]];
      }
    }
    assert done == InRoute(statuses, root);
  }

  /** The body of the loop for a range inside the route (asp_routes.go:1001-1003). */
  method LabelInTree(tree: StatusTree, root: Range, key: Range, status: Status, ghost done: map<Range, Status>)
    requires LaysOut(tree.nodes, tree.at, root, done) && Aligned(key) && Inside(key, root)
    modifies tree
    ensures LaysOut(tree.nodes, tree.at, root, done[key := status])
  {
    var node := tree.NodeForRange(root.mask, key, root, done);
    LabelOne(tree.nodes, tree.at, old(tree.at).Keys, root, done, key, status);
    tree.nodes := tree.nodes[node - 1 := tree.nodes[node - 1].(status := Some(status))];
  }

  // ---- The diff (asp_routes.go:960-982, 1027-1098) ----

  ghost function Before(statuses: map<Range, Status>, r: Range, inherited: Option<Status>, q: nat): Status {
    Known(ViewFrom(statuses, r, q, inherited))
  }

  /** The i-th indication speaks of q. */
  predicate Speaks(delta: seq<Indication>, i: nat, q: nat) {
    i < |delta| && Contains(delta[i].range, q)
  }

  ghost predicate Mentioned(delta: seq<Indication>, q: nat) {
    exists i: nat :: Speaks(delta, i, q)
  }

  ghost predicate Reports(indication: Indication, previous: Status, current: Status) {
    previous != current && indication.status == current && indication.kind == KindOf(previous, current)
  }

  /** The indications name disjoint ranges inside r, cover exactly its point codes whose view
      changed, and carry the new view and the kind of the change. */
  ghost predicate ExactDelta(old_: map<Range, Status>, previous: Option<Status>,
                             new_: map<Range, Status>, current: Option<Status>, r: Range, delta: seq<Indication>)
  {
    && (forall i :: 0 <= i < |delta| ==> Aligned(delta[i].range) && Inside(delta[i].range, r))
    && (forall i: nat, j: nat, q {:trigger Speaks(delta, i, q), Speaks(delta, j, q)} ::
          Speaks(delta, i, q) && Speaks(delta, j, q) ==> i == j)
    && (forall i: nat, q {:trigger Speaks(delta, i, q)} ::
          Speaks(delta, i, q) ==> Reports(delta[i], Before(old_, r, previous, q), Before(new_, r, current, q)))
    && (forall q {:trigger Mentioned(delta, q)} ::
          Contains(r, q) && Before(old_, r, previous, q) != Before(new_, r, current, q) ==> Mentioned(delta, q))
  }

  /** What r itself says, over what it inherits. */
  ghost function Own(statuses: map<Range, Status>, r: Range, inherited: Option<Status>): Option<Status> {
    if r in statuses then Some(statuses[r]) else inherited
  }

  lemma ViewStep(statuses: map<Range, Status>, r: Range, inherited: Option<Status>, q: nat)
    requires r.mask > 0
    ensures Before(statuses, r, inherited, q)
         == Before(statuses, Child(r, Branch(q, r.mask)), Own(statuses, r, inherited), q)
  {}

  /** Exact deltas of the two halves make an exact delta of the whole. */
  lemma JoinDeltas(old_: map<Range, Status>, previous: Option<Status>, new_: map<Range, Status>, current: Option<Status>,
                   r: Range, low: seq<Indication>, high: seq<Indication>)
    requires Aligned(r) && r.mask > 0
    requires ExactDelta(old_, Own(old_, r, previous), new_, Own(new_, r, current), Child(r, 0), low)
    requires ExactDelta(old_, Own(old_, r, previous), new_, Own(new_, r, current), Child(r, 1), high)
    ensures ExactDelta(old_, previous, new_, current, r, low + high)
  {
    var delta := low + high;
    ChildBits(r, 0);
    ChildBits(r, 1);
    forall i | 0 <= i < |delta|
      ensures Aligned(delta[i].range) && Inside(delta[i].range, r)
      ensures InHalf(r, if i < |low| then 0 else 1, delta[i].range)
    {
      RangeInHalf(r, if i < |low| then 0 else 1, delta[i].range);
    }
    forall i: nat, q | Speaks(delta, i, q)
      ensures Reports(delta[i], Before(old_, r, previous, q), Before(new_, r, current, q))
    {
      assert InHalf(r, if i < |low| then 0 else 1, delta[i].range);
      ViewStep(old_, r, previous, q);
      ViewStep(new_, r, current, q);
      if i < |low| { assert Speaks(low, i, q); } else { assert Speaks(high, i - |low|, q); }
    }
    forall i: nat, j: nat, q | Speaks(delta, i, q) && Speaks(delta, j, q)
      ensures i == j
    {
      assert InHalf(r, if i < |low| then 0 else 1, delta[i].range);
      assert InHalf(r, if j < |low| then 0 else 1, delta[j].range);
      if i < |low| { assert Speaks(low, i, q) && Speaks(low, j, q); }
      else { assert Speaks(high, i - |low|, q) && Speaks(high, j - |low|, q); }
    }
    forall q | Contains(r, q) && Before(old_, r, previous, q) != Before(new_, r, current, q)
      ensures Mentioned(delta, q)
    {
      var b := Branch(q, r.mask);
      BranchSelects(r, q, b);
      ViewStep(old_, r, previous, q);
      ViewStep(new_, r, current, q);
      if b == 0 {
        assert Mentioned(low, q);
        var i: nat :| Speaks(low, i, q);
        assert Speaks(delta, i, q);
      } else {
        assert Mentioned(high, q);
        var i: nat :| Speaks(high, i, q);
        assert Speaks(delta, |low| + i, q);
      }
    }
  }

  /** Every point code of the range is in r and takes this branch. */
  ghost predicate InHalf(r: Range, branch: nat, range: Range)
    requires r.mask > 0
  {
    forall q :: Contains(range, q) ==> Contains(r, q) && Branch(q, r.mask) == branch
  }

  lemma RangeInHalf(r: Range, branch: nat, range: Range)
    requires Aligned(r) && r.mask > 0 && branch <= 1 && Inside(range, Child(r, branch))
    ensures Inside(range, r) && InHalf(r, branch, range)
  {
    ChildBits(r, branch);
    InsideTransitive(range, Child(r, branch), r);
    forall q | Contains(range, q) ensures Contains(r, q) && Branch(q, r.mask) == branch {
      InsideContains(range, Child(r, branch), q);
      BranchSelects(r, q, branch);
    }
  }

  /** No node below r in either tree: r changes as a whole or not at all. */
  lemma FlatDelta(old_: map<Range, Status>, previous: Option<Status>, new_: map<Range, Status>, current: Option<Status>, r: Range)
    requires AlignedRanges(old_) && AlignedRanges(new_) && Aligned(r)
    requires r.mask == 0 || (!Below(old_.Keys, r) && !Below(new_.Keys, r))
    ensures var change := NewIndication(r, Known(Own(old_, r, previous)), Known(Own(new_, r, current)));
            ExactDelta(old_, previous, new_, current, r, if change.Some? then [change.value] else [])
  {
    forall q | Contains(r, q)
      ensures Before(old_, r, previous, q) == Known(Own(old_, r, previous))
      ensures Before(new_, r, current, q) == Known(Own(new_, r, current))
    {
      ViewFlat(old_, r, q, previous);
      ViewFlat(new_, r, q, current);
    }
    InsideSelf(r);
    var change := NewIndication(r, Known(Own(old_, r, previous)), Known(Own(new_, r, current)));
    if change.Some? {
      forall q | Contains(r, q) ensures Mentioned([change.value], q) {
        assert Speaks([change.value], 0, q);
      }
    }
  }

  /** What a node index tells about its range; zero stands for a range without a node. */
  lemma ReadNode(nodes: seq<TreeNode>, at: map<Range, nat>, root: Range, statuses: map<Range, Status>, r: Range)
    requires LaysOut(nodes, at, root, statuses) && Aligned(r) && Inside(r, root)
    ensures NodeAt(at, r) <= |nodes|
    ensures NodeAt(at, r) == 0 ==> r !in statuses
    ensures NodeAt(at, r) != 0 ==> nodes[NodeAt(at, r) - 1].status == if r in statuses then Some(statuses[r]) else None
    ensures r.mask == 0 || !Below(statuses.Keys, r) <==> r.mask == 0 || !HasChildren(nodes, NodeAt(at, r))
  {
    if r in at { assert Placed(nodes, at, root, r) && Labelled(nodes, at, statuses, r); }
    if r.mask > 0 {
      SplitIsBelow(at.Keys, root, statuses.Keys, r);
      ReadChild(nodes, at, root, r, 0);
      ReadChild(nodes, at, root, r, 1);
    }
  }

  lemma ReadChild(nodes: seq<TreeNode>, at: map<Range, nat>, root: Range, r: Range, branch: nat)
    requires Arena(nodes, at, root) && Aligned(r) && Inside(r, root) && r.mask > 0 && branch <= 1
    ensures NodeAt(at, r) <= |nodes|
    ensures NodeAt(at, Child(r, branch)) == if NodeAt(at, r) == 0 then 0 else nodes[NodeAt(at, r) - 1].ChildOf(branch)
    ensures Child(r, branch) in at <==> NodeAt(at, Child(r, branch)) != 0
  {
    ChildBits(r, branch);
    if Child(r, branch) in at { assert Placed(nodes, at, root, Child(r, branch)); }
    if r in at {
      assert Placed(nodes, at, root, r) && NodeLink(nodes, at, r, branch);
    } else {
      assert Between(Child(r, branch), r, root);
    }
  }

  /** The node's own status over the inherited one (asp_routes.go:1041-1048). */
  method StatusAt(tree: StatusTree, node: nat, inherited: Option<Status>,
                  ghost r: Range, ghost root: Range, ghost statuses: map<Range, Status>)
    returns (status: Option<Status>)
    requires LaysOut(tree.nodes, tree.at, root, statuses) && Aligned(r) && Inside(r, root) && node == NodeAt(tree.at, r)
    ensures status == Own(statuses, r, inherited)
  {
    hide LaysOut, Inside, Below, Aligned, HasChildren;
    ReadNode(tree.nodes, tree.at, root, statuses, r);
    status := inherited;
    if node != 0 && tree.nodes[node - 1].status.Some? { status := tree.nodes[node - 1].status; }
  }

  /** asp_routes.go:1027-1098. */
  method AppendIndications(r: Range, previousTree: StatusTree, previousNode: nat, currentTree: StatusTree, currentNode: nat,
                           previous: Option<Status>, current: Option<Status>, indications: seq<Indication>,
                           ghost root: Range, ghost old_: map<Range, Status>, ghost new_: map<Range, Status>)
    returns (result: seq<Indication>, ghost delta: seq<Indication>)
    requires LaysOut(previousTree.nodes, previousTree.at, root, old_) && AlignedRanges(old_)
    requires LaysOut(currentTree.nodes, currentTree.at, root, new_) && AlignedRanges(new_)
    requires Aligned(r) && Inside(r, root)
    requires previousNode == NodeAt(previousTree.at, r) && currentNode == NodeAt(currentTree.at, r)
    ensures result == indications + delta && ExactDelta(old_, previous, new_, current, r, delta)
    decreases r.mask, 1
  {
    hide ExactDelta, LaysOut, AlignedRanges, Inside, Below, Own, NodeAt, HasChildren, NewIndication, Known, Aligned;
    ReadNode(previousTree.nodes, previousTree.at, root, old_, r);
    ReadNode(currentTree.nodes, currentTree.at, root, new_, r);
    var was := StatusAt(previousTree, previousNode, previous, r, root, old_);
    var is_ := StatusAt(currentTree, currentNode, current, r, root, new_);
    if r.mask == 0 || (!HasChildren(previousTree.nodes, previousNode) && !HasChildren(currentTree.nodes, currentNode)) {
      FlatDelta(old_, previous, new_, current, r);
      var change := NewIndication(r, Known(was), Known(is_));
      delta := if change.Some? then [change.value] else [];
      result := if change.Some? then indications + [change.value] else indications;
      return;
    }
    ghost var low: seq<Indication>, high: seq<Indication> := [], [];
    result := indications;
    for branch := 0 to 2
      invariant result == indications + low + high
      invariant branch <= 1 ==> high == []
      invariant branch == 0 ==> low == []
      invariant branch >= 1 ==> ExactDelta(old_, was, new_, is_, Child(r, 0), low)
      invariant branch == 2 ==> ExactDelta(old_, was, new_, is_, Child(r, 1), high)
    {
      ghost var half;
      result, half := AppendHalfIndications(r, branch, previousTree, previousNode, currentTree, currentNode,
                                            was, is_, result, root, old_, new_);
      if branch == 0 { low := half; } else { high := half; }
    }
    JoinDeltas(old_, previous, new_, current, r, low, high);
    delta := low + high;
  }

  method AppendHalfIndications(r: Range, branch: nat, previousTree: StatusTree, previousNode: nat,
                               currentTree: StatusTree, currentNode: nat,
                               previous: Option<Status>, current: Option<Status>, indications: seq<Indication>,
                               ghost root: Range, ghost old_: map<Range, Status>, ghost new_: map<Range, Status>)
    returns (result: seq<Indication>, ghost delta: seq<Indication>)
    requires LaysOut(previousTree.nodes, previousTree.at, root, old_) && AlignedRanges(old_)
    requires LaysOut(currentTree.nodes, currentTree.at, root, new_) && AlignedRanges(new_)
    requires Aligned(r) && Inside(r, root) && r.mask > 0 && branch <= 1
    requires previousNode == NodeAt(previousTree.at, r) && currentNode == NodeAt(currentTree.at, r)
    ensures result == indications + delta && ExactDelta(old_, previous, new_, current, Child(r, branch), delta)
    decreases r.mask, 0
  {
    ChildBits(r, branch);
    InsideTransitive(Child(r, branch), r, root);
    ReadChild(previousTree.nodes, previousTree.at, root, r, branch);
    ReadChild(currentTree.nodes, currentTree.at, root, r, branch);
    var previousChild := if previousNode != 0 then previousTree.nodes[previousNode - 1].ChildOf(branch) else 0;
    var currentChild := if currentNode != 0 then currentTree.nodes[currentNode - 1].ChildOf(branch) else 0;
    result, delta := AppendIndications(Child(r, branch), previousTree, previousChild, currentTree, currentChild,
                                       previous, current, indications, root, old_, new_);
  }

  /** asp_routes.go:1092-1098. */
  predicate HasChildren(nodes: seq<TreeNode>, node: nat)
    requires node <= |nodes|
  {
    node != 0 && (nodes[node - 1].low != 0 || nodes[node - 1].high != 0)
  }

  lemma DeltaIgnoresOutside(old_: map<Range, Status>, new_: map<Range, Status>, root: Range, delta: seq<Indication>)
    requires Aligned(root)
    requires ExactDelta(InRoute(old_, root), None, InRoute(new_, root), None, root, delta)
    ensures ExactDelta(old_, None, new_, None, root, delta)
  {
    forall q | Contains(root, q)
      ensures Before(old_, root, None, q) == Before(InRoute(old_, root), root, None, q)
      ensures Before(new_, root, None, q) == Before(InRoute(new_, root), root, None, q)
    {
      ViewIgnoresOutside(old_, root, root, q, None);
      ViewIgnoresOutside(new_, root, root, q, None);
    }
    forall i: nat, q | Speaks(delta, i, q) ensures Contains(root, q) {
      InsideContains(delta[i].range, root, q);
    }
  }

  /** asp_routes.go:960-982. For any two maps of aligned ranges the emitted indications are
      disjoint, cover exactly the point codes of the route whose status changed, and carry
      the new status. */
  method DerivedStatusIndications(root: Range, previous: map<Range, Status>, updated: map<Range, Status>)
    returns (indications: seq<Indication>)
    requires Aligned(root) && AlignedRanges(previous) && AlignedRanges(updated)
    ensures ExactDelta(previous, None, updated, None, root, indications)
  {
    var previousTree := DerivedStatusTree(root, previous);
    var currentTree := DerivedStatusTree(root, updated);
    InsideSelf(root);
    ghost var delta;
    indications, delta := AppendIndications(root, previousTree, 1, currentTree, 1, None, None, [], root,
                                            InRoute(previous, root), InRoute(updated, root));
    assert indications == delta;
    DeltaIgnoresOutside(previous, updated, root, indications);
  }

  /** What a consumer of the indications holds for one point code afterwards. */
  function Applied(status: Status, delta: seq<Indication>, q: nat): Status {
    if delta == [] then status
    else
      var last := |delta| - 1;
      if Contains(delta[last].range, q) then delta[last].status else Applied(status, delta[..last], q)
  }

  /** Any two maps of aligned ranges have an exact delta. */
  lemma {:induction false} DeltaExists(old_: map<Range, Status>, previous: Option<Status>,
                                       new_: map<Range, Status>, current: Option<Status>, r: Range)
    returns (delta: seq<Indication>)
    requires AlignedRanges(old_) && AlignedRanges(new_) && Aligned(r)
    ensures ExactDelta(old_, previous, new_, current, r, delta)
    decreases r.mask
  {
    hide ExactDelta, AlignedRanges;
    if r.mask == 0 {
      FlatDelta(old_, previous, new_, current, r);
      var change := NewIndication(r, Known(Own(old_, r, previous)), Known(Own(new_, r, current)));
      delta := if change.Some? then [change.value] else [];
    } else {
      ChildBits(r, 0);
      ChildBits(r, 1);
      var low := DeltaExists(old_, Own(old_, r, previous), new_, Own(new_, r, current), Child(r, 0));
      var high := DeltaExists(old_, Own(old_, r, previous), new_, Own(new_, r, current), Child(r, 1));
      JoinDeltas(old_, previous, new_, current, r, low, high);
      delta := low + high;
    }
  }

  /** Applying an exact delta to the old view gives the new one. */
  lemma AppliedDelta(old_: map<Range, Status>, new_: map<Range, Status>, root: Range, delta: seq<Indication>, q: nat)
    requires ExactDelta(old_, None, new_, None, root, delta) && Contains(root, q)
    ensures Applied(View(old_, root, q), delta, q) == View(new_, root, q)
  {
    assert View(old_, root, q) != View(new_, root, q) ==> Mentioned(delta, q);
    if i: nat :| Speaks(delta, i, q) {
      AppliedOnce(View(old_, root, q), delta, q, i);
    } else {
      AppliedNever(View(old_, root, q), delta, q);
    }
  }

  lemma {:induction false} AppliedNever(status: Status, delta: seq<Indication>, q: nat)
    requires forall i: nat :: !Speaks(delta, i, q)
    ensures Applied(status, delta, q) == status
  {
    if delta != [] {
      var last := |delta| - 1;
      assert !Speaks(delta, last, q);
      forall i: nat ensures !Speaks(delta[..last], i, q) {
        assert !Speaks(delta, i, q);
      }
      AppliedNever(status, delta[..last], q);
    }
  }

  lemma {:induction false} AppliedOnce(status: Status, delta: seq<Indication>, q: nat, i: nat)
    requires Speaks(delta, i, q) && forall j: nat :: Speaks(delta, j, q) ==> j == i
    ensures Applied(status, delta, q) == delta[i].status
  {
    var last := |delta| - 1;
    if i < last {
      assert !Speaks(delta, last, q);
      assert Speaks(delta[..last], i, q);
      forall j: nat | Speaks(delta[..last], j, q) ensures j == i {
        assert Speaks(delta, j, q);
      }
      AppliedOnce(status, delta[..last], q, i);
    }
  }
}
