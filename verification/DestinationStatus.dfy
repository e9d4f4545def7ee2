/** Answering for a range of point codes at once (asp_routes.go:705-729). */
module DestinationStatus {
  import opened Common
  import opened PointCodes
  import opened RouteRecords
  import opened RouteState
  import opened RouteInvariants
  import opened RouteRuns
  import opened AspRoutes
  import opened StatusDiff

  /** Two aligned ranges overlap exactly when they share a point code. */
  lemma OverlapShares(first: Range, second: Range)
    requires Aligned(first) && Aligned(second)
    ensures RangesOverlap(first, second) <==> exists q :: Contains(first, q) && Contains(second, q)
  {
    CoversIsInside(first, second);
    CoversIsInside(second, first);
    if RangesOverlap(first, second) {
      if RangeCovers(first, second) {
        assert Contains(first, second.pc) && Contains(second, second.pc);
      } else {
        assert Contains(first, first.pc) && Contains(second, first.pc);
      }
    }
    if q :| Contains(first, q) && Contains(second, q) {
      if first.mask <= second.mask { SharedPointNests(first, second, q); } else { SharedPointNests(second, first, q); }
    }
  }

  /** Every leaf meeting the query, of those visited, carries this status. */
  ghost predicate OverlappingAre(leaves: map<Range, Status>, query: Range, status: Status) {
    forall k :: k in leaves && RangesOverlap(k, query) ==> leaves[k] == status
  }

  ghost predicate SomeOverlaps(leaves: map<Range, Status>, query: Range) {
    exists k :: k in leaves && RangesOverlap(k, query)
  }

  ghost function Seen(leaves: map<Range, Status>, todo: set<Range>): map<Range, Status> {
    map k | k in leaves && k !in todo :: leaves[k]
  }

  /** The loop over one route's leaves: the status all leaves meeting the query share. */
  method SharedStatus(leaves: map<Range, Status>, query: Range) returns (result: Option<Status>)
    ensures forall s :: result == Some(s) <==> SomeOverlaps(leaves, query) && OverlappingAre(leaves, query, s)
  {
    var status, found := UNAVAILABLE, false;
    var todo := leaves.Keys;
    while todo != {}
      invariant todo <= leaves.Keys
      invariant found == SomeOverlaps(Seen(leaves, todo), query)
      invariant found ==> OverlappingAre(Seen(leaves, todo), query, status)
      decreases |todo|
    {
      var k :| k in todo;
      SeenNext(leaves, todo, k, query);
      todo := todo - {k};
      if RangesOverlap(k, query) {
        if found && leaves[k] != status {
          ghost var other :| other in Seen(leaves, todo + {k}) && RangesOverlap(other, query);
          TwoDisagree(leaves, query, k, other);
          return None;
        }
        status, found := leaves[k], true;
      }
    }
    assert Seen(leaves, {}) == leaves;
    result := if found then Some(status) else None;
    if k :| k in leaves && RangesOverlap(k, query) {
      assert leaves[k] == status;
    }
  }

  lemma TwoDisagree(leaves: map<Range, Status>, query: Range, k: Range, other: Range)
    requires k in leaves && other in leaves && leaves[k] != leaves[other]
    requires RangesOverlap(k, query) && RangesOverlap(other, query)
    ensures forall s :: !OverlappingAre(leaves, query, s)
  {
    forall s ensures !OverlappingAre(leaves, query, s) {
      if leaves[k] == s { assert leaves[other] != s; }
    }
  }

  lemma SeenNext(leaves: map<Range, Status>, todo: set<Range>, k: Range, query: Range)
    requires k in todo && todo <= leaves.Keys
    ensures Seen(leaves, todo - {k}) == Seen(leaves, todo)[k := leaves[k]]
    ensures SomeOverlaps(Seen(leaves, todo - {k}), query) <==> SomeOverlaps(Seen(leaves, todo), query) || RangesOverlap(k, query)
    ensures forall s :: OverlappingAre(Seen(leaves, todo - {k}), query, s)
                   <==> OverlappingAre(Seen(leaves, todo), query, s) && (RangesOverlap(k, query) ==> leaves[k] == s)
    ensures todo - {k} + {k} == todo
  {
    var before, after := Seen(leaves, todo), Seen(leaves, todo - {k});
    assert after == before[k := leaves[k]];
    if o :| o in before && RangesOverlap(o, query) { assert o in after; }
    if RangesOverlap(k, query) { assert k in after; }
    forall s ensures OverlappingAre(after, query, s)
                <==> OverlappingAre(before, query, s) && (RangesOverlap(k, query) ==> leaves[k] == s)
    {
      if OverlappingAre(after, query, s) {
        forall o | o in before && RangesOverlap(o, query) ensures before[o] == s { assert o in after; }
        assert k in after;
      }
    }
  }

  /** The point codes of the query all read this status. */
  ghost predicate AllRead(leaves: map<Range, Status>, root: Range, query: Range, status: Status) {
    forall q {:trigger Contains(query, q)} :: Contains(query, q) ==> Reads(leaves, root, q, status)
  }

  /** The leaves settle what q reads. */
  ghost predicate Settled(leaves: map<Range, Status>, root: Range, q: nat) {
    exists s :: Reads(leaves, root, q, s)
  }

  /** In a partition, agreement of the leaves that meet an aligned range inside the route is
      agreement of its point codes. */
  lemma AgreementIsPointwise(leaves: map<Range, Status>, root: Range, query: Range, status: Status)
    requires Aligned(query) && Inside(query, root) && AlignedRanges(leaves)
    requires forall q :: Settled(leaves, root, q)
    ensures SomeOverlaps(leaves, query) && OverlappingAre(leaves, query, status) <==> AllRead(leaves, root, query, status)
  {
    forall q | Contains(query, q)
      ensures exists leaf :: leaf in leaves && Contains(leaf, q) && RangesOverlap(leaf, query)
    {
      InsideContains(query, root, q);
      assert Settled(leaves, root, q);
      var s :| Reads(leaves, root, q, s);
      var leaf :| leaf in leaves && Contains(leaf, q);
      OverlapShares(leaf, query);
    }
    if SomeOverlaps(leaves, query) && OverlappingAre(leaves, query, status) {
      forall q | Contains(query, q) ensures Reads(leaves, root, q, status) {
        assert Settled(leaves, root, q);
        var s :| Reads(leaves, root, q, s);
        forall leaf | leaf in leaves && Contains(leaf, q) ensures leaves[leaf] == status {
          OverlapShares(leaf, query);
        }
      }
    }
    if AllRead(leaves, root, query, status) {
      assert Contains(query, query.pc);
      forall k | k in leaves && RangesOverlap(k, query) ensures leaves[k] == status {
        OverlapShares(k, query);
        var q :| Contains(k, q) && Contains(query, q);
        assert Reads(leaves, root, q, status);
      }
    }
  }

  /** asp_routes.go:705-729: the status of an aligned range is known exactly when it lies in
      the route and all of its point codes read the same, and then it is theirs. */
  method StatusOfRange(r: AspRoutes, route: Id, query: Range) returns (result: Option<Status>)
    requires r.Valid() && Aligned(query)
    ensures forall s :: result == Some(s) <==>
              route in r.ranges && route in r.derived && Inside(query, r.ranges[route])
              && AllRead(r.derived[route], r.ranges[route], query, s)
  {
    RoutePartition(r, route, query);
    if route !in r.ranges || !RangeCovers(r.ranges[route], query) {
      return None;
    }
    result := SharedStatus(r.derived[route], query);
  }

  lemma RoutePartition(r: AspRoutes, route: Id, query: Range)
    requires r.Valid() && Aligned(query)
    ensures route in r.ranges ==> route in r.derived
    ensures route in r.ranges ==> (RangeCovers(r.ranges[route], query) <==> Inside(query, r.ranges[route]))
    ensures route in r.ranges && Inside(query, r.ranges[route]) ==> forall s ::
              SomeOverlaps(r.derived[route], query) && OverlappingAre(r.derived[route], query, s)
              <==> AllRead(r.derived[route], r.ranges[route], query, s)
  {
    hide AspRoutes.Valid, SomeOverlaps, OverlappingAre, AllRead, Reads, Settled;
    if route in r.ranges {
      RangeAligned(r, route);
      CoversIsInside(r.ranges[route], query);
      forall q ensures Settled(r.derived[route], r.ranges[route], q) {
        PointSettled(r, route, q);
      }
      if Inside(query, r.ranges[route]) {
        forall s ensures SomeOverlaps(r.derived[route], query) && OverlappingAre(r.derived[route], query, s)
                    <==> AllRead(r.derived[route], r.ranges[route], query, s)
        {
          AgreementIsPointwise(r.derived[route], r.ranges[route], query, s);
        }
      }
    }
  }

  lemma PointSettled(r: AspRoutes, route: Id, q: nat)
    requires r.Valid() && route in r.ranges
    ensures route in r.derived && Settled(r.derived[route], r.ranges[route], q)
  {
    hide Inv, Reads;
    InvReads(r.config, r.Now(), route, q);
  }

  lemma RangeAligned(r: AspRoutes, route: Id)
    requires r.Valid() && route in r.ranges
    ensures Aligned(r.ranges[route]) && route in r.derived && AlignedRanges(r.derived[route])
  {
    hide Inv;
    ConfiguredRoute(r.config, route, {});
  }
}
