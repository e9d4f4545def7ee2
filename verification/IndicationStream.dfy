/** The stream of MTP indications over a run of recomputations: what one point code is told. */
module IndicationStream {
  import opened Common
  import opened PointCodes
  import opened RouteRecords
  import opened StatusDiff

  /** The MTP-PAUSE and MTP-RESUME indications a delta holds for q, in order. */
  function EdgesOf(delta: seq<Indication>, q: nat): seq<Kind> {
    if delta == [] then []
    else
      var last := delta[|delta| - 1];
      EdgesOf(delta[..|delta| - 1], q) + if Contains(last.range, q) && last.kind != StatusChange then [last.kind] else []
  }

  lemma {:induction false} NoEdges(delta: seq<Indication>, q: nat)
    requires forall i: nat :: Speaks(delta, i, q) ==> delta[i].kind == StatusChange
    ensures EdgesOf(delta, q) == []
  {
    if delta != [] {
      var before := delta[..|delta| - 1];
      forall i: nat | Speaks(before, i, q) ensures before[i].kind == StatusChange {
        assert Speaks(delta, i, q);
      }
      NoEdges(before, q);
      if Contains(delta[|delta| - 1].range, q) { assert Speaks(delta, |delta| - 1, q); }
    }
  }

  lemma {:induction false} OneEdge(delta: seq<Indication>, q: nat, i: nat)
    requires Speaks(delta, i, q) && (forall j: nat :: Speaks(delta, j, q) ==> j == i) && delta[i].kind != StatusChange
    ensures EdgesOf(delta, q) == [delta[i].kind]
  {
    var last := |delta| - 1;
    var before := delta[..last];
    if i == last {
      forall j: nat ensures !Speaks(before, j, q) {
        if Speaks(before, j, q) { assert Speaks(delta, j, q); }
      }
      NoEdges(before, q);
    } else {
      assert Speaks(before, i, q);
      forall j: nat | Speaks(before, j, q) ensures j == i {
        assert Speaks(delta, j, q);
      }
      assert !Speaks(delta, last, q);
      OneEdge(before, q, i);
    }
  }

  /** An exact delta pauses a point code that became unavailable, resumes one that ceased to
      be, and does neither otherwise. */
  lemma DeltaEdges(old_: map<Range, Status>, new_: map<Range, Status>, root: Range, delta: seq<Indication>, q: nat)
    requires ExactDelta(old_, None, new_, None, root, delta) && Contains(root, q)
    ensures var was, now := View(old_, root, q).availability == Unavailable, View(new_, root, q).availability == Unavailable;
            EdgesOf(delta, q) == if was == now then [] else if now then [Pause] else [Resume]
  {
    assert View(old_, root, q) != View(new_, root, q) ==> Mentioned(delta, q);
    if i: nat :| Speaks(delta, i, q) {
      assert Reports(delta[i], View(old_, root, q), View(new_, root, q));
      if delta[i].kind == StatusChange {
        forall j: nat | Speaks(delta, j, q) ensures delta[j].kind == StatusChange {
          assert j == i;
        }
        NoEdges(delta, q);
      } else {
        OneEdge(delta, q, i);
      }
    } else {
      NoEdges(delta, q);
    }
  }

  /** The deltas turn each map of leaves into the next. */
  ghost predicate Emits(maps: seq<map<Range, Status>>, deltas: seq<seq<Indication>>, root: Range) {
    && |maps| == |deltas| + 1
    && (forall i :: 0 <= i < |deltas| ==> ExactDelta(maps[i], None, maps[i + 1], None, root, deltas[i]))
  }

  function AllEdges(deltas: seq<seq<Indication>>, q: nat): seq<Kind> {
    if deltas == [] then []
    else AllEdges(deltas[..|deltas| - 1], q) + EdgesOf(deltas[|deltas| - 1], q)
  }

  ghost predicate Alternates(edges: seq<Kind>) {
    forall i :: 0 <= i < |edges| ==> edges[i] == if i % 2 == 0 then Resume else Pause
  }

  /** asp_routes.go:170-177, 960-1123. Over any run of recomputations every point code that
      starts unavailable is told MTP-RESUME and MTP-PAUSE in turn, starting with MTP-RESUME. */
  lemma {:induction false} PauseResumeAlternate(maps: seq<map<Range, Status>>, deltas: seq<seq<Indication>>, root: Range, q: nat)
    requires Emits(maps, deltas, root) && Contains(root, q)
    requires View(maps[0], root, q).availability == Unavailable
    ensures Alternates(AllEdges(deltas, q))
    ensures |AllEdges(deltas, q)| % 2 == if View(maps[|deltas|], root, q).availability == Unavailable then 0 else 1
  {
    if deltas != [] {
      var n := |deltas| - 1;
      PauseResumeAlternate(maps[..n + 1], deltas[..n], root, q);
      DeltaEdges(maps[n], maps[n + 1], root, deltas[n], q);
    }
  }

  /** Replaying the deltas in order from the first view yields the last one. */
  lemma {:induction false} ReplayYieldsLast(maps: seq<map<Range, Status>>, deltas: seq<seq<Indication>>, root: Range, q: nat)
    requires Emits(maps, deltas, root) && Contains(root, q)
    ensures Replayed(View(maps[0], root, q), deltas, q) == View(maps[|deltas|], root, q)
  {
    if deltas != [] {
      var n := |deltas| - 1;
      ReplayYieldsLast(maps[..n + 1], deltas[..n], root, q);
      AppliedDelta(maps[n], maps[n + 1], root, deltas[n], q);
    }
  }

  function Replayed(status: Status, deltas: seq<seq<Indication>>, q: nat): Status {
    if deltas == [] then status
    else Applied(Replayed(status, deltas[..|deltas| - 1], q), deltas[|deltas| - 1], q)
  }
}
