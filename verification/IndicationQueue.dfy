/** The bounded queue of MTP indications (asp_routes.go:1135-1182): publishers under one lock,
    one reader that takes messages at any moment, and a marker that replaces what was lost.
    The reader replays the deltas and takes a snapshot when it meets the marker. */
module IndicationQueue {
  import opened Common
  import opened PointCodes
  import opened RouteRecords
  import opened StatusDiff

  datatype Told = Told(route: Id, indication: Indication)

  datatype Message = Delta(told: Told) | ResyncRequired

  type Leaves = map<Id, map<Range, Status>>

  // ---- What a list of deltas tells a point code ----

  predicate Names(told: Told, route: Id, q: nat) {
    told.route == route && Contains(told.indication.range, q)
  }

  /** The status the last delta naming the point carries. */
  function ToldAt(list: seq<Told>, route: Id, q: nat): Option<Status> {
    if list == [] then None
    else
      var last := list[|list| - 1];
      if Names(last, route, q) then Some(last.indication.status) else ToldAt(list[..|list| - 1], route, q)
  }

  lemma {:induction false} ToldAppend(first: seq<Told>, second: seq<Told>, route: Id, q: nat)
    ensures ToldAt(first + second, route, q)
         == if ToldAt(second, route, q).Some? then ToldAt(second, route, q) else ToldAt(first, route, q)
  {
    if second == [] {
      assert first + second == first;
    } else {
      var last := |second| - 1;
      assert (first + second)[..|first + second| - 1] == first + second[..last];
      ToldAppend(first, second[..last], route, q);
    }
  }

  lemma ToldOne(told: Told, route: Id, q: nat)
    ensures ToldAt([told], route, q) == if Names(told, route, q) then Some(told.indication.status) else None
  {
    assert [told][..0] == [];
    assert ToldAt([told][..0], route, q) == None;
  }

  /** The status of one point code of one route. */
  ghost function StatusAt(leaves: Leaves, roots: map<Id, Range>, route: Id, q: nat): Status {
    if route in leaves && route in roots then View(leaves[route], roots[route], q) else UNAVAILABLE
  }

  ghost predicate InScope(roots: map<Id, Range>, route: Id, q: nat) {
    route in roots && Contains(roots[route], q)
  }

  /** The list tells exactly the points whose status differs, and tells them the new one. */
  ghost predicate BatchDelta(roots: map<Id, Range>, before: Leaves, after: Leaves, list: seq<Told>) {
    forall route, q {:trigger InScope(roots, route, q)} :: InScope(roots, route, q) ==>
      ToldAt(list, route, q) == if StatusAt(before, roots, route, q) == StatusAt(after, roots, route, q) then None
                                else Some(StatusAt(after, roots, route, q))
  }

  // ---- One route's exact delta, tagged ----

  function Tagged(route: Id, delta: seq<Indication>): seq<Told> {
    if delta == [] then []
    else Tagged(route, delta[..|delta| - 1]) + [Told(route, delta[|delta| - 1])]
  }

  lemma {:induction false} TaggedElsewhere(route: Id, delta: seq<Indication>, other: Id, q: nat)
    requires other != route
    ensures ToldAt(Tagged(route, delta), other, q) == None
  {
    if delta != [] {
      TaggedElsewhere(route, delta[..|delta| - 1], other, q);
      ToldAppend(Tagged(route, delta[..|delta| - 1]), [Told(route, delta[|delta| - 1])], other, q);
      ToldOne(Told(route, delta[|delta| - 1]), other, q);
    }
  }

  lemma {:induction false} TaggedNone(route: Id, delta: seq<Indication>, q: nat)
    requires forall i: nat :: !Speaks(delta, i, q)
    ensures ToldAt(Tagged(route, delta), route, q) == None
  {
    if delta != [] {
      var last := |delta| - 1;
      assert !Speaks(delta, last, q);
      forall i: nat ensures !Speaks(delta[..last], i, q) {
        assert !Speaks(delta, i, q);
      }
      TaggedNone(route, delta[..last], q);
      ToldAppend(Tagged(route, delta[..last]), [Told(route, delta[last])], route, q);
      ToldOne(Told(route, delta[last]), route, q);
    }
  }

  lemma {:induction false} TaggedOnce(route: Id, delta: seq<Indication>, q: nat, i: nat)
    requires Speaks(delta, i, q) && forall j: nat :: Speaks(delta, j, q) ==> j == i
    ensures ToldAt(Tagged(route, delta), route, q) == Some(delta[i].status)
  {
    var last := |delta| - 1;
    ToldAppend(Tagged(route, delta[..last]), [Told(route, delta[last])], route, q);
    ToldOne(Told(route, delta[last]), route, q);
    if i < last {
      assert !Speaks(delta, last, q);
      assert Speaks(delta[..last], i, q);
      forall j: nat | Speaks(delta[..last], j, q) ensures j == i {
        assert Speaks(delta, j, q);
      }
      TaggedOnce(route, delta[..last], q, i);
    }
  }

  /** One route's exact delta tells its changed points and no others. */
  lemma ExactIsTold(route: Id, old_: map<Range, Status>, new_: map<Range, Status>, root: Range, delta: seq<Indication>, q: nat)
    requires ExactDelta(old_, None, new_, None, root, delta) && Contains(root, q)
    ensures ToldAt(Tagged(route, delta), route, q)
         == if View(old_, root, q) == View(new_, root, q) then None else Some(View(new_, root, q))
  {
    assert View(old_, root, q) != View(new_, root, q) ==> Mentioned(delta, q);
    if i: nat :| Speaks(delta, i, q) {
      TaggedOnce(route, delta, q, i);
    } else {
      TaggedNone(route, delta, q);
    }
  }

  /** Replacing one route's leaves by way of its exact delta extends a batch. */
  lemma BatchExtends(roots: map<Id, Range>, before: Leaves, middle: Leaves, route: Id, updated: map<Range, Status>,
                     list: seq<Told>, delta: seq<Indication>)
    requires BatchDelta(roots, before, middle, list)
    requires route in roots && route in before && route in middle && middle[route] == before[route]
    requires ExactDelta(before[route], None, updated, None, roots[route], delta)
    ensures BatchDelta(roots, before, middle[route := updated], list + Tagged(route, delta))
  {
    var after := middle[route := updated];
    forall r, q | InScope(roots, r, q)
      ensures ToldAt(list + Tagged(route, delta), r, q)
           == if StatusAt(before, roots, r, q) == StatusAt(after, roots, r, q) then None
              else Some(StatusAt(after, roots, r, q))
    {
      ToldAppend(list, Tagged(route, delta), r, q);
      assert InScope(roots, r, q);
      if r == route {
        ExactIsTold(route, before[route], updated, roots[route], delta, q);
      } else {
        TaggedElsewhere(route, delta, r, q);
      }
    }
  }

  // ---- Publisher and reader ----

  /** Where the publisher holding the lock stands. */
  datatype Phase =
    | Idle
    | Publishing(rest: seq<Told>)
    /** Decided to send; the queue was not full. */
    | Sending(told: Told, rest: seq<Told>)
    /** Emptying the queue to put the marker in it. */
    | Draining(rest: seq<Told>)

  datatype Stream = Stream(
    derived: Leaves,
    queue: seq<Message>,
    resyncPending: bool,
    phase: Phase,
    /** What the reader last took as a whole, and the deltas it replayed on it since. */
    base: Leaves,
    heard: seq<Told>,
    /** The reader has met a marker and not yet taken its snapshot. */
    unresolved: bool)

  datatype Act =
    | Begin(derived: Leaves, list: seq<Told>)
    | Decide
    | Send
    | DrainOne
    | DrainEnd
    | Finish
    | Read
    | Snapshot

  ghost predicate Enabled(roots: map<Id, Range>, s: Stream, act: Act) {
    match act
    case Begin(derived, list) => s.phase.Idle? && BatchDelta(roots, s.derived, derived, list)
    case Decide => s.phase.Publishing? && s.phase.rest != []
    case Send => s.phase.Sending?
    case DrainOne => s.phase.Draining? && s.queue != []
    case DrainEnd => s.phase.Draining? && s.queue == []
    case Finish => s.phase.Publishing? && s.phase.rest == []
    case Read => s.queue != [] && !s.unresolved
    case Snapshot => s.unresolved && s.phase.Idle?
  }

  function Decided(capacity: nat, s: Stream): Stream
    requires s.phase.Publishing? && s.phase.rest != []
  {
    var told, rest := s.phase.rest[0], s.phase.rest[1..];
    if s.resyncPending && s.queue != [] then s.(phase := Publishing(rest))
    else if |s.queue| == capacity then s.(resyncPending := false, phase := Draining(rest))
    else s.(resyncPending := false, phase := Sending(told, rest))
  }

  function ReadOne(s: Stream): Stream
    requires s.queue != []
  {
    match s.queue[0]
    case Delta(told) => s.(queue := s.queue[1..], heard := s.heard + [told])
    case ResyncRequired => s.(queue := s.queue[1..], unresolved := true)
  }

  ghost function Next(capacity: nat, roots: map<Id, Range>, s: Stream, act: Act): Stream
    requires Enabled(roots, s, act)
  {
    match act
    case Begin(derived, list) => s.(derived := derived, phase := Publishing(list))
    case Decide => Decided(capacity, s)
    case Send => if |s.queue| < capacity
                 then s.(queue := s.queue + [Delta(s.phase.told)], phase := Publishing(s.phase.rest))
                 else s.(phase := Publishing(s.phase.rest))
    case DrainOne => s.(queue := s.queue[1..])
    case DrainEnd => s.(queue := [ResyncRequired], resyncPending := true, phase := Publishing(s.phase.rest))
    case Finish => s.(phase := Idle)
    case Read => ReadOne(s)
    case Snapshot => s.(base := s.derived, heard := [], unresolved := false)
  }

  /** What the reader believes of one point code. */
  ghost function Believed(roots: map<Id, Range>, s: Stream, route: Id, q: nat): Status {
    var told := ToldAt(s.heard, route, q);
    if told.Some? then told.value else StatusAt(s.base, roots, route, q)
  }

  function Deltas(queue: seq<Message>): seq<Told> {
    if queue == [] then []
    else Deltas(queue[..|queue| - 1]) + if queue[|queue| - 1].Delta? then [queue[|queue| - 1].told] else []
  }

  /** The deltas still to reach the reader if nothing more is lost. */
  function Pending(s: Stream): seq<Told> {
    match s.phase
    case Idle => Deltas(s.queue)
    case Publishing(rest) => Deltas(s.queue) + rest
    case Sending(told, rest) => Deltas(s.queue) + ([told] + rest)
    case Draining(rest) => rest
  }

  /** Deltas were lost and the reader has not yet made up for them. */
  predicate Lossy(s: Stream) {
    s.phase.Draining? || s.unresolved || ResyncRequired in s.queue
  }

  /** The marker stands in the queue alone. */
  predicate Shape(capacity: nat, s: Stream) {
    && |s.queue| <= capacity
    && (if s.resyncPending then s.queue == [] || s.queue == [ResyncRequired] else ResyncRequired !in s.queue)
    && (s.phase.Draining? ==> !s.resyncPending)
    && (s.phase.Sending? ==> !s.resyncPending && |s.queue| < capacity)
  }

  /** What is still to come tells the present status, and a point nothing more is told about
      is believed to be what it is, unless the reader is about to take a snapshot. */
  ghost predicate PointOk(roots: map<Id, Range>, s: Stream, route: Id, q: nat) {
    var told, now := ToldAt(Pending(s), route, q), StatusAt(s.derived, roots, route, q);
    && (told.Some? ==> told.value == now)
    && (told.None? && !Lossy(s) ==> Believed(roots, s, route, q) == now)
  }

  function Opening(derived: Leaves): Stream {
    Stream(derived, [], false, Idle, derived, [], false)
  }

  lemma ShapeNext(capacity: nat, roots: map<Id, Range>, s: Stream, act: Act)
    requires capacity > 0 && Shape(capacity, s) && Enabled(roots, s, act)
    ensures Shape(capacity, Next(capacity, roots, s, act))
  {}

  lemma {:induction false} DeltasTail(queue: seq<Message>)
    requires queue != []
    ensures Deltas(queue) == (if queue[0].Delta? then [queue[0].told] else []) + Deltas(queue[1..])
  {
    if |queue| == 1 {
      assert queue[..0] == [] && queue[1..] == [];
    } else {
      var last := |queue| - 1;
      DeltasTail(queue[..last]);
      assert queue[1..][..last - 1] == queue[..last][1..];
    }
  }

  lemma DeltasPush(queue: seq<Message>, told: Told)
    ensures Deltas(queue + [Delta(told)]) == Deltas(queue) + [told]
  {
    assert (queue + [Delta(told)])[..|queue|] == queue;
  }

  /** Taking the first delta of a list away leaves what the list tells a point or nothing. */
  lemma ToldTail(list: seq<Told>, route: Id, q: nat)
    requires list != []
    ensures ToldAt(list, route, q) == if ToldAt(list[1..], route, q).Some? then ToldAt(list[1..], route, q)
                                      else if Names(list[0], route, q) then Some(list[0].indication.status) else None
  {
    assert list == [list[0]] + list[1..];
    ToldAppend([list[0]], list[1..], route, q);
    ToldOne(list[0], route, q);
  }

  lemma BeginKeeps(capacity: nat, roots: map<Id, Range>, s: Stream, act: Act, route: Id, q: nat)
    requires act.Begin? && Shape(capacity, s) && Enabled(roots, s, act) && InScope(roots, route, q) && PointOk(roots, s, route, q)
    ensures PointOk(roots, Next(capacity, roots, s, act), route, q)
  {
    ToldAppend(Deltas(s.queue), act.list, route, q);
    assert InScope(roots, route, q);
  }

  lemma DecideKeeps(capacity: nat, roots: map<Id, Range>, s: Stream, route: Id, q: nat)
    requires Shape(capacity, s) && Enabled(roots, s, Decide) && PointOk(roots, s, route, q)
    ensures PointOk(roots, Decided(capacity, s), route, q)
  {
    var told, rest := s.phase.rest[0], s.phase.rest[1..];
    assert s.phase.rest == [told] + rest;
    ToldAppend(Deltas(s.queue), s.phase.rest, route, q);
    ToldTail(s.phase.rest, route, q);
    if s.resyncPending && s.queue != [] {
      assert Deltas([ResyncRequired]) == [];
      assert Deltas(s.queue) + rest == rest;
    }
  }

  lemma SendKeeps(capacity: nat, roots: map<Id, Range>, s: Stream, route: Id, q: nat)
    requires Shape(capacity, s) && Enabled(roots, s, Send) && PointOk(roots, s, route, q)
    ensures PointOk(roots, Next(capacity, roots, s, Send), route, q)
  {
    DeltasPush(s.queue, s.phase.told);
    assert Deltas(s.queue) + [s.phase.told] + s.phase.rest == Deltas(s.queue) + ([s.phase.told] + s.phase.rest);
  }

  lemma DrainKeeps(capacity: nat, roots: map<Id, Range>, s: Stream, act: Act, route: Id, q: nat)
    requires act.DrainOne? || act.DrainEnd?
    requires Shape(capacity, s) && Enabled(roots, s, act) && PointOk(roots, s, route, q)
    ensures PointOk(roots, Next(capacity, roots, s, act), route, q)
  {
    assert [ResyncRequired][..0] == [];
    assert Deltas([ResyncRequired]) == [];
    assert [] + s.phase.rest == s.phase.rest;
  }

  lemma ReadDelta(capacity: nat, roots: map<Id, Range>, s: Stream, route: Id, q: nat)
    requires Shape(capacity, s) && Enabled(roots, s, Read) && s.queue[0].Delta? && PointOk(roots, s, route, q)
    ensures PointOk(roots, ReadOne(s), route, q)
  {
    var told := s.queue[0].told;
    var t := ReadOne(s);
    if !s.phase.Draining? {
      DeltasTail(s.queue);
      assert Pending(s) == [told] + Pending(t);
      ToldTail(Pending(s), route, q);
      ToldAppend(s.heard, [told], route, q);
      ToldOne(told, route, q);
      assert Lossy(t) <==> Lossy(s);
    }
  }

  lemma ReadMarker(capacity: nat, roots: map<Id, Range>, s: Stream, route: Id, q: nat)
    requires Shape(capacity, s) && Enabled(roots, s, Read) && s.queue[0].ResyncRequired? && PointOk(roots, s, route, q)
    ensures PointOk(roots, ReadOne(s), route, q)
  {
    DeltasTail(s.queue);
    assert Pending(ReadOne(s)) == Pending(s);
  }

  /** Every step of the publisher and of the reader keeps what each point is told. */
  lemma PointNext(capacity: nat, roots: map<Id, Range>, s: Stream, act: Act, route: Id, q: nat)
    requires capacity > 0 && Shape(capacity, s) && Enabled(roots, s, act)
    requires InScope(roots, route, q) && PointOk(roots, s, route, q)
    ensures PointOk(roots, Next(capacity, roots, s, act), route, q)
  {
    match act
    case Begin(_, _) => BeginKeeps(capacity, roots, s, act, route, q);
    case Decide => DecideKeeps(capacity, roots, s, route, q);
    case Send => SendKeeps(capacity, roots, s, route, q);
    case DrainOne => DrainKeeps(capacity, roots, s, act, route, q);
    case DrainEnd => DrainKeeps(capacity, roots, s, act, route, q);
    case Finish => assert Deltas(s.queue) + [] == Deltas(s.queue);
    case Read => if s.queue[0].Delta? { ReadDelta(capacity, roots, s, route, q); } else { ReadMarker(capacity, roots, s, route, q); }
    case Snapshot =>
  }

  // ---- Whole runs ----

  /** The states a run of publishers and the reader goes through. */
  ghost predicate IsRun(capacity: nat, roots: map<Id, Range>, states: seq<Stream>, acts: seq<Act>) {
    && |states| == |acts| + 1 && states[0] == Opening(states[0].derived)
    && (forall n :: 0 <= n < |acts| ==> Enabled(roots, states[n], acts[n]) && states[n + 1] == Next(capacity, roots, states[n], acts[n]))
  }

  lemma {:induction false} RunKeeps(capacity: nat, roots: map<Id, Range>, states: seq<Stream>, acts: seq<Act>, route: Id, q: nat)
    requires capacity > 0 && IsRun(capacity, roots, states, acts) && InScope(roots, route, q)
    ensures Shape(capacity, states[|acts|]) && PointOk(roots, states[|acts|], route, q)
  {
    if acts == [] {
    } else {
      var n := |acts| - 1;
      RunKeeps(capacity, roots, states[..n + 1], acts[..n], route, q);
      ShapeNext(capacity, roots, states[n], acts[n]);
      PointNext(capacity, roots, states[n], acts[n], route, q);
    }
  }

  /** asp_routes.go:743-763, 1135-1182. For every interleaving of publishers and one reader:
      whenever no batch is in progress, the queue is empty and no marker is unresolved, the
      reader's view of every point code is the derived status. */
  lemma ReaderConverges(capacity: nat, roots: map<Id, Range>, states: seq<Stream>, acts: seq<Act>, route: Id, q: nat)
    requires capacity > 0 && IsRun(capacity, roots, states, acts) && InScope(roots, route, q)
    requires var s := states[|acts|]; s.phase.Idle? && s.queue == [] && !s.unresolved
    ensures Believed(roots, states[|acts|], route, q) == StatusAt(states[|acts|].derived, roots, route, q)
  {
    RunKeeps(capacity, roots, states, acts, route, q);
  }

  /** The step loses a delta for the reader. */
  ghost predicate Drops(capacity: nat, roots: map<Id, Range>, s: Stream, act: Act)
    requires Enabled(roots, s, act)
  {
    var t := Next(capacity, roots, s, act);
    match act
    case Decide => !t.phase.Sending?
    case DrainOne => s.queue[0].Delta?
    case Send => Deltas(t.queue) == Deltas(s.queue)
    case _ => false
  }

  /** A delta is lost only while the marker stands unread in the queue or is about to be put
      there, and until it stands there the publisher does nothing else. */
  lemma LossIsMarked(capacity: nat, roots: map<Id, Range>, states: seq<Stream>, acts: seq<Act>, n: nat)
    requires capacity > 0 && IsRun(capacity, roots, states, acts) && n < |acts|
    requires Enabled(roots, states[n], acts[n]) && Drops(capacity, roots, states[n], acts[n])
    ensures var t := states[n + 1]; t.queue == [ResyncRequired] || t.phase.Draining?
    ensures acts[n] != Send
  {
    RunShape(capacity, roots, states[..n + 1], acts[..n]);
    if acts[n].Send? { DeltasPush(states[n].queue, states[n].phase.told); }
  }

  lemma {:induction false} RunShape(capacity: nat, roots: map<Id, Range>, states: seq<Stream>, acts: seq<Act>)
    requires capacity > 0 && IsRun(capacity, roots, states, acts)
    ensures Shape(capacity, states[|acts|])
  {
    if acts != [] {
      var n := |acts| - 1;
      RunShape(capacity, roots, states[..n + 1], acts[..n]);
      ShapeNext(capacity, roots, states[n], acts[n]);
    }
  }

  /** Once the publisher empties the queue it stops only when the marker is in it, and a marker
      in the queue leaves it only by being read; having read it the reader reads nothing more
      until its snapshot. */
  lemma MarkerIsRead(capacity: nat, roots: map<Id, Range>, s: Stream, act: Act)
    requires capacity > 0 && Shape(capacity, s) && Enabled(roots, s, act)
    ensures var t := Next(capacity, roots, s, act);
            && (s.phase.Draining? ==> t.phase.Draining? || t.queue == [ResyncRequired])
            && (ResyncRequired in s.queue ==> ResyncRequired in t.queue || t.unresolved)
            && (s.unresolved ==> act != Read && (t.unresolved || t.base == t.derived))
  {}

  // ---- The queue as the source keeps it ----

  /** What one publication does when no reader comes in between. */
  function Published(capacity: nat, queue: seq<Message>, resyncPending: bool, told: Told): (seq<Message>, bool) {
    if resyncPending && queue != [] then (queue, true)
    else if |queue| == capacity then ([ResyncRequired], true)
    else (queue + [Delta(told)], false)
  }

  function PublishedAll(capacity: nat, queue: seq<Message>, resyncPending: bool, list: seq<Told>): (seq<Message>, bool) {
    if list == [] then (queue, resyncPending)
    else
      var before := PublishedAll(capacity, queue, resyncPending, list[..|list| - 1]);
      Published(capacity, before.0, before.1, list[|list| - 1])
  }

  class IndicationQueue {
    const capacity: nat
    var queue: seq<Message>
    var resyncPending: bool

    ghost predicate Valid()
      reads this
    {
      && capacity > 0 && |queue| <= capacity
      && (if resyncPending then queue == [] || queue == [ResyncRequired] else ResyncRequired !in queue)
    }

    constructor (capacity: nat)
      requires capacity > 0
      ensures Valid() && this.capacity == capacity && queue == [] && !resyncPending
    {
      this.capacity := capacity;
      queue, resyncPending := [], false;
    }

    /** asp_routes.go:1155-1182. */
    method PublishOne(told: Told)
      requires Valid()
      modifies this
      ensures Valid() && (queue, resyncPending) == Published(capacity, old(queue), old(resyncPending), told)
    {
      if resyncPending {
        if |queue| != 0 {
          return;
        }
        resyncPending := false;
      }
      if |queue| == capacity {
        while queue != []
          decreases |queue|
        {
          queue := queue[1..];
        }
        queue := queue + [ResyncRequired];
        resyncPending := true;
        return;
      }
      if |queue| < capacity {
        queue := queue + [Delta(told)];
      }
    }

    /** asp_routes.go:1135-1144. */
    method Publish(list: seq<Told>)
      requires Valid()
      modifies this
      ensures Valid() && (queue, resyncPending) == PublishedAll(capacity, old(queue), old(resyncPending), list)
    {
      for i := 0 to |list|
        invariant Valid() && (queue, resyncPending) == PublishedAll(capacity, old(queue), old(resyncPending), list[..i])
      {
        assert list[..i + 1][..i] == list[..i];
        PublishOne(list[i]);
      }
      assert list[..|list|] == list;
    }
  }

  // ---- The class's method is the publisher's steps ----

  /** The publisher alone: deciding, then sending, or emptying the queue and putting the marker. */
  ghost function Alone(capacity: nat, roots: map<Id, Range>, s: Stream, acts: seq<Act>): Option<Stream> {
    if acts == [] then Some(s)
    else
      var before := Alone(capacity, roots, s, acts[..|acts| - 1]);
      if before.Some? && Enabled(roots, before.value, acts[|acts| - 1]) && acts[|acts| - 1] != Read && acts[|acts| - 1] != Snapshot
      then Some(Next(capacity, roots, before.value, acts[|acts| - 1])) else None
  }

  lemma {:induction false} DrainAlone(capacity: nat, roots: map<Id, Range>, s: Stream, n: nat)
    requires s.phase.Draining? && n <= |s.queue|
    ensures Alone(capacity, roots, s, seq(n, _ => DrainOne)) == Some(s.(queue := s.queue[n..]))
  {
    if n > 0 {
      DrainAlone(capacity, roots, s, n - 1);
      assert seq(n, _ => DrainOne)[..n - 1] == seq(n - 1, _ => DrainOne);
    } else {
      assert s.queue[0..] == s.queue;
    }
  }

  lemma {:induction false} AloneThen(capacity: nat, roots: map<Id, Range>, s: Stream, first: seq<Act>, second: seq<Act>)
    requires Alone(capacity, roots, s, first).Some?
    ensures Alone(capacity, roots, s, first + second) == Alone(capacity, roots, Alone(capacity, roots, s, first).value, second)
  {
    if second == [] {
      assert first + second == first;
    } else {
      var last := |second| - 1;
      assert (first + second)[..|first + second| - 1] == first + second[..last];
      AloneThen(capacity, roots, s, first, second[..last]);
    }
  }

  lemma AloneOne(capacity: nat, roots: map<Id, Range>, s: Stream, act: Act)
    requires Enabled(roots, s, act) && act != Read && act != Snapshot
    ensures Alone(capacity, roots, s, [act]) == Some(Next(capacity, roots, s, act))
  {
    assert [act][..0] == [];
    assert Alone(capacity, roots, s, [act][..0]) == Some(s);
  }

  /** The steps one publication takes with no reader in between. */
  function OwnActs(capacity: nat, s: Stream): seq<Act>
    requires s.phase.Publishing? && s.phase.rest != []
  {
    var decided := Decided(capacity, s);
    match decided.phase
    case Sending(_, _) => [Decide] + [Send]
    case Draining(_) => [Decide] + (seq(|s.queue|, _ => DrainOne) + [DrainEnd])
    case _ => [Decide]
  }

  /** Undisturbed, the publisher's steps for one delta do what the method does. */
  lemma UndisturbedPublish(capacity: nat, roots: map<Id, Range>, s: Stream)
    requires capacity > 0 && Shape(capacity, s) && s.phase.Publishing? && s.phase.rest != []
    ensures var published := Published(capacity, s.queue, s.resyncPending, s.phase.rest[0]);
            Alone(capacity, roots, s, OwnActs(capacity, s))
            == Some(s.(queue := published.0, resyncPending := published.1, phase := Publishing(s.phase.rest[1..])))
  {
    AloneOne(capacity, roots, s, Decide);
    var decided := Decided(capacity, s);
    if decided.phase.Sending? {
      AloneThen(capacity, roots, s, [Decide], [Send]);
      AloneOne(capacity, roots, decided, Send);
    } else if decided.phase.Draining? {
      var drains: seq<Act> := seq(|s.queue|, _ => DrainOne);
      AloneThen(capacity, roots, s, [Decide], drains + [DrainEnd]);
      DrainAlone(capacity, roots, decided, |s.queue|);
      AloneThen(capacity, roots, decided, drains, [DrainEnd]);
      AloneOne(capacity, roots, decided.(queue := []), DrainEnd);
    }
  }
}
