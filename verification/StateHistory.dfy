/** The committed-state history of an association: commits append edges to a pending list,
    every publication the monitor processes (stale or not) flushes it into the subscriber's
    16-slot channel, and teardown delivers what is left. */
module StateHistory {

  datatype State = AspDown | AspInactive | AspActive | SctpCdi | SctpRi

  /** What a handler decides and publishes; Unchanged changes no state. */
  datatype Decision = Unchanged | To(state: State)

  const CAPACITY: nat := 16

  datatype Log = Log(
    state: State,
    appliedState: State,
    stateEntered: bool,
    peerDownAwaitingEntry: bool,
    subscribed: bool,
    closed: bool,
    done: bool,
    /** closeForIndicationOverflow has started the teardown. */
    overflowed: bool,
    channel: seq<State>,
    pending: seq<State>)

  // ---- The critical sections ----

  function Record(l: Log, s: State): Log {
    if l.closed || !l.subscribed then l
    else if |l.pending| + |l.channel| >= CAPACITY then l.(overflowed := true)
    else l.(pending := l.pending + [s])
  }

  function Notify(l: Log, s: State): Log {
    if l.closed || !l.subscribed then l
    else if |l.channel| < CAPACITY then l.(channel := l.channel + [s])
    else l.(overflowed := true)
  }

  function NotifyAll(l: Log, states: seq<State>): Log {
    if states == [] then l else Notify(NotifyAll(l, states[..|states| - 1]), states[|states| - 1])
  }

  function Flush(l: Log, final: bool): Log {
    if !final && l.done then l else NotifyAll(l, l.pending).(pending := [])
  }

  /** A commit past its checks. */
  function Decide(l: Log, s: State, peerDown: bool): Log {
    var c := l.(state := s);
    var r := if l.state != s then Record(c, s) else c;
    r.(peerDownAwaitingEntry := peerDown || (s == AspDown && r.peerDownAwaitingEntry))
  }

  /** commitStateGuarded refuses. */
  predicate Refused(l: Log, override: bool) {
    l.done || (override && l.state == AspDown)
  }

  function Commit(l: Log, d: Decision, peerDown: bool, override: bool): Log {
    if d.Unchanged? || Refused(l, override) then l else Decide(l, d.state, peerDown)
  }

  /** applyStateUpdateLocked up to its flush. */
  function Enter(l: Log, current: State): Log {
    var a := l.(appliedState := current, stateEntered := true);
    (if a.state != current then Record(a, current) else a).(state := current)
  }

  function Apply(l: Log, current: State): Log {
    if l.done then l else Flush(Enter(l, current), false)
  }

  predicate Applied(l: Log, d: Decision) {
    !l.done && d == To(l.state)
  }

  function ApplyPublished(l: Log, d: Decision): Log {
    if l.done then l
    else if d == To(l.state) then Apply(Flush(l, false), d.state)
    else Flush(l, false)
  }

  // ---- Flushing moves everything and never overflows ----

  ghost predicate Bounded(l: Log) {
    && |l.pending| + |l.channel| <= CAPACITY
    && (!l.subscribed || l.closed ==> l.pending == [])
  }

  lemma {:induction false} NotifyAllMoves(l: Log, states: seq<State>)
    requires !l.closed && l.subscribed && |l.channel| + |states| <= CAPACITY
    ensures NotifyAll(l, states) == l.(channel := l.channel + states)
  {
    if states == [] {
      assert l.channel + states == l.channel;
    } else {
      var n := |states| - 1;
      NotifyAllMoves(l, states[..n]);
      assert l.channel + states == l.channel + states[..n] + [states[n]];
    }
  }

  lemma FlushMoves(l: Log, final: bool)
    requires Bounded(l)
    ensures Flush(l, final) == if !final && l.done then l else l.(channel := l.channel + l.pending, pending := [])
  {
    if l.subscribed && !l.closed {
      NotifyAllMoves(l, l.pending);
    } else {
      assert l.channel + l.pending == l.channel;
    }
  }

  // ---- Edges of a history ----

  /** The changes along a history of committed states, restatements left out. */
  function Edges(h: seq<State>): seq<State> {
    if |h| < 2 then []
    else
      var n := |h| - 1;
      Edges(h[..n]) + if h[n] != h[n - 1] then [h[n]] else []
  }

  lemma EdgesGrow(h: seq<State>, s: State)
    requires h != []
    ensures Edges(h + [s]) == Edges(h) + if s != h[|h| - 1] then [s] else []
  {
    assert (h + [s])[..|h|] == h;
  }

  lemma {:induction false} EdgesDiffer(h: seq<State>)
    requires h != []
    ensures forall k :: 0 <= k < |Edges(h)| - 1 ==> Edges(h)[k] != Edges(h)[k + 1]
    ensures if Edges(h) == [] then h[|h| - 1] == h[0] else Edges(h)[0] != h[0] && Edges(h)[|Edges(h)| - 1] == h[|h| - 1]
  {
    if |h| > 1 {
      EdgesDiffer(h[..|h| - 1]);
    }
  }

  // ---- Whole runs ----

  datatype Phase =
    | Running
    /** done is closed; a commit that had read it open may still be under way. */
    | Ending
    /** The state is ASP-DOWN; whether that edge has still to be recorded. */
    | Lowered(owed: bool)
    | Flushed
    | Closed

  datatype System = System(
    log: Log,
    /** Every value the committed state has been given, in order. */
    history: seq<State>,
    /** Where in the history the subscription was, and whether teardown had not started. */
    since: int,
    early: bool,
    read: seq<State>,
    phase: Phase)

  datatype Act =
    | Subscribe
    | CommitState(decision: Decision, peerDown: bool, override: bool)
    | Publication(decision: Decision)
    | Direct(state: State)
    | Receive
    | End
    /** A commit or direct update that had read done before teardown closed it. */
    | LateCommit(state: State, peerDown: bool)
    | LateEnter(state: State)
    | Lower
    | FinalFlush
    | CloseChannel

  predicate Enabled(x: System, act: Act) {
    match act
    case Receive => x.log.channel != []
    case End => x.phase.Running?
    case LateCommit(_, _) => x.phase.Ending?
    case LateEnter(_) => x.phase.Ending?
    case Lower => x.phase.Ending?
    case FinalFlush => x.phase.Lowered?
    case CloseChannel => x.phase.Flushed?
    case _ => true
  }

  function Step(x: System, act: Act): System
    requires Enabled(x, act)
  {
    var l := x.log;
    match act
    case Subscribe =>
      if l.subscribed then x
      else x.(log := l.(subscribed := true), since := |x.history| - 1, early := x.phase.Running?)
    case CommitState(d, peerDown, override) =>
      x.(log := Commit(l, d, peerDown, override),
         history := if d.Unchanged? || Refused(l, override) then x.history else x.history + [d.state])
    case Publication(d) => x.(log := ApplyPublished(l, d), history := if Applied(l, d) then x.history + [d.state] else x.history)
    case Direct(s) => x.(log := Apply(l, s), history := if l.done then x.history else x.history + [s])
    case Receive => x.(log := l.(channel := l.channel[1..]), read := x.read + [l.channel[0]])
    case End => x.(log := l.(done := true), phase := Ending)
    case LateCommit(s, peerDown) => x.(log := Decide(l, s, peerDown), history := x.history + [s])
    case LateEnter(s) => x.(log := Enter(l, s), history := x.history + [s])
    case Lower =>
      x.(log := l.(state := AspDown, appliedState := AspDown), history := x.history + [AspDown], phase := Lowered(l.state != AspDown))
    case FinalFlush => x.(log := Flush(if x.phase.owed then Record(l, AspDown) else l, true), phase := Flushed)
    case CloseChannel => x.(log := l.(closed := true), phase := Closed)
  }

  ghost predicate Opening(x: System) {
    && !x.log.subscribed && !x.log.closed && !x.log.done && !x.log.overflowed
    && x.log.channel == [] && x.log.pending == [] && x.read == []
    && x.phase.Running? && x.history == [x.log.state] && x.since == -1 && !x.early
  }

  ghost predicate Shape(x: System) {
    && Bounded(x.log)
    && x.history != [] && x.history[|x.history| - 1] == x.log.state
    && (x.log.done <==> !x.phase.Running?)
    && (x.log.closed <==> x.phase.Closed?)
    && (if x.log.subscribed then 0 <= x.since < |x.history| else x.since == -1)
    && (!x.log.subscribed ==> x.log.channel == [] && x.read == [] && !x.early)
    && (x.log.subscribed && x.phase.Running? ==> x.early)
    && (x.phase.Lowered? || x.phase.Flushed? || x.phase.Closed? ==> x.log.state == AspDown)
    && (x.phase.Flushed? || x.phase.Closed? ==> x.log.pending == [])
  }

  /** What the subscriber has read, then the channel, then the pending list. */
  function Delivered(x: System): seq<State> {
    x.read + x.log.channel + x.log.pending
  }

  ghost predicate Complete(x: System)
    requires Shape(x)
  {
    x.early && !x.log.overflowed ==>
      Delivered(x) + (if x.phase == Lowered(true) then [AspDown] else []) == Edges(x.history[x.since..])
  }

  lemma HistoryGrows(x: System, s: State)
    requires Shape(x) && x.early
    ensures Edges((x.history + [s])[x.since..]) == Edges(x.history[x.since..]) + if s != x.log.state then [s] else []
  {
    assert (x.history + [s])[x.since..] == x.history[x.since..] + [s];
    EdgesGrow(x.history[x.since..], s);
  }

  lemma DecideShape(x: System, s: State, peerDown: bool)
    requires Shape(x) && (x.phase.Running? || x.phase.Ending?)
    ensures Shape(x.(log := Decide(x.log, s, peerDown), history := x.history + [s]))
  {}

  lemma EnterShape(x: System, s: State)
    requires Shape(x) && (x.phase.Running? || x.phase.Ending?)
    ensures Shape(x.(log := Enter(x.log, s), history := x.history + [s]))
  {}

  lemma FlushShape(x: System)
    requires Shape(x) && x.phase.Running?
    ensures Shape(x.(log := Flush(x.log, false)))
    ensures Flush(x.log, false).state == x.log.state && !Flush(x.log, false).done
  {
    hide Flush;
    FlushMoves(x.log, false);
  }

  lemma DirectShape(x: System, s: State)
    requires Shape(x)
    ensures Shape(Step(x, Direct(s)))
  {
    hide Flush, Enter, Shape;
    DoneMeans(x);
    if !x.log.done {
      EnterShape(x, s);
      FlushShape(x.(log := Enter(x.log, s), history := x.history + [s]));
    }
  }

  lemma PublicationShape(x: System, d: Decision)
    requires Shape(x)
    ensures Shape(Step(x, Publication(d)))
  {
    hide Flush, Apply, Shape;
    DoneMeans(x);
    if !x.log.done {
      FlushShape(x);
      if d == To(x.log.state) { DirectShape(x.(log := Flush(x.log, false)), d.state); }
    }
  }

  lemma FinalShape(x: System)
    requires Shape(x) && Enabled(x, FinalFlush)
    ensures Shape(Step(x, FinalFlush))
  {
    hide Flush;
    FlushMoves(if x.phase.owed then Record(x.log, AspDown) else x.log, true);
  }

  lemma DoneMeans(x: System)
    requires Shape(x)
    ensures x.log.done <==> !x.phase.Running?
  {}

  lemma ShapeStep(x: System, act: Act)
    requires Shape(x) && Enabled(x, act)
    ensures Shape(Step(x, act))
  {
    hide Flush, Decide, Enter, Record;
    match act
    case CommitState(d, peerDown, _) => if d.To? && !x.log.done { DecideShape(x, d.state, peerDown); }
    case LateCommit(s, peerDown) => DecideShape(x, s, peerDown);
    case LateEnter(s) => EnterShape(x, s);
    case Publication(d) => PublicationShape(x, d);
    case Direct(s) => DirectShape(x, s);
    case FinalFlush => FinalShape(x);
    case _ =>
  }

  /** Recording a change appends it to what will be delivered, unless it overflows. */
  lemma RecordAppends(l: Log, s: State)
    requires Bounded(l) && l.subscribed && !l.closed
    ensures Record(l, s).overflowed || Record(l, s) == l.(pending := l.pending + [s])
    ensures l.overflowed ==> Record(l, s).overflowed
    ensures Bounded(Record(l, s))
  {}

  lemma CompleteStep(x: System, act: Act)
    requires Shape(x) && Complete(x) && Enabled(x, act)
    ensures Shape(Step(x, act)) && Complete(Step(x, act))
  {
    hide Flush, Shape, Edges;
    ShapeStep(x, act);
    DoneMeans(x);
    match act
    case Subscribe => SubscribeKeeps(x);
    case CommitState(d, peerDown, override) => if !d.Unchanged? && !Refused(x.log, override) { DecideKeeps(x, d.state, peerDown); }
    case LateCommit(s, peerDown) => DecideKeeps(x, s, peerDown);
    case LateEnter(s) => EnterKeeps(x, s);
    case Publication(d) => PublicationKeeps(x, d);
    case Direct(s) => DirectKeeps(x, s);
    case Receive => ReceiveKeeps(x);
    case Lower => LowerKeeps(x);
    case FinalFlush => FinalKeeps(x);
    case End =>
    case CloseChannel =>
  }

  lemma SubscribeKeeps(x: System)
    requires Shape(x) && Complete(x)
    ensures Shape(Step(x, Subscribe)) ==> Complete(Step(x, Subscribe))
  {
    if !x.log.subscribed { assert |x.history[|x.history| - 1..]| == 1; }
  }

  lemma DecideKeeps(x: System, s: State, peerDown: bool)
    requires Shape(x) && Complete(x) && (x.phase.Running? || x.phase.Ending?)
    ensures var y := x.(log := Decide(x.log, s, peerDown), history := x.history + [s]); Shape(y) ==> Complete(y)
  {
    hide Edges;
    if x.early {
      HistoryGrows(x, s);
      RecordAppends(x.log.(state := s), s);
    }
  }

  lemma EnterKeeps(x: System, s: State)
    requires Shape(x) && Complete(x) && (x.phase.Running? || x.phase.Ending?)
    ensures var y := x.(log := Enter(x.log, s), history := x.history + [s]); Shape(y) && Complete(y)
  {
    hide Edges;
    if x.early {
      HistoryGrows(x, s);
      RecordAppends(x.log.(appliedState := s, stateEntered := true), s);
    }
  }

  lemma FlushKeeps(x: System)
    requires Shape(x) && Complete(x) && x.phase.Running?
    ensures var y := x.(log := Flush(x.log, false)); Shape(y) && Complete(y)
  {
    hide Edges, Flush;
    FlushMoves(x.log, false);
    var y := x.(log := Flush(x.log, false));
    assert Delivered(y) == Delivered(x);
  }

  lemma DirectKeeps(x: System, s: State)
    requires Shape(x) && Complete(x)
    ensures var y := Step(x, Direct(s)); Shape(y) && Complete(y)
  {
    hide Edges, Flush, Enter, Shape;
    if !x.log.done {
      assert x.phase.Running? by { DoneMeans(x); }
      EnterKeeps(x, s);
      FlushKeeps(x.(log := Enter(x.log, s), history := x.history + [s]));
    }
  }

  lemma FlushState(l: Log)
    requires Bounded(l)
    ensures Flush(l, false).state == l.state && Flush(l, false).done == l.done
  {
    FlushMoves(l, false);
  }

  lemma PublicationKeeps(x: System, d: Decision)
    requires Shape(x) && Complete(x)
    ensures var y := Step(x, Publication(d)); Shape(y) && Complete(y)
  {
    hide Edges, Flush, Apply;
    if !x.log.done {
      FlushKeeps(x);
      FlushState(x.log);
      if d == To(x.log.state) { DirectKeeps(x.(log := Flush(x.log, false)), d.state); }
    }
  }

  lemma ReceiveKeeps(x: System)
    requires Shape(x) && Complete(x) && Enabled(x, Receive)
    ensures var y := Step(x, Receive); Shape(y) ==> Complete(y)
  {
    assert Delivered(Step(x, Receive)) == Delivered(x);
  }

  lemma LowerKeeps(x: System)
    requires Shape(x) && Complete(x) && Enabled(x, Lower)
    ensures var y := Step(x, Lower); Shape(y) ==> Complete(y)
  {
    hide Edges;
    if x.early { HistoryGrows(x, AspDown); }
  }

  lemma FinalKeeps(x: System)
    requires Shape(x) && Complete(x) && Enabled(x, FinalFlush)
    ensures var y := Step(x, FinalFlush); Shape(y) ==> Complete(y)
  {
    hide Edges, Flush;
    var l := if x.phase.owed then Record(x.log, AspDown) else x.log;
    FlushMoves(l, true);
    if x.early {
      if x.phase.owed { RecordAppends(x.log, AspDown); }
      if !l.overflowed {
        assert Delivered(Step(x, FinalFlush)) == Delivered(x) + (if x.phase.owed then [AspDown] else []);
      }
    }
  }

  ghost predicate IsRun(states: seq<System>, acts: seq<Act>) {
    && |states| == |acts| + 1 && Opening(states[0])
    && forall n :: 0 <= n < |acts| ==> Enabled(states[n], acts[n]) && states[n + 1] == Step(states[n], acts[n])
  }

  lemma {:induction false} RunKeeps(states: seq<System>, acts: seq<Act>)
    requires IsRun(states, acts)
    ensures Shape(states[|acts|]) && Complete(states[|acts|])
  {
    hide Shape, Step, Enabled;
    if acts == [] {
      OpeningKeeps(states[0]);
    } else {
      var n := |acts| - 1;
      RunKeeps(states[..n + 1], acts[..n]);
      assert Enabled(states[n], acts[n]);
      CompleteStep(states[n], acts[n]);
    }
  }

  lemma OpeningKeeps(x: System)
    requires Opening(x)
    ensures Shape(x) && Complete(x)
  {}

  /** association.go:3303-3350, fsm.go:170-226, 616-650. For every interleaving of commits,
      publications (stale ones included), direct updates and reads: until an overflow or the
      start of teardown, what was read, the channel and the pending list are exactly the
      committed edges since the subscription; consecutive edges differ, and the last one is
      the current state. */
  lemma HistoryIsExact(states: seq<System>, acts: seq<Act>)
    requires IsRun(states, acts)
    requires var x := states[|acts|]; x.log.subscribed && x.phase.Running? && !x.log.overflowed
    ensures var x := states[|acts|];
            && 0 <= x.since < |x.history| && Delivered(x) == Edges(x.history[x.since..])
            && (forall k :: 0 <= k < |Delivered(x)| - 1 ==> Delivered(x)[k] != Delivered(x)[k + 1])
            && x.log.state == (if Delivered(x) == [] then x.history[x.since] else Delivered(x)[|Delivered(x)| - 1])
  {
    hide Edges;
    RunKeeps(states, acts);
    var x := states[|acts|];
    EdgesDiffer(x.history[x.since..]);
  }

  /** A flush never overflows: only a commit that finds sixteen undelivered edges does. */
  lemma OnlyCommitsOverflow(states: seq<System>, acts: seq<Act>, act: Act)
    requires IsRun(states, acts) && Enabled(states[|acts|], act)
    requires !states[|acts|].log.overflowed && Step(states[|acts|], act).log.overflowed
    ensures var x := states[|acts|];
            && |x.log.pending| + |x.log.channel| == CAPACITY
            && match act
               case CommitState(d, _, _) => d.To? && d.state != x.log.state
               case Direct(s) => s != x.log.state
               case LateCommit(s, _) => s != x.log.state
               case LateEnter(s) => s != x.log.state
               case FinalFlush => x.phase == Lowered(true)
               case _ => false
  {
    hide Flush, Edges;
    RunKeeps(states, acts);
    var x := states[|acts|];
    FlushMoves(x.log, false);
    match act
    case Publication(d) => if d == To(x.log.state) { FlushMoves(Enter(Flush(x.log, false), d.state), false); }
    case Direct(s) => FlushMoves(Enter(x.log, s), false);
    case FinalFlush => FlushMoves(if x.phase.owed then Record(x.log, AspDown) else x.log, true);
    case _ =>
  }

  /** Through teardown: a subscriber from before it, that never let the channel overflow,
      finds every committed edge before the channel closes, ASP-DOWN last. */
  lemma TeardownDeliversAll(states: seq<System>, acts: seq<Act>)
    requires IsRun(states, acts)
    requires var x := states[|acts|]; x.phase.Closed? && x.early && !x.log.overflowed
    ensures var x := states[|acts|];
            && 0 <= x.since < |x.history| && x.read + x.log.channel == Edges(x.history[x.since..])
            && (x.read + x.log.channel != [] ==> (x.read + x.log.channel)[|x.read + x.log.channel| - 1] == AspDown)
            && (x.read + x.log.channel == [] ==> x.history[x.since] == AspDown)
  {
    hide Edges;
    RunKeeps(states, acts);
    var x := states[|acts|];
    EdgesDiffer(x.history[x.since..]);
    assert x.read + x.log.channel == Delivered(x);
  }

  // ---- The fields in place ----

  class CommittedState {
    var state: State
    var appliedState: State
    var stateEntered: bool
    var peerDownAwaitingEntry: bool
    var stateEventSubscribed: bool
    var stateEventClosed: bool
    var done: bool
    var indicationOverflow: bool
    var stateEventChan: seq<State>
    var stateEventPending: seq<State>

    function Value(): Log
      reads this
    {
      Log(state, appliedState, stateEntered, peerDownAwaitingEntry, stateEventSubscribed, stateEventClosed, done,
          indicationOverflow, stateEventChan, stateEventPending)
    }

    constructor ()
      ensures Value() == Log(AspDown, AspDown, false, false, false, false, false, false, [], [])
    {
      state, appliedState, stateEntered, peerDownAwaitingEntry := AspDown, AspDown, false, false;
      stateEventSubscribed, stateEventClosed, done, indicationOverflow := false, false, false, false;
      stateEventChan, stateEventPending := [], [];
    }

    method RecordStateChange(s: State)
      modifies this
      ensures Value() == Record(old(Value()), s)
    {
      if stateEventClosed || !stateEventSubscribed { return; }
      if |stateEventPending| + |stateEventChan| >= CAPACITY {
        indicationOverflow := true;
        return;
      }
      stateEventPending := stateEventPending + [s];
    }

    method NotifyStateChange(s: State)
      modifies this
      ensures Value() == Notify(old(Value()), s)
    {
      if stateEventClosed || !stateEventSubscribed { return; }
      if |stateEventChan| < CAPACITY { stateEventChan := stateEventChan + [s]; } else { indicationOverflow := true; }
    }

    method FlushStateChanges(final: bool)
      modifies this
      ensures Value() == Flush(old(Value()), final)
    {
      if !final && done { return; }
      var pending := stateEventPending;
      var i := 0;
      while i < |pending|
        invariant i <= |pending| && Value() == NotifyAll(old(Value()), pending[..i])
      {
        assert pending[..i + 1][..i] == pending[..i];
        NotifyStateChange(pending[i]);
        i := i + 1;
      }
      assert pending[..i] == pending;
      stateEventPending := [];
    }

    method NotePeerDown(s: State, peerDown: bool)
      modifies this
      ensures Value() == old(Value()).(peerDownAwaitingEntry := peerDown || (s == AspDown && old(peerDownAwaitingEntry)))
    {
      if peerDown {
        peerDownAwaitingEntry := true;
      } else if s != AspDown {
        peerDownAwaitingEntry := false;
      }
    }

    method CommitStateGuarded(decision: Decision, peerDown: bool, override: bool) returns (committed: bool)
      modifies this
      ensures Value() == Commit(old(Value()), decision, peerDown, override)
      ensures committed == (decision.Unchanged? || !Refused(old(Value()), override))
    {
      hide Record;
      if decision.Unchanged? { return true; }
      if done { return false; }
      if override && state == AspDown { return false; }
      var stateChanged := state != decision.state;
      state := decision.state;
      if stateChanged { RecordStateChange(decision.state); }
      NotePeerDown(decision.state, peerDown);
      return true;
    }

    /** Returns whether the entry action of `current` runs, and the state it moves from. */
    method ApplyStateUpdate(current: State) returns (entering: bool, previous: State)
      modifies this
      ensures Value() == Apply(old(Value()), current)
      ensures !old(done) ==> previous == (if old(stateEntered) then old(appliedState) else old(state))
      ensures !old(done) ==> entering == (current != previous || !old(stateEntered))
    {
      hide Record, Flush;
      if done { return false, appliedState; }
      previous := if stateEntered then appliedState else state;
      entering := current != previous || !stateEntered;
      stateEntered, appliedState := true, current;
      if state != current { RecordStateChange(current); }
      state := current;
      FlushStateChanges(false);
    }

    method ApplyPublishedStateUpdate(decision: Decision) returns (applied: bool)
      requires Bounded(Value())
      modifies this
      ensures Value() == ApplyPublished(old(Value()), decision)
      ensures applied == Applied(old(Value()), decision)
    {
      if done { return false; }
      FlushMoves(Value(), false);
      FlushStateChanges(false);
      if decision != To(state) { return false; }
      var entering, previous := ApplyStateUpdate(decision.state);
      return true;
    }
  }
}
