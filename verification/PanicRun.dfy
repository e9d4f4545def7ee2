/** A run that leaves the condition of OrderlyDelivery: an ASP goes and comes and goes again
    around one message, T(r) expires while it is on the wire, and from there the byte
    accounting can underflow. */
module PanicRun {
  import opened Common
  import opened AsState
  import opened AsMachine
  import opened Distribution
  import opened MessageBudget
  import opened OrderlyDelivery
  import opened PanicPath
  import opened ExpiryGuard

  const POLICY := Policy(1, false)
  const CONFIG := Config(POLICY, Limits(10, 100, 10))

  const ACTIVE: map<Asp, AspState> := map[0 := AspActive]
  const INACTIVE: map<Asp, AspState> := map[0 := AspInactive]

  lemma OneMember()
    ensures Members(ACTIVE, AspActive) == {0} && Members(ACTIVE, AspInactive) == {}
    ensures Members(INACTIVE, AspActive) == {} && Members(INACTIVE, AspInactive) == {0}
  {}

  predicate OneAsp(a: App) {
    !a.closed && a.mode == NoMode && a.asps.Keys <= {0}
  }

  lemma Activation(a: App)
    requires OneAsp(a) && a.state != AsActive
    ensures RecordState(POLICY, a, 0, AspActive, false, [0])
         == StartDrain(a.(asps := ACTIVE, active := [0], state := AsActive, armed := false))
  {
    OneMember();
    assert a.asps[0 := AspActive] == ACTIVE;
  }

  lemma Withdrawal(a: App)
    requires OneAsp(a) && a.state == AsActive
    ensures RecordState(POLICY, a, 0, AspInactive, false, [])
         == a.(asps := INACTIVE, active := [], state := AsPending, armed := true, recoveryGen := a.recoveryGen + 1,
               queue := Restamped(a.queue, a.recoveryGen + 1), retryArmed := false)
  {
    OneMember();
    assert a.asps[0 := AspInactive] == INACTIVE;
  }

  const GAIN := Record(0, AspActive, false, [0])
  const LOSE := Record(0, AspInactive, false, [])

  lemma GainStep(v: Server, b: Budget)
    requires OneAsp(v.app) && v.app.state != AsActive
    ensures Enabled(CONFIG, v, GAIN)
    ensures Step(CONFIG, v, b, GAIN)
         == (Entered(v, StartDrain(v.app.(asps := ACTIVE, active := [0], state := AsActive, armed := false))), b)
  {
    Activation(v.app);
    assert v.app.asps[0 := AspActive] == ACTIVE;
  }

  lemma LoseStep(v: Server, b: Budget)
    requires OneAsp(v.app) && v.app.state == AsActive
    ensures Enabled(CONFIG, v, LOSE)
    ensures Step(CONFIG, v, b, LOSE)
         == (Entered(v, v.app.(asps := INACTIVE, active := [], state := AsPending, armed := true,
                               recoveryGen := v.app.recoveryGen + 1,
                               queue := Restamped(v.app.queue, v.app.recoveryGen + 1), retryArmed := false)), b)
  {
    Withdrawal(v.app);
    assert v.app.asps[0 := AspInactive] == INACTIVE;
  }

  /** A server and the budget without the proof's history. */
  datatype Snap = Snap(app: App, waiting: Option<Message>, wire: Wire, idle: nat, timers: set<nat>, owed: seq<Owed>,
                       nextId: nat, messages: int, bytes: int)

  function Snapped(v: Server, b: Budget): Snap {
    Snap(v.app, v.waiting, v.wire, v.idle, v.timers, v.owed, v.nextId, b.messages, b.bytes)
  }

  const FIRST := Message(0, 0, 0, 1)
  const ITEM := Item(FIRST, 1, None)

  function Gained(a: App): App { a.(asps := ACTIVE, active := [0], state := AsActive, armed := false) }
  function Lost(a: App): App {
    a.(asps := INACTIVE, active := [], state := AsPending, armed := true, recoveryGen := a.recoveryGen + 1)
  }

  const A1 := Gained(App(map[], [], AsDown, false, NoMode, false, 0, 0, [], 0, 0, false, false, false, 0, map[]))
  const A2 := Lost(A1)
  const A3 := A2.(queue := [ITEM], queueBytes := 1)
  const A4 := Gained(A3).(draining := true)
  const A5 := A4.(queue := [], inFlight := 1)
  const A6 := Lost(A5)
  function Wired(attempt: Attempt): Wire { Draining(ITEM, attempt) }

  /** The server after each step of the run. */
  function At(n: nat): Snap {
    match n
    case 0 => Snap(NewApp(), None, Free, 0, {}, [], 0, 0, 0)
    case 1 => Snap(A1, None, Free, 0, {}, [], 0, 0, 0)
    case 2 => Snap(A2, None, Free, 0, {1}, [], 0, 0, 0)
    case 3 => Snap(A3, None, Free, 0, {1}, [], 1, 1, 1)
    case 4 => Snap(A4, None, Free, 1, {1}, [], 1, 1, 1)
    case 5 => Snap(A5, None, Wired(Unchosen), 0, {1}, [], 1, 1, 1)
    case _ => Snap(A6, None, Wired(Unchosen), 0, {1, 2}, [], 1, 1, 1)
  }

  function NewApp(): App {
    App(map[], [], AsDown, false, NoMode, false, 0, 0, [], 0, 0, false, false, false, 0, map[])
  }

  /** The message is accepted and drained while the ASP comes and goes. */
  ghost function Taken(n: nat): Act {
    match n
    case 0 => GAIN
    case 1 => LOSE
    case 2 => Offer(0, 0, 1)
    case 3 => GAIN
    case 4 => DrainPops
    case _ => LOSE
  }

  ghost predicate Moves(n: nat, v: Server, b: Budget) {
    && Enabled(CONFIG, v, Taken(n))
    && Snapped(Step(CONFIG, v, b, Taken(n)).0, Step(CONFIG, v, b, Taken(n)).1) == At(n + 1)
    && SameLimits(b, Step(CONFIG, v, b, Taken(n)).1)
  }

  predicate SameLimits(b: Budget, c: Budget) {
    c.messageLimit == b.messageLimit == 10 && c.byteLimit == b.byteLimit == 100
  }

  ghost predicate Here(n: nat, v: Server, b: Budget) {
    Snapped(v, b) == At(n) && SameLimits(b, b)
  }

  lemma Move0(v: Server, b: Budget)
    requires Here(0, v, b)
    ensures Moves(0, v, b)
  {
    hide Forget, RecordState;
    GainStep(v, b);
  }

  lemma Move1(v: Server, b: Budget)
    requires Here(1, v, b)
    ensures Moves(1, v, b)
  {
    hide Forget, RecordState;
    LoseStep(v, b);
    assert Restamped([], v.app.recoveryGen + 1) == [];
  }

  lemma FirstQueued(b: Budget)
    requires b == Budget(0, 0, 10, 100)
    ensures BeginDistribute(CONFIG.limits, A2, b, FIRST) == (A3, Claim(b, 1), Queued)
  {
    assert A2.queue + [ITEM] == [ITEM];
    assert !QueueFull(CONFIG.limits, A2, b, 1);
  }

  lemma Move2(v: Server, b: Budget)
    requires Here(2, v, b)
    ensures Moves(2, v, b)
  {
    hide Forget, BeginDistribute;
    FirstQueued(b);
  }

  lemma Move3(v: Server, b: Budget)
    requires Here(3, v, b)
    ensures Moves(3, v, b)
  {
    hide Forget, RecordState;
    GainStep(v, b);
  }

  lemma Move4(v: Server, b: Budget)
    requires Here(4, v, b)
    ensures Moves(4, v, b)
  {
    hide Forget;
    assert [ITEM][1..] == [];
  }

  lemma Move5(v: Server, b: Budget)
    requires Here(5, v, b)
    ensures Moves(5, v, b)
  {
    hide Forget, RecordState;
    LoseStep(v, b);
    assert Restamped([], v.app.recoveryGen + 1) == [];
    assert {1} + {2} == {1, 2};
  }

  lemma Move(n: nat, v: Server, b: Budget)
    requires n < 6 && Here(n, v, b)
    ensures Moves(n, v, b) && CleanExpiry(v, Taken(n))
  {
    hide Moves, Here;
    match n
    case 0 => Move0(v, b);
    case 1 => Move1(v, b);
    case 2 => Move2(v, b);
    case 3 => Move3(v, b);
    case 4 => Move4(v, b);
    case _ => Move5(v, b);
  }

  // ---- Runs ----

  /** A run may go on with any clean step. */
  lemma RunGrows(cfg: seq<Config>, states: seq<System>, steps: seq<(nat, Act)>, i: nat, act: Act)
    requires IsRun(cfg, states, steps) && SystemEnabled(cfg, states[|steps|], i, act)
    ensures IsRun(cfg, states + [SystemStep(cfg, states[|steps|], i, act)], steps + [(i, act)])
  {
    hide SystemEnabled, SystemStep;
    var longer, more := states + [SystemStep(cfg, states[|steps|], i, act)], steps + [(i, act)];
    forall n | 0 <= n < |more|
      ensures SystemEnabled(cfg, longer[n], more[n].0, more[n].1)
           && longer[n + 1] == SystemStep(cfg, longer[n], more[n].0, more[n].1)
    {
      if n < |steps| { assert more[n] == steps[n] && longer[n] == states[n] && longer[n + 1] == states[n + 1]; }
    }
  }

  lemma CleanGrows(states: seq<System>, steps: seq<(nat, Act)>, i: nat, act: Act, t: System)
    requires |states| == |steps| + 1 && CleanRun(states, steps)
    requires i < |states[|steps|].servers| ==> CleanExpiry(states[|steps|].servers[i], act)
    ensures CleanRun(states + [t], steps + [(i, act)])
  {
    hide CleanExpiry;
    var longer, more := states + [t], steps + [(i, act)];
    forall n | 0 <= n < |more| && more[n].0 < |longer[n].servers| ensures CleanExpiry(longer[n].servers[more[n].0], more[n].1) {
      if n < |steps| { assert more[n] == steps[n] && longer[n] == states[n]; }
    }
  }

  lemma {:induction false} PathIsRun(cfg: seq<Config>, states: seq<System>, steps: seq<(nat, Act)>, path: seq<(nat, Act)>, t: System)
    returns (states': seq<System>, steps': seq<(nat, Act)>)
    requires IsRun(cfg, states, steps) && CleanPath(cfg, states[|steps|], path, t)
    ensures IsRun(cfg, states', steps') && states'[|steps'|] == t
    decreases |path|
  {
    hide IsRun, SystemEnabled, SystemStep, CleanExpiry;
    RunLength(cfg, states, steps);
    if path == [] {
      states', steps' := states, steps;
    } else {
      var next := SystemStep(cfg, states[|steps|], path[0].0, path[0].1);
      RunGrows(cfg, states, steps, path[0].0, path[0].1);
      states', steps' := PathIsRun(cfg, states + [next], steps + [path[0]], path[1..], t);
    }
    RunLength(cfg, states', steps');
  }

  lemma RunLength(cfg: seq<Config>, states: seq<System>, steps: seq<(nat, Act)>)
    requires IsRun(cfg, states, steps)
    ensures |states| == |steps| + 1
  {}

  /** The first six steps leave AS-PENDING with a drained message on the wire. */
  lemma {:induction false} Runs(n: nat) returns (states: seq<System>, steps: seq<(nat, Act)>)
    requires n <= 6
    ensures |steps| == n && IsRun([CONFIG], states, steps) && CleanRun(states, steps)
    ensures |states[n].servers| == 1 && Here(n, states[n].servers[0], states[n].budget)
  {
    hide Moves, Enabled, Step, CleanExpiry;
    if n == 0 {
      states, steps := [System([NewServer()], Budget(0, 0, 10, 100))], [];
    } else {
      states, steps := Runs(n - 1);
      var last := states[n - 1];
      Move(n - 1, last.servers[0], last.budget);
      MovesOn(n - 1, last);
      RunGrows([CONFIG], states, steps, 0, Taken(n - 1));
      CleanGrows(states, steps, 0, Taken(n - 1), SystemStep([CONFIG], last, 0, Taken(n - 1)));
      states, steps := states + [SystemStep([CONFIG], last, 0, Taken(n - 1))], steps + [(0, Taken(n - 1))];
    }
  }

  lemma MovesOn(n: nat, s: System)
    requires n < 6 && |s.servers| == 1 && Moves(n, s.servers[0], s.budget)
    ensures SystemEnabled([CONFIG], s, 0, Taken(n))
    ensures var t := SystemStep([CONFIG], s, 0, Taken(n)); |t.servers| == 1 && Here(n + 1, t.servers[0], t.budget)
  {
    hide Enabled, Step;
  }

  /** distribution.go:806-813; as.go:1834-1841. The accounting panic is reachable: one
      Application Server, one ASP and a drain that T(r) finds under way suffice. */
  lemma PanicReachable() returns (states: seq<System>, steps: seq<(nat, Act)>)
    ensures IsRun([CONFIG], states, steps) && Panics(states[|steps|])
  {
    var before, taken := Runs(6);
    var s := before[6];
    var act := TimerFires(2);
    assert ExpiryDue(s.servers[0], 2) && HasRoom(CONFIG.limits, s.budget, s.servers[0]);
    ExpiryPanicsExactly([CONFIG], before, taken, 0, 2);
    hide IsRun, SystemEnabled, SystemStep, CleanPath, Panics;
    var after := SystemStep([CONFIG], s, 0, act);
    var t :| Leads([CONFIG], after, t) && Panics(t);
    var path :| CleanPath([CONFIG], after, path, t);
    RunGrows([CONFIG], before, taken, 0, act);
    states, steps := PathIsRun([CONFIG], before + [after], taken + [(0, act)], path, t);
  }
}
