/** When a T(r) expiry lets the byte accounting underflow: for every configuration with room
    for two messages, exactly when it finds a drain under way. */
module ExpiryGuard {
  import opened Common
  import opened AsState
  import opened AsMachine
  import opened Distribution
  import opened MessageBudget
  import opened OrderlyDelivery
  import opened PanicPath

  // ---- Clean continuations ----

  /** The steps lead from one state to another, and every expiry among them that takes effect
      finds `draining` false. */
  ghost predicate CleanPath(cfg: seq<Config>, s: System, path: seq<(nat, Act)>, t: System)
    decreases |path|
  {
    if path == [] then t == s
    else
      && SystemEnabled(cfg, s, path[0].0, path[0].1) && CleanExpiry(s.servers[path[0].0], path[0].1)
      && CleanPath(cfg, SystemStep(cfg, s, path[0].0, path[0].1), path[1..], t)
  }

  ghost predicate Leads(cfg: seq<Config>, s: System, t: System) {
    exists path :: CleanPath(cfg, s, path, t)
  }

  /** Some clean continuation ends in an accounting panic. */
  ghost predicate CanPanic(cfg: seq<Config>, s: System) {
    exists t :: Leads(cfg, s, t) && Panics(t)
  }

  lemma {:induction false} PathThen(cfg: seq<Config>, s: System, path: seq<(nat, Act)>, t: System, more: seq<(nat, Act)>, u: System)
    requires CleanPath(cfg, s, path, t) && CleanPath(cfg, t, more, u)
    ensures CleanPath(cfg, s, path + more, u)
    decreases |path|
  {
    hide SystemEnabled, SystemStep, CleanExpiry;
    if path == [] {
      assert path + more == more;
    } else {
      PathThen(cfg, SystemStep(cfg, s, path[0].0, path[0].1), path[1..], t, more, u);
      assert (path + more)[1..] == path[1..] + more;
    }
  }

  lemma LeadsThen(cfg: seq<Config>, s: System, t: System, u: System)
    requires Leads(cfg, s, t) && Leads(cfg, t, u)
    ensures Leads(cfg, s, u)
  {
    hide CleanPath;
    var path :| CleanPath(cfg, s, path, t);
    var more :| CleanPath(cfg, t, more, u);
    PathThen(cfg, s, path, t, more, u);
  }

  lemma LeadsNowhere(cfg: seq<Config>, s: System)
    ensures Leads(cfg, s, s)
  {
    assert CleanPath(cfg, s, [], s);
  }

  function At(s: System, i: nat, v: Server, b: Budget): System
    requires i < |s.servers|
  {
    System(s.servers[i := v], b)
  }

  /** What one server reaches alone, the system reaches. */
  lemma {:induction false} SoloLeads(cfg: seq<Config>, s: System, i: nat, acts: seq<Act>, w: Server, c: Budget)
    returns (path: seq<(nat, Act)>)
    requires i < |s.servers| == |cfg| && Solo(cfg[i], s.servers[i], s.budget, acts, w, c)
    ensures CleanPath(cfg, s, path, At(s, i, w, c))
    decreases |acts|
  {
    hide Enabled, Step, CleanExpiry;
    if acts == [] {
      path := [];
      assert At(s, i, w, c) == s;
    } else {
      var t := SystemStep(cfg, s, i, acts[0]);
      var rest := SoloLeads(cfg, t, i, acts[1..], w, c);
      assert At(t, i, w, c) == At(s, i, w, c);
      path := [(i, acts[0])] + rest;
      assert path[1..] == rest;
    }
  }

  lemma ReachLeads(cfg: seq<Config>, s: System, i: nat, w: Server, c: Budget)
    requires i < |s.servers| == |cfg| && Reaches(cfg[i], s.servers[i], s.budget, w, c)
    ensures Leads(cfg, s, At(s, i, w, c))
  {
    hide Solo, CleanPath;
    var acts :| Solo(cfg[i], s.servers[i], s.budget, acts, w, c);
    var path := SoloLeads(cfg, s, i, acts, w, c);
  }

  // ---- Clean continuations of an orderly state ----

  /** The budget counts what the Application Servers hold. */
  ghost predicate Totals(s: System) {
    s.budget.bytes == HeldInAll(s.servers) && s.budget.messages == RetainedInAll(s.servers)
  }

  ghost predicate Sound(s: System) {
    AllOrderly(s) && Totals(s)
  }

  lemma SoundStep(cfg: seq<Config>, s: System, i: nat, act: Act)
    requires Sound(s) && SystemEnabled(cfg, s, i, act) && CleanExpiry(s.servers[i], act)
    ensures Sound(SystemStep(cfg, s, i, act))
  {
    OrderlySystemStep(cfg, s, i, act);
    SlotOfOrderly(s.servers[i]);
    hide Orderly, Ordered, Step, Enabled, HeldInAll;
    StepBalances(cfg[i], s.servers[i], s.budget, act);
    ReplaceOne(s.servers, i, Step(cfg[i], s.servers[i], s.budget, act).0);
  }

  lemma {:induction false} SoundPath(cfg: seq<Config>, s: System, path: seq<(nat, Act)>, t: System)
    requires Sound(s) && CleanPath(cfg, s, path, t)
    ensures Sound(t)
    decreases |path|
  {
    hide Sound, SystemEnabled, SystemStep, CleanExpiry;
    if path != [] {
      SoundStep(cfg, s, path[0].0, path[0].1);
      SoundPath(cfg, SystemStep(cfg, s, path[0].0, path[0].1), path[1..], t);
    }
  }

  lemma SoundDoesNotPanic(s: System)
    requires Sound(s)
    ensures !Panics(s)
  {
    HeldNonnegative(s.servers);
  }

  lemma CleanRunIsSound(cfg: seq<Config>, states: seq<System>, steps: seq<(nat, Act)>)
    requires IsRun(cfg, states, steps) && CleanRun(states, steps)
    ensures Sound(states[|steps|]) && |states[|steps|].servers| == |cfg|
  {
    CleanRunsAreOrderly(cfg, states, steps);
    BudgetCountsMessages(cfg, states, steps);
  }

  // ---- Emptying every other server ----

  /** The other servers are orderly, the first n of them at rest. */
  ghost predicate Emptied(s: System, i: nat, n: nat) {
    forall j :: 0 <= j < |s.servers| && j != i ==> Orderly(s.servers[j]) && (j < n ==> AtRest(s.servers[j]))
  }

  lemma EmptyOne(cfg: seq<Config>, s: System, i: nat, n: nat) returns (t: System)
    requires i < |s.servers| == |cfg| && n < |cfg| && Totals(s) && Emptied(s, i, n)
    ensures Leads(cfg, s, t) && Totals(t) && Emptied(t, i, n + 1)
    ensures |t.servers| == |s.servers| && t.servers[i] == s.servers[i]
    ensures t.budget.messageLimit == s.budget.messageLimit && t.budget.byteLimit == s.budget.byteLimit
  {
    hide Leads, Orderly, AtRest, HeldInAll, RetainedInAll, Reaches, HeldBytes, Retained;
    if n == i {
      LeadsNowhere(cfg, s);
      t := s;
    } else {
      var v := s.servers[n];
      var w, c := Quench(cfg[n], v, s.budget);
      ReachKeeps(cfg[n], v, s.budget, w, c);
      ReachLeads(cfg, s, n, w, c);
      t := At(s, n, w, c);
      ReplaceHeld(s.servers, n, w);
      ReplaceOne(s.servers, n, w);
    }
  }

  lemma {:induction false} EmptyOthers(cfg: seq<Config>, s: System, i: nat, n: nat) returns (t: System)
    requires i < |s.servers| == |cfg| && n <= |cfg| && Totals(s) && Emptied(s, i, n)
    ensures Leads(cfg, s, t) && Totals(t) && Emptied(t, i, |cfg|)
    ensures |t.servers| == |s.servers| && t.servers[i] == s.servers[i]
    ensures t.budget.messageLimit == s.budget.messageLimit && t.budget.byteLimit == s.budget.byteLimit
    decreases |cfg| - n
  {
    hide Leads, Totals, Emptied;
    if n == |cfg| {
      LeadsNowhere(cfg, s);
      t := s;
    } else {
      var u := EmptyOne(cfg, s, i, n);
      t := EmptyOthers(cfg, u, i, n + 1);
      LeadsThen(cfg, s, u, t);
    }
  }

  lemma {:induction false} OnlyOneHolds(servers: seq<Server>, i: nat)
    requires forall j :: 0 <= j < |servers| && j != i ==> AtRest(servers[j])
    ensures HeldInAll(servers) == if i < |servers| then HeldBytes(servers[i]) else 0
    ensures RetainedInAll(servers) == if i < |servers| then Retained(servers[i]) else 0
  {
    hide HeldBytes, Retained;
    if servers != [] {
      OnlyOneHolds(servers[..|servers| - 1], i);
    }
  }

  // ---- The guard ----

  /** Room for the message in flight and one more, and for two of one octet. */
  predicate HasRoom(limits: Limits, b: Budget, v: Server) {
    && limits.messages >= 2 && limits.bytes >= 2
    && b.messageLimit >= 2 && b.byteLimit >= 2 && b.byteLimit > v.app.inFlight
  }

  lemma HoldsInFlight(v: Server)
    requires Dirty(v) && v.owed == []
    ensures HeldBytes(v) == v.app.inFlight && Retained(v) == if v.wire.Free? then 0 else 1
  {}

  /** A server left dirty in a system whose other servers are orderly. */
  lemma DirtySystemPanics(cfg: seq<Config>, s: System, i: nat)
    requires i < |s.servers| == |cfg| && cfg[i].policy.required >= 1
    requires Totals(s) && Emptied(s, i, 0) && Dirty(s.servers[i]) && OwedFine(s.servers[i].owed)
    requires HasRoom(cfg[i].limits, s.budget, s.servers[i])
    ensures CanPanic(cfg, s)
  {
    var t := EmptyOthers(cfg, s, i, 0);
    EmptiedTotals(t, i);
    hide Leads, Totals, Emptied, Reaches, HeldInAll, RetainedInAll;
    var v := t.servers[i];
    var c := PayAll(cfg[i], v, t.budget);
    var paid := v.(owed := []);
    ReachLeads(cfg, t, i, paid, c);
    var u := At(t, i, paid, c);
    LeadsThen(cfg, s, t, u);
    HoldsInFlight(paid);
    PaidHolds(v);
    var w, d := DirtyPanics(cfg[i], paid, c);
    ReachLeads(cfg, u, i, w, d);
    var end := At(u, i, w, d);
    LeadsThen(cfg, s, u, end);
    assert Panics(end) by { assert end.servers[i].app.queueBytes < 0; }
  }

  lemma EmptiedTotals(t: System, i: nat)
    requires i < |t.servers| && Totals(t) && Emptied(t, i, |t.servers|)
    ensures t.budget.bytes == HeldBytes(t.servers[i]) && t.budget.messages == Retained(t.servers[i])
  {
    OnlyOneHolds(t.servers, i);
  }

  lemma PaidHolds(v: Server)
    ensures HeldBytes(v.(owed := [])) == HeldBytes(v) - OwedBytes(v.owed)
    ensures Retained(v.(owed := [])) == Retained(v) - OwedMessages(v.owed)
  {}

  lemma ExpiryLeavesDirty(cfg: seq<Config>, s: System, i: nat, generation: nat)
    requires Sound(s) && i < |s.servers| == |cfg| && ExpiryDue(s.servers[i], generation) && s.servers[i].app.draining
    ensures SystemEnabled(cfg, s, i, TimerFires(generation))
    ensures var t := SystemStep(cfg, s, i, TimerFires(generation));
            && Totals(t) && Emptied(t, i, 0) && Dirty(t.servers[i]) && OwedFine(t.servers[i].owed)
            && t.servers[i].app.inFlight == s.servers[i].app.inFlight && t.budget == s.budget && |t.servers| == |s.servers|
  {
    ExpiryDirties(cfg[i], s.servers[i], s.budget, generation);
    var w := Step(cfg[i], s.servers[i], s.budget, TimerFires(generation)).0;
    ReplaceHeld(s.servers, i, w);
    ReplaceOne(s.servers, i, w);
    hide Orderly, Step, HeldBytes, Retained, Dirty, OwedFine, HeldInAll, RetainedInAll;
  }

  /** as.go:1816-1847; distribution.go:687-764, 801-813. At any state a run reaches without
      such an expiry, and for any configuration with room for two messages: a T(r) expiry
      that takes effect there can be followed, by steps whose own expiries find no drain, by
      an accounting panic if and only if it finds `draining` true. */
  lemma ExpiryPanicsExactly(cfg: seq<Config>, states: seq<System>, steps: seq<(nat, Act)>, i: nat, generation: nat)
    requires IsRun(cfg, states, steps) && CleanRun(states, steps) && |states| == |steps| + 1
    requires i < |cfg| && i < |states[|steps|].servers|
    requires var s := states[|steps|];
             ExpiryDue(s.servers[i], generation) && HasRoom(cfg[i].limits, s.budget, s.servers[i])
    ensures var s := states[|steps|];
            && SystemEnabled(cfg, s, i, TimerFires(generation))
            && (CanPanic(cfg, SystemStep(cfg, s, i, TimerFires(generation))) <==> s.servers[i].app.draining)
  {
    CleanRunIsSound(cfg, states, steps);
    RequiredAtLeastOne(cfg, states, steps, i);
    hide Sound, IsRun, CleanRun, Leads, Dirty, Totals, Emptied, OwedFine;
    var s := states[|steps|];
    var act := TimerFires(generation);
    if s.servers[i].app.draining {
      ExpiryLeavesDirty(cfg, s, i, generation);
      DirtySystemPanics(cfg, SystemStep(cfg, s, i, act), i);
    } else {
      QuietExpiry(cfg, s, i, generation);
    }
  }

  lemma RequiredAtLeastOne(cfg: seq<Config>, states: seq<System>, steps: seq<(nat, Act)>, i: nat)
    requires IsRun(cfg, states, steps) && i < |cfg|
    ensures cfg[i].policy.required >= 1
  {}

  lemma QuietExpiry(cfg: seq<Config>, s: System, i: nat, generation: nat)
    requires Sound(s) && i < |s.servers| == |cfg| && ExpiryDue(s.servers[i], generation) && !s.servers[i].app.draining
    ensures SystemEnabled(cfg, s, i, TimerFires(generation))
    ensures !CanPanic(cfg, SystemStep(cfg, s, i, TimerFires(generation)))
  {
    SoundStep(cfg, s, i, TimerFires(generation));
    hide Sound, SystemStep, Panics, CleanPath;
    var u := SystemStep(cfg, s, i, TimerFires(generation));
    forall t | Leads(cfg, u, t) ensures !Panics(t) {
      var path :| CleanPath(cfg, u, path, t);
      SoundPath(cfg, u, path, t);
      SoundDoesNotPanic(t);
    }
  }
}
