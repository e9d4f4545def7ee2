/** The applicationServer of as.go and distribution.go with its fields and loops. Every method
    is one critical section and is proved to do what AsState specifies; the properties of the
    steps and of their interleavings are proved about those specifications. */
module ApplicationServer {
  import opened Common
  import opened AsState
  import opened AsMachine

  /** recoveryBudget (as.go:169-235). */
  class RecoveryBudget {
    const messageLimit: nat
    const byteLimit: nat
    var messages: int
    var bytes: int

    ghost function Model(): Budget
      reads this
    {
      Budget(messages, bytes, messageLimit, byteLimit)
    }

    constructor (messageLimit: nat, byteLimit: nat)
      ensures Model() == Budget(0, 0, messageLimit, byteLimit)
    {
      this.messageLimit, this.byteLimit := messageLimit, byteLimit;
      messages, bytes := 0, 0;
    }

    method Claim(size: nat) returns (claimed: bool)
      modifies this
      ensures claimed == CanClaim(old(Model()), size)
      ensures Model() == if claimed then AsState.Claim(old(Model()), size) else old(Model())
    {
      if messages >= messageLimit || size > byteLimit - bytes {
        return false;
      }
      messages := messages + 1;
      bytes := bytes + size;
      return true;
    }

    /** The result says whether the source panics. */
    method Release(messages: nat, bytes: int) returns (panics: bool)
      modifies this
      ensures Model() == AsState.Release(old(Model()), Owed(messages, bytes))
      ensures panics == (messages != 0 && BudgetPanics(Model()))
    {
      if messages == 0 {
        return false;
      }
      this.messages := this.messages - messages;
      this.bytes := this.bytes - bytes;
      return this.messages < 0 || this.bytes < 0;
    }
  }

  ghost function ToSet(associations: seq<Asp>): set<Asp> {
    set c | c in associations
  }

  // ---- Counting members ----

  /** The members of a kind among those visited. */
  ghost function Among(asps: map<Asp, AspState>, seen: set<Asp>, st: AspState): set<Asp> {
    set a | a in seen && a in asps && asps[a] == st
  }

  lemma CountStep(asps: map<Asp, AspState>, seen: set<Asp>, c: Asp, st: AspState)
    requires c in asps && c !in seen
    ensures |Among(asps, seen + {c}, st)| == |Among(asps, seen, st)| + if asps[c] == st then 1 else 0
  {
    var before, after := Among(asps, seen, st), Among(asps, seen + {c}, st);
    if asps[c] == st {
      assert c !in before && after == before + {c};
    } else {
      assert after == before;
    }
  }

  /** The counting loop of as.go:1600-1608. */
  method CountMembers(asps: map<Asp, AspState>) returns (active: nat, inactive: nat)
    ensures active == |Members(asps, AspActive)| && inactive == |Members(asps, AspInactive)|
  {
    active, inactive := 0, 0;
    var todo := asps.Keys;
    ghost var seen: set<Asp> := {};
    assert Among(asps, seen, AspActive) == {} && Among(asps, seen, AspInactive) == {};
    while todo != {}
      invariant todo <= asps.Keys && seen == asps.Keys - todo
      invariant active == |Among(asps, seen, AspActive)| && inactive == |Among(asps, seen, AspInactive)|
      decreases |todo|
    {
      var c :| c in todo;
      CountStep(asps, seen, c, AspActive);
      CountStep(asps, seen, c, AspInactive);
      match asps[c] {
        case AspActive => active := active + 1;
        case AspInactive => inactive := inactive + 1;
        case AspDown =>
      }
      todo := todo - {c};
      seen := seen + {c};
    }
    assert Among(asps, seen, AspActive) == Members(asps, AspActive);
    assert Among(asps, seen, AspInactive) == Members(asps, AspInactive);
  }

  // ---- The distribution order (as.go:1927-1949) ----

  predicate Precedes(ids: map<Asp, nat>, order: map<Asp, nat>, a: Asp, b: Asp)
    requires a in order && b in order
  {
    var x, y := if a in ids then ids[a] else 0, if b in ids then ids[b] else 0;
    x < y || (x == y && order[a] < order[b])
  }

  ghost predicate InOrder(listing: seq<Asp>, ids: map<Asp, nat>, order: map<Asp, nat>) {
    && (forall a :: a in listing ==> a in order)
    && (forall i, j :: 0 <= i < j < |listing| ==> !Precedes(ids, order, listing[j], listing[i]))
  }

  method FirstOf(among: set<Asp>, ids: map<Asp, nat>, order: map<Asp, nat>) returns (first: Asp)
    requires among != {} && among <= order.Keys
    ensures first in among && forall a :: a in among ==> !Precedes(ids, order, a, first)
  {
    first :| first in among;
    var todo := among - {first};
    while todo != {}
      invariant todo <= among && first in among
      invariant forall a :: a in among && a !in todo ==> !Precedes(ids, order, a, first)
      decreases |todo|
    {
      var a :| a in todo;
      todo := todo - {a};
      if Precedes(ids, order, a, first) {
        first := a;
      }
    }
  }

  /** The sort of as.go:1941-1947. */
  method Sorted(members: set<Asp>, ids: map<Asp, nat>, order: map<Asp, nat>) returns (listing: seq<Asp>)
    requires members <= order.Keys
    ensures InOrder(listing, ids, order)
    ensures (forall a :: a in listing <==> a in members) && (forall i, j :: 0 <= i < j < |listing| ==> listing[i] != listing[j])
  {
    listing := [];
    var todo := members;
    while todo != {}
      invariant todo <= members && InOrder(listing, ids, order)
      invariant forall a :: a in listing <==> a in members && a !in todo
      invariant forall i, j :: 0 <= i < j < |listing| ==> listing[i] != listing[j]
      invariant forall i, a :: 0 <= i < |listing| && a in todo ==> !Precedes(ids, order, a, listing[i])
      decreases |todo|
    {
      var a := FirstOf(todo, ids, order);
      todo := todo - {a};
      listing := listing + [a];
    }
  }

  class ApplicationServer {
    const policy: Policy
    const limits: Limits
    const budget: RecoveryBudget
    var asps: map<Asp, AspState>
    var active: seq<Asp>
    var associationOrder: map<Asp, nat>
    var nextAssociationOrder: nat
    var state: AppState
    var closed: bool
    var trafficMode: Mode
    var recovery: bool
    var recoveryGen: nat
    var recoveryExpiredGen: nat
    var recoveryQueue: seq<Item>
    var recoveryQueueBytes: int
    var deliveryInFlightBytes: nat
    var activeSending: bool
    var draining: bool
    var drainRetry: bool
    var broadcastEpoch: nat
    var broadcastTagged: map<Flow, nat>

    ghost function Model(): App
      reads this
    {
      App(asps, active, state, closed, trafficMode, recovery, recoveryGen, recoveryExpiredGen, recoveryQueue,
          recoveryQueueBytes, deliveryInFlightBytes, activeSending, draining, drainRetry, broadcastEpoch, broadcastTagged)
    }

    constructor (policy: Policy, limits: Limits, budget: RecoveryBudget)
      requires policy.required >= 1
      ensures Machine(policy, Model()) && this.policy == policy && this.limits == limits && this.budget == budget
      ensures Model() == App(map[], [], AsDown, false, NoMode, false, 0, 0, [], 0, 0, false, false, false, 0, map[])
    {
      this.policy, this.limits, this.budget := policy, limits, budget;
      asps, active, associationOrder, nextAssociationOrder := map[], [], map[], 0;
      state, closed, trafficMode := AsDown, false, NoMode;
      recovery, recoveryGen, recoveryExpiredGen := false, 0, 0;
      recoveryQueue, recoveryQueueBytes, deliveryInFlightBytes := [], 0, 0;
      activeSending, draining, drainRetry := false, false, false;
      broadcastEpoch, broadcastTagged := 0, map[];
    }

    /** rebuildActiveLocked (as.go:1927-1949): the ASP-ACTIVE members by ASP Identifier, then
        by the order in which they joined. */
    method RebuildActive(ids: map<Asp, nat>)
      modifies this`active, this`associationOrder, this`nextAssociationOrder
      ensures Lists(active, asps) && InOrder(active, ids, associationOrder)
      ensures forall a :: a in old(associationOrder) ==> a in associationOrder && associationOrder[a] == old(associationOrder)[a]
    {
      var members: set<Asp> := {};
      var todo := asps.Keys;
      while todo != {}
        invariant todo <= asps.Keys
        invariant forall a :: a in members <==> a in asps && a !in todo && asps[a] == AspActive
        invariant forall a :: a in asps && a !in todo ==> a in associationOrder
        invariant forall a :: a in old(associationOrder) ==> a in associationOrder && associationOrder[a] == old(associationOrder)[a]
        decreases |todo|
      {
        var a :| a in todo;
        todo := todo - {a};
        if a !in associationOrder {
          nextAssociationOrder := nextAssociationOrder + 1;
          associationOrder := associationOrder[a := nextAssociationOrder];
        }
        if asps[a] == AspActive {
          members := members + {a};
        }
      }
      active := Sorted(members, ids, associationOrder);
    }

    /** startRecoveryLocked (as.go:1793-1800). */
    method StartRecovery()
      modifies this`recoveryGen, this`recoveryQueue, this`recovery
      ensures Model() == AsState.StartRecovery(old(Model()))
    {
      hide Restamped;
      recoveryGen := recoveryGen + 1;
      RestampQueue();
      recovery := true;
    }

    /** Its loop over the queue. */
    method RestampQueue()
      modifies this`recoveryQueue
      ensures recoveryQueue == Restamped(old(recoveryQueue), recoveryGen)
    {
      hide Restamped;
      var i := 0;
      while i < |recoveryQueue|
        invariant 0 <= i <= |recoveryQueue| == |old(recoveryQueue)|
        invariant forall k :: 0 <= k < i ==> recoveryQueue[k] == old(recoveryQueue)[k].(generation := recoveryGen)
        invariant forall k :: i <= k < |recoveryQueue| ==> recoveryQueue[k] == old(recoveryQueue)[k]
      {
        recoveryQueue := recoveryQueue[i := recoveryQueue[i].(generation := recoveryGen)];
        i := i + 1;
      }
      assert recoveryQueue == Restamped(old(recoveryQueue), recoveryGen);
    }

    /** The switch of as.go:1613-1636. */
    method NextOf(previous: AppState, activeCount: nat, inactiveCount: nat) returns (next: AppState)
      ensures next == NextState(policy, previous, activeCount, inactiveCount)
    {
      if activeCount >= policy.required {
        next := AsActive;
      } else if activeCount > 0 && (previous == AsActive || previous == AsPending || policy.smoothStart) {
        next := AsActive;
      } else if activeCount > 0 {
        next := AsInactive;
      } else if previous == AsActive {
        next := AsPending;
      } else if previous == AsPending {
        next := AsPending;
      } else if inactiveCount > 0 {
        next := AsInactive;
      } else {
        next := AsDown;
      }
    }

    /** recomputeLockedFor (as.go:1593-1650), without its notifications. */
    method Recompute(ids: map<Asp, nat>)
      modifies this
      ensures Lists(active, asps) && Model() == Recomputed(policy, old(Model()), active)
      ensures asps == old(asps) && draining == old(draining) && closed == old(closed)
    {
      hide Members, Lists, NextState, AsState.StartRecovery;
      RebuildActive(ids);
      var activeCount, inactiveCount := CountMembers(asps);
      var previous := state;
      var next := NextOf(previous, activeCount, inactiveCount);
      assert Model() == old(Model()).(active := active);
      if next != previous { Enter(next); }
    }

    /** The change of state (as.go:1640-1650), with the timers that follow it. */
    method Enter(next: AppState)
      modifies this`state, this`recovery, this`recoveryGen, this`recoveryQueue, this`drainRetry
      ensures var stopped := old(Model()).(state := next, armed := false);
              var started := if next == AsPending then AsState.StartRecovery(stopped) else stopped;
              Model() == if next != AsActive then started.(retryArmed := false) else started
    {
      hide AsState.StartRecovery;
      state := next;
      recovery := false;
      assert Model() == old(Model()).(state := next, armed := false);
      if next == AsPending { StartRecovery(); }
      if next != AsActive { drainRetry := false; }
    }

    /** The test that decides whether the caller starts the drain goroutine. */
    method StartDrainIfDue() returns (started: bool)
      modifies this`drainRetry, this`draining
      ensures started == StartsDrain(old(Model())) && Model() == StartDrain(old(Model()))
      ensures started == (draining && !old(draining))
    {
      started := state == AsActive && |recoveryQueue| > 0 && !draining && !activeSending;
      if started {
        drainRetry := false;
        draining := true;
      }
    }

    /** noteBroadcastActivationLocked (distribution.go:664-673). */
    method NoteBroadcastActivation()
      modifies this`broadcastEpoch, this`broadcastTagged
      ensures Model() == NoteActivation(old(Model()))
    {
      if trafficMode != Broadcast {
        return;
      }
      broadcastEpoch := broadcastEpoch + 1;
      broadcastTagged := map[];
    }

    /** recordASPState (as.go:1467-1497). */
    method RecordASPState(c: Asp, st: AspState, ifAbsent: bool, ids: map<Asp, nat>) returns (startDrain: bool)
      requires Machine(policy, Model())
      modifies this
      ensures Machine(policy, Model()) && Model() == RecordState(policy, old(Model()), c, st, ifAbsent, active)
      ensures !closed ==> Lists(active, asps)
      ensures startDrain == (draining && !old(draining))
    {
      hide Machine, Recomputed, StartDrain, Lists;
      if closed {
        return false;
      }
      var known := c in asps;
      var was := known && asps[c] == AspActive;
      if !known || !ifAbsent {
        asps := asps[c := st];
        if st == AspActive && !was {
          NoteBroadcastActivation();
        }
      }
      Recompute(ids);
      startDrain := StartDrainIfDue();
      RecordStateMachine(policy, old(Model()), c, st, ifAbsent, active);
    }

    /** markASPDown (as.go:1276-1291). */
    method MarkASPDown(c: Asp, ids: map<Asp, nat>) returns (member: bool)
      requires Machine(policy, Model())
      modifies this
      ensures Machine(policy, Model()) && Model() == MarkDown(policy, old(Model()), c, active)
      ensures member == (!closed && c in asps) && (member ==> asps[c] == AspDown)
    {
      if closed || c !in asps {
        return false;
      }
      if asps[c] == AspDown {
        return true;
      }
      asps := asps[c := AspDown];
      Recompute(ids);
      MarkDownMachine(policy, old(Model()), c, active);
      return true;
    }

    /** markASPsInactive (as.go:1296-1318). */
    method MarkASPsInactive(associations: seq<Asp>, ids: map<Asp, nat>)
      requires Machine(policy, Model())
      modifies this
      ensures Machine(policy, Model()) && Model() == MarkInactive(policy, old(Model()), ToSet(associations), active)
    {
      hide Machine, Recomputed, Lists;
      if closed {
        ClosedKeeps(policy, Model(), ToSet(associations), active);
        return;
      }
      var changed := WriteInactive(associations);
      ghost var marked := ToSet(associations);
      if !changed {
        ClosedKeeps(policy, old(Model()), marked, active);
        return;
      }
      Recompute(ids);
      MarkInactiveMachine(policy, old(Model()), marked, active);
    }

    method WriteInactive(associations: seq<Asp>) returns (changed: bool)
      modifies this`asps
      ensures asps == MarkedInactive(old(asps), ToSet(associations))
      ensures !changed <==> forall c :: c in ToSet(associations) ==> c in old(asps) && old(asps)[c] == AspInactive
      ensures !changed ==> asps == old(asps)
    {
      hide MarkedInactive;
      changed := false;
      MarkNone(asps, associations);
      for i := 0 to |associations|
        invariant asps == MarkedInactive(old(asps), ToSet(associations[..i]))
        invariant changed == (asps != old(asps))
      {
        var c := associations[i];
        MarkNext(old(asps), associations, i);
        if c !in asps || asps[c] != AspInactive {
          asps := asps[c := AspInactive];
          changed := true;
        }
      }
      assert associations[..|associations|] == associations;
      MarkedSame(old(asps), ToSet(associations));
    }

    /** activateOverride (as.go:1350-1383). */
    method ActivateOverride(challenger: Asp, ids: map<Asp, nat>) returns (displaced: set<Asp>, startDrain: bool)
      requires Machine(policy, Model())
      modifies this
      ensures Machine(policy, Model()) && Model() == AsState.ActivateOverride(policy, old(Model()), challenger, active)
      ensures !closed ==> displaced == Members(old(asps), AspActive) - {challenger}
      ensures startDrain == (draining && !old(draining))
    {
      MachineLists(policy, Model());
      hide Machine, Recomputed, Lists, StartDrain;
      displaced := {};
      if closed {
        return displaced, false;
      }
      var changed;
      displaced, changed := Displace(challenger);
      if changed {
        Recompute(ids);
      }
      startDrain := StartDrainIfDue();
      ActivateOverrideMachine(policy, old(Model()), challenger, active);
    }

    /** The loop over the members of as.go:1364-1372. */
    method Displace(challenger: Asp) returns (displaced: set<Asp>, changed: bool)
      modifies this`asps
      ensures asps == Overridden(old(asps), challenger) && changed == (asps != old(asps))
      ensures displaced == Members(old(asps), AspActive) - {challenger}
    {
      hide Overridden, Demoted, Members, Displacing;
      var newly := !(challenger in asps && asps[challenger] == AspActive);
      asps := asps[challenger := AspActive];
      displaced := {};
      ghost var before := asps;
      var todo := asps.Keys;
      DisplaceNone(before, challenger);
      while todo != {}
        invariant todo <= before.Keys && Displacing(before, challenger, todo, asps, displaced)
        decreases |todo|
      {
        var peer :| peer in todo;
        DisplaceNext(before, challenger, todo, peer, asps, displaced);
        todo := todo - {peer};
        if peer != challenger && asps[peer] == AspActive {
          asps := asps[peer := AspInactive];
          displaced := displaced + {peer};
        }
      }
      DisplaceAll(before, challenger, asps, displaced);
      changed := newly || |displaced| > 0;
      DisplacedAre(old(asps), challenger);
    }

    /** remove (as.go:1386-1406). */
    method RemoveASP(c: Asp, ids: map<Asp, nat>)
      requires Machine(policy, Model())
      modifies this
      ensures Machine(policy, Model()) && Model() == Remove(policy, old(Model()), c, active)
    {
      hide Machine, Recomputed, Lists;
      if closed || c !in asps {
        RemoveNothing(policy, Model(), c, active);
        return;
      }
      asps := asps - {c};
      associationOrder := associationOrder - {c};
      Recompute(ids);
      RemoveMachine(policy, old(Model()), c, active);
    }

    /** close (as.go:1320-1344); the release to the budget follows without the lock. */
    method Close() returns (owed: Owed)
      requires Machine(policy, Model())
      modifies this
      ensures Machine(policy, Model()) && (Model(), owed) == AsState.Close(old(Model()))
    {
      CloseMachine(policy, Model());
      hide Machine, AsState.Close;
      owed := CloseLocked();
      ForgetOrder();
    }

    method CloseLocked() returns (owed: Owed)
      modifies this
      ensures (Model(), owed) == AsState.Close(old(Model()))
    {
      if closed {
        return NOTHING_OWED;
      }
      ghost var was := Model();
      closed, state, recovery := true, AsDown, false;
      recoveryGen := recoveryGen + 1;
      recoveryExpiredGen := recoveryGen;
      active := [];
      assert Model() == was.(closed := true, state := AsDown, armed := false, recoveryGen := was.recoveryGen + 1,
                             expiredGen := was.recoveryGen + 1, active := []);
      owed := DiscardQueue();
    }

    method ForgetOrder()
      modifies this`associationOrder
      ensures associationOrder == map[]
    {
      associationOrder := map[];
    }

    /** What close and an expiry do to the queue (as.go:1333-1336, 1837-1842). */
    method DiscardQueue() returns (owed: Owed)
      modifies this`recoveryQueue, this`recoveryQueueBytes, this`draining, this`drainRetry
      ensures Model() == old(Model()).(queue := [], queueBytes := deliveryInFlightBytes, draining := false, retryArmed := false)
      ensures owed == Owed(|old(recoveryQueue)|, old(recoveryQueueBytes) - deliveryInFlightBytes)
    {
      owed := Owed(|recoveryQueue|, recoveryQueueBytes - deliveryInFlightBytes);
      recoveryQueue := [];
      recoveryQueueBytes := deliveryInFlightBytes;
      draining := false;
      drainRetry := false;
    }

    /** recoveryExpired (as.go:1816-1847). */
    method RecoveryExpired(generation: nat) returns (owed: Owed)
      requires Machine(policy, Model())
      modifies this
      ensures Machine(policy, Model()) && (Model(), owed) == Expire(old(Model()), generation)
    {
      ExpireMachine(policy, Model(), generation);
      hide Machine;
      if generation != recoveryGen || state != AsPending {
        return NOTHING_OWED;
      }
      recovery := false;
      var activeCount, inactiveCount := CountMembers(asps);
      assert inactiveCount > 0 <==> Members(asps, AspInactive) != {};
      var next := AsDown;
      if inactiveCount > 0 {
        next := AsInactive;
      }
      state := next;
      recoveryExpiredGen := generation;
      owed := DiscardQueue();
    }

    /** setTrafficModeLocked (as.go:1553-1563). */
    method SetTrafficMode(mode: Mode)
      modifies this
      ensures Model() == SetMode(policy, old(Model()), mode)
    {
      if mode == Override && policy.required != 1 {
        return;
      }
      if trafficMode == NoMode {
        trafficMode := mode;
        var hasActive := HasActiveASP();
        if mode == Broadcast && hasActive {
          NoteBroadcastActivation();
        }
      }
    }

    /** hasActiveASPLocked (distribution.go:655-662). */
    method HasActiveASP() returns (some: bool)
      ensures some == (Members(asps, AspActive) != {})
    {
      var todo := asps.Keys;
      while todo != {}
        invariant todo <= asps.Keys && forall a :: a in asps && a !in todo ==> asps[a] != AspActive
        decreases |todo|
      {
        var a :| a in todo;
        if asps[a] == AspActive {
          assert a in Members(asps, AspActive);
          return true;
        }
        todo := todo - {a};
      }
      return false;
    }

    // ---- Accepting DATA (distribution.go:381-510) ----

    /** enqueueRecoveryLocked. */
    method EnqueueRecovery(m: Message) returns (queued: bool, startDrain: bool)
      requires MustQueue(Model())
      modifies this, budget
      ensures queued == !QueueFull(limits, old(Model()), old(budget.Model()), m.size)
      ensures Model() == if queued then Enqueued(old(Model()), m) else old(Model())
      ensures budget.Model() == if queued then AsState.Claim(old(budget.Model()), m.size) else old(budget.Model())
      ensures startDrain == (draining && !old(draining))
    {
      var retained := |recoveryQueue|;
      if deliveryInFlightBytes > 0 {
        retained := retained + 1;
      }
      if retained >= limits.messages || m.size > limits.bytes - recoveryQueueBytes {
        return false, false;
      }
      var claimed := budget.Claim(m.size);
      if !claimed {
        return false, false;
      }
      var generation := QueuedDataGeneration();
      recoveryQueue := recoveryQueue + [Item(m, generation, None)];
      recoveryQueueBytes := recoveryQueueBytes + m.size;
      startDrain := StartDrainIfDue();
      return true, startDrain;
    }

    /** queuedDataRecoveryGenerationLocked. */
    method QueuedDataGeneration() returns (generation: nat)
      modifies this`recoveryGen
      ensures generation == QueuedGeneration(old(Model())) && Model() == old(Model()).(recoveryGen := generation)
    {
      if state == AsActive && recoveryGen <= recoveryExpiredGen {
        recoveryGen := recoveryGen + 1;
      }
      return recoveryGen;
    }

    /** The first critical section of distribute. */
    method BeginDistribute(m: Message) returns (verdict: Verdict, startDrain: bool)
      modifies this, budget
      ensures (Model(), budget.Model(), verdict) == AsState.BeginDistribute(limits, old(Model()), old(budget.Model()), m)
      ensures startDrain == (draining && !old(draining))
    {
      hide StartDrain, QueueFull;
      if closed {
        return Closed, false;
      }
      if state == AsPending || draining || activeSending || (state == AsActive && |recoveryQueue| > 0) {
        var queued;
        queued, startDrain := EnqueueRecovery(m);
        return if queued then Queued else Full, startDrain;
      }
      if state != AsActive {
        return NoActive, false;
      }
      if m.size > limits.bytes {
        return Full, false;
      }
      var claimed := budget.Claim(m.size);
      if !claimed {
        return Full, false;
      }
      activeSending := true;
      deliveryInFlightBytes := m.size;
      recoveryQueueBytes := recoveryQueueBytes + m.size;
      return SlotTaken, false;
    }

    /** finishDeliveryItemLocked; the result says whether the source panics. */
    method FinishDeliveryItem(size: nat) returns (panics: bool)
      modifies this`deliveryInFlightBytes, this`recoveryQueueBytes, budget
      ensures Model() == Finished(old(Model()), size)
      ensures budget.Model() == AsState.Release(old(budget.Model()), Owed(1, size))
      ensures panics == (recoveryQueueBytes < 0 || BudgetPanics(budget.Model()))
    {
      deliveryInFlightBytes := 0;
      recoveryQueueBytes := recoveryQueueBytes - size;
      panics := budget.Release(1, size);
      panics := panics || recoveryQueueBytes < 0;
    }

    /** The second critical section of distribute. */
    method ResumeSend(m: Message) returns (how: Resumption, startDrain: bool)
      modifies this, budget
      ensures (Model(), how) == AsState.ResumeSend(old(Model()), m)
      ensures budget.Model() == if how == ResumedClosed || how == ResumedInactive
                                then AsState.Release(old(budget.Model()), Owed(1, m.size)) else old(budget.Model())
      ensures startDrain == (draining && !old(draining))
    {
      hide StartDrain;
      if closed {
        var panics := FinishDeliveryItem(m.size);
        activeSending := false;
        return ResumedClosed, false;
      }
      if state == AsPending || draining || (state == AsActive && |recoveryQueue| > 0) {
        activeSending := false;
        deliveryInFlightBytes := 0;
        var generation := QueuedDataGeneration();
        recoveryQueue := [Item(m, generation, None)] + recoveryQueue;
        startDrain := StartDrainIfDue();
        return Requeued, startDrain;
      }
      if state != AsActive {
        var panics := FinishDeliveryItem(m.size);
        activeSending := false;
        return ResumedInactive, false;
      }
      return Deliver, false;
    }

    /** The last critical section of distribute. */
    method EndSend(m: Message) returns (startDrain: bool)
      modifies this, budget
      ensures Model() == AsState.EndSend(old(Model()), m)
      ensures budget.Model() == AsState.Release(old(budget.Model()), Owed(1, m.size))
      ensures startDrain == (draining && !old(draining))
    {
      hide StartDrain;
      var panics := FinishDeliveryItem(m.size);
      activeSending := false;
      startDrain := StartDrainIfDue();
    }

    // ---- Draining (distribution.go:687-801) ----

    /** The head of the drain loop. */
    method PopForDrain() returns (popped: Popped)
      modifies this
      ensures (Model(), popped) == Pop(old(Model()))
    {
      if state != AsActive {
        draining := false;
        return Exits;
      }
      if |recoveryQueue| == 0 {
        draining := false;
        drainRetry := false;
        return Exits;
      }
      var item := recoveryQueue[0];
      recoveryQueue := recoveryQueue[1..];
      deliveryInFlightBytes := item.message.size;
      return Takes(item);
    }

    /** scheduleDrainRetryLocked, up to arming the timer. */
    method ScheduleDrainRetry()
      modifies this`drainRetry
      ensures Model() == ScheduleRetry(old(Model()))
    {
      if drainRetry || closed || state != AsActive || activeSending || |recoveryQueue| == 0 {
        return;
      }
      drainRetry := true;
    }

    /** The tail of the drain loop after a failed attempt (distribution.go:741-764). */
    method EndFailedDrain(item: Item) returns (restored: bool)
      modifies this, budget
      ensures Model() == AsState.EndFailedDrain(old(Model()), item) && restored == Restores(old(Model()), item)
      ensures budget.Model() == if restored then old(budget.Model())
                                else AsState.Release(old(budget.Model()), Owed(1, item.message.size))
    {
      restored := !closed && (state == AsPending || state == AsActive) && item.generation > recoveryExpiredGen;
      if restored {
        var back := item;
        if state == AsPending {
          back := back.(generation := recoveryGen);
        }
        recoveryQueue := [back] + recoveryQueue;
        deliveryInFlightBytes := 0;
      } else {
        var panics := FinishDeliveryItem(item.message.size);
      }
      draining := false;
      if restored && state == AsActive {
        ScheduleDrainRetry();
      }
    }

    /** The retry timer's function (distribution.go:781-791). */
    method RetryTimerFires() returns (startDrain: bool)
      modifies this
      ensures Model() == RetryFires(old(Model())) && startDrain == RetryDrains(old(Model()))
    {
      drainRetry := false;
      if closed || state != AsActive || draining || activeSending || |recoveryQueue| == 0 {
        return false;
      }
      draining := true;
      return true;
    }

    // ---- One delivery attempt (distribution.go:524-593, 634-649) ----

    /** The first half of deliverAttemptLocked with targetsLocked. */
    method SelectTargets(m: Message, retry: Option<Retry>) returns (selection: Selection)
      ensures selection == Select(Model(), m, retry)
    {
      if retry.Some? {
        var targets: seq<Asp> := [];
        var earlier := retry.value.targets;
        for i := 0 to |earlier|
          invariant targets == StillActive(earlier[..i], asps)
        {
          assert earlier[..i + 1][..i] == earlier[..i];
          if earlier[i] in asps && asps[earlier[i]] == AspActive {
            targets := targets + [earlier[i]];
          }
        }
        assert earlier[..|earlier|] == earlier;
        return Selected(targets, true, retry.value.epoch, retry.value.marker);
      }
      if |active| == 0 {
        return NoTargets;
      }
      var targets;
      match trafficMode {
        case Broadcast => targets := active;
        case Override => targets := active[..1];
        case NoMode => targets := [active[m.sls % |active|]];
        case Loadshare => targets := [active[m.sls % |active|]];
      }
      var tagged := m.flow in broadcastTagged && broadcastTagged[m.flow] == broadcastEpoch;
      return Selected(targets, trafficMode == Broadcast, broadcastEpoch,
                      trafficMode == Broadcast && broadcastEpoch != 0 && !tagged);
    }

    /** The last part of deliverAttemptLocked: the flow has had its marker. */
    method CommitFlowMarker(flow: Flow, epoch: nat)
      modifies this`broadcastTagged
      ensures Model() == CommitMarker(limits, old(Model()), flow, epoch)
    {
      if broadcastEpoch == epoch {
        if flow !in broadcastTagged && |broadcastTagged| >= limits.flows {
          broadcastTagged := map[];
        }
        broadcastTagged := broadcastTagged[flow := epoch];
      }
    }
  }

  /** The members with some of the active ones made inactive. */
  ghost function Demoted(asps: map<Asp, AspState>, peers: set<Asp>): map<Asp, AspState> {
    map p | p in asps :: if p in peers && asps[p] == AspActive then AspInactive else asps[p]
  }

  /** The members still to visit are as they were; of the others every active one but the
      challenger has been displaced. */
  ghost predicate Displacing(before: map<Asp, AspState>, challenger: Asp, todo: set<Asp>, asps: map<Asp, AspState>, displaced: set<Asp>) {
    && asps == Demoted(before, before.Keys - todo - {challenger})
    && displaced == Members(before, AspActive) * (before.Keys - todo - {challenger})
  }

  lemma DisplaceNone(before: map<Asp, AspState>, challenger: Asp)
    ensures Displacing(before, challenger, before.Keys, before, {})
  {}

  lemma DisplaceNext(before: map<Asp, AspState>, challenger: Asp, todo: set<Asp>, peer: Asp, asps: map<Asp, AspState>, displaced: set<Asp>)
    requires todo <= before.Keys && peer in todo && Displacing(before, challenger, todo, asps, displaced)
    ensures peer in asps
    ensures if peer != challenger && asps[peer] == AspActive
            then Displacing(before, challenger, todo - {peer}, asps[peer := AspInactive], displaced + {peer})
            else Displacing(before, challenger, todo - {peer}, asps, displaced)
  {
    assert asps[peer] == before[peer];
    var after := Demoted(before, before.Keys - (todo - {peer}) - {challenger});
    assert after == if peer != challenger && asps[peer] == AspActive then asps[peer := AspInactive] else asps;
  }

  lemma DisplaceAll(before: map<Asp, AspState>, challenger: Asp, asps: map<Asp, AspState>, displaced: set<Asp>)
    requires Displacing(before, challenger, {}, asps, displaced)
    ensures asps == Demoted(before, before.Keys - {challenger})
    ensures displaced == Members(before, AspActive) * (before.Keys - {challenger})
  {
    assert before.Keys - {} - {challenger} == before.Keys - {challenger};
  }

  /** The loop ends with every other active member displaced. */
  lemma DisplacedAre(asps: map<Asp, AspState>, challenger: Asp)
    ensures var before := asps[challenger := AspActive];
            var displaced := Members(before, AspActive) * (before.Keys - {challenger});
            && Demoted(before, before.Keys - {challenger}) == Overridden(asps, challenger)
            && displaced == Members(asps, AspActive) - {challenger}
            && (Overridden(asps, challenger) != asps <==>
                  !(challenger in asps && asps[challenger] == AspActive) || displaced != {})
  {
    var before := asps[challenger := AspActive];
    var displaced := Members(before, AspActive) * (before.Keys - {challenger});
    assert Demoted(before, before.Keys - {challenger}) == Overridden(asps, challenger);
    if p :| p in displaced {
      assert Overridden(asps, challenger)[p] == AspInactive;
    } else if challenger in asps && asps[challenger] == AspActive {
      forall p | p in asps ensures Overridden(asps, challenger)[p] == asps[p] {
        assert p in displaced <==> p != challenger && asps[p] == AspActive;
      }
    }
  }

  lemma MarkNone(asps: map<Asp, AspState>, associations: seq<Asp>)
    ensures MarkedInactive(asps, ToSet(associations[..0])) == asps
  {}

  lemma MarkNext(asps: map<Asp, AspState>, associations: seq<Asp>, i: nat)
    requires i < |associations|
    ensures var was := MarkedInactive(asps, ToSet(associations[..i]));
            var is_ := MarkedInactive(asps, ToSet(associations[..i + 1]));
            var c := associations[i];
            && is_ == (if c !in was || was[c] != AspInactive then was[c := AspInactive] else was)
            && (is_ != asps <==> was != asps || c !in was || was[c] != AspInactive)
  {
    var c := associations[i];
    var was := MarkedInactive(asps, ToSet(associations[..i]));
    var is_ := MarkedInactive(asps, ToSet(associations[..i + 1]));
    assert associations[..i + 1] == associations[..i] + [c];
    assert is_ == was[c := AspInactive];
    if p :| p in was && (p !in asps || was[p] != asps[p]) {
      assert p in is_ && (p !in asps || is_[p] != asps[p]);
    } else {
      assert was == asps;
    }
  }

  lemma MarkedSame(asps: map<Asp, AspState>, cs: set<Asp>)
    ensures MarkedInactive(asps, cs) == asps <==> forall c :: c in cs ==> c in asps && asps[c] == AspInactive
  {
    if c :| c in cs && !(c in asps && asps[c] == AspInactive) {
      assert MarkedInactive(asps, cs)[c] == AspInactive;
    }
  }

  lemma MachineLists(policy: Policy, a: App)
    requires Machine(policy, a)
    ensures !a.closed ==> Lists(a.active, a.asps)
  {}

  lemma ClosedKeeps(policy: Policy, a: App, cs: set<Asp>, listing: seq<Asp>)
    ensures a.closed || (forall c :: c in cs ==> c in a.asps && a.asps[c] == AspInactive) ==>
              MarkInactive(policy, a, cs, listing) == a
  {}

  lemma RemoveNothing(policy: Policy, a: App, c: Asp, listing: seq<Asp>)
    ensures a.closed || c !in a.asps ==> Remove(policy, a, c, listing) == a
  {}
}
