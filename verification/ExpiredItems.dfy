/** A message that is on the wire when T(r) expires or the Application Server closes never
    returns to the queue, and a drained message is given up only after one of the two. */
module ExpiredItems {
  import opened Common
  import opened AsState
  import opened AsMachine
  import opened Distribution
  import opened MessageBudget
  import opened AcceptedOnce
  import opened ServerRuns

  /** No retained message is of a later generation; outside AS-ACTIVE and AS-PENDING what is
      on the wire belongs to an expired one. */
  ghost predicate Generations(v: Server) {
    && (forall i :: 0 <= i < |v.app.queue| ==> v.app.queue[i].generation <= v.app.recoveryGen)
    && (v.wire.Draining? ==> v.wire.item.generation <= v.app.recoveryGen)
    && (v.wire.Draining? && !v.app.closed && v.app.state != AsActive && v.app.state != AsPending ==>
          v.wire.item.generation <= v.app.expiredGen)
  }

  lemma MembershipGenerations(cfg: Config, v: Server, b: Budget, act: Act)
    requires IsMembership(act) && Machine(cfg.policy, v.app) && Generations(v) && Enabled(cfg, v, act)
    ensures Generations(Step(cfg, v, b, act).0)
  {
    hide Membership, Machine, Forget, Lists, Enabled;
    MembershipShifts(cfg.policy, v.app, act);
    MembershipEnters(cfg, v, act);
  }

  lemma MembershipEnters(cfg: Config, v: Server, act: Act)
    requires IsMembership(act) && Machine(cfg.policy, v.app) && Enabled(cfg, v, act)
    ensures Transition(cfg.policy, v.app, Membership(cfg.policy, v.app, act))
  {
    MembershipMachine(cfg.policy, v.app, act);
  }

  lemma OfferGenerations(cfg: Config, v: Server, b: Budget, act: Act)
    requires act.Offer? && Generations(v) && Enabled(cfg, v, act)
    ensures Generations(Step(cfg, v, b, act).0)
  {
    hide Forget, QueueFull, CanClaim;
  }

  lemma SenderGenerations(cfg: Config, v: Server, b: Budget)
    requires Generations(v) && Enabled(cfg, v, SenderResumes)
    ensures Generations(Step(cfg, v, b, SenderResumes).0)
  {
    hide Forget;
  }

  lemma DrainGenerations(cfg: Config, v: Server, b: Budget)
    requires Generations(v) && Enabled(cfg, v, DrainPops)
    ensures Generations(Step(cfg, v, b, DrainPops).0)
  {
    hide Forget;
  }

  lemma EndGenerations(cfg: Config, v: Server, b: Budget)
    requires Generations(v) && Enabled(cfg, v, Ends)
    ensures Generations(Step(cfg, v, b, Ends).0)
  {
    hide Forget, EndFailedDrain, EndSend, Restores;
    match v.wire
    case Sending(m, _) => EndSendShape(v.app, m);
    case Draining(item, attempt) => EndFailedShape(v.app, item.(retry := attempt.next));
  }

  lemma OtherGenerations(cfg: Config, v: Server, b: Budget, act: Act)
    requires Generations(v) && Enabled(cfg, v, act) && !IsMembership(act)
    requires !act.Offer? && !act.SenderResumes? && !act.DrainPops? && !act.Ends?
    ensures Generations(Step(cfg, v, b, act).0)
  {
    hide Forget, Members, SetMode, AgreeMode, CommitMarker, Select;
    match act
    case ModeSet(mode) => ModeOnly(cfg.policy, v.app, mode);
    case ModeAgreed(mode) => ModeOnly(cfg.policy, v.app, mode);
    case Mark => MarkerOnly(cfg.limits, v.app, MessageOf(v.wire).flow, AttemptOf(v.wire).epoch);
    case _ =>
  }

  lemma StepGenerations(cfg: Config, v: Server, b: Budget, act: Act)
    requires Machine(cfg.policy, v.app) && Generations(v) && Enabled(cfg, v, act)
    ensures Generations(Step(cfg, v, b, act).0)
  {
    hide Generations, Enabled, Step, Machine;
    if IsMembership(act) {
      MembershipGenerations(cfg, v, b, act);
    } else {
      match act
      case Offer(_, _, _) => OfferGenerations(cfg, v, b, act);
      case SenderResumes => SenderGenerations(cfg, v, b);
      case DrainPops => DrainGenerations(cfg, v, b);
      case Ends => EndGenerations(cfg, v, b);
      case _ => OtherGenerations(cfg, v, b, act);
    }
  }

  // ---- Out for good ----

  /** The message has been accepted, is not queued or waiting, and if it is still on the wire
      its generation has expired or the Application Server is closed. */
  ghost predicate Out(v: Server, id: nat) {
    && id < v.nextId && !InQueue(v.app.queue, id) && (v.waiting.Some? ==> v.waiting.value.id != id)
    && (!v.wire.Free? && MessageOf(v.wire).id == id ==>
          v.wire.Draining? && (v.app.closed || v.wire.item.generation <= v.app.expiredGen))
  }

  lemma MembershipOut(cfg: Config, v: Server, b: Budget, act: Act, id: nat)
    requires IsMembership(act) && Out(v, id) && Enabled(cfg, v, act)
    ensures Out(Step(cfg, v, b, act).0, id)
  {
    hide Membership, Forget, Enabled;
    MembershipShifts(cfg.policy, v.app, act);
    SameQueueIds(v.app.queue, Membership(cfg.policy, v.app, act).queue);
  }

  lemma QueuedElsewhere(queue: seq<Item>, item: Item, id: nat)
    requires !InQueue(queue, id) && item.message.id != id
    ensures !InQueue(queue + [item], id) && !InQueue([item] + queue, id)
  {
    AppendOnly(queue, item);
  }

  lemma AppendOnly(queue: seq<Item>, item: Item)
    ensures forall id :: InQueue(queue + [item], id) ==> InQueue(queue, id) || id == item.message.id
    ensures forall id :: InQueue([item] + queue, id) ==> InQueue(queue, id) || id == item.message.id
  {
    forall id | InQueue(queue + [item], id) ensures InQueue(queue, id) || id == item.message.id {
      var i :| 0 <= i < |queue + [item]| && (queue + [item])[i].message.id == id;
      if i < |queue| { assert queue[i].message.id == id; }
    }
    forall id | InQueue([item] + queue, id) ensures InQueue(queue, id) || id == item.message.id {
      var i :| 0 <= i < |[item] + queue| && ([item] + queue)[i].message.id == id;
      if i > 0 { assert queue[i - 1].message.id == id; }
    }
  }

  lemma OfferOut(cfg: Config, v: Server, b: Budget, act: Act, id: nat)
    requires act.Offer? && Out(v, id) && Enabled(cfg, v, act)
    ensures Out(Step(cfg, v, b, act).0, id)
  {
    hide Forget, QueueFull, CanClaim, InQueue;
    var m := Message(v.nextId, act.flow, act.sls, act.size);
    QueuedElsewhere(v.app.queue, Item(m, QueuedGeneration(v.app), None), id);
  }

  lemma SenderOut(cfg: Config, v: Server, b: Budget, id: nat)
    requires Out(v, id) && Enabled(cfg, v, SenderResumes)
    ensures Out(Step(cfg, v, b, SenderResumes).0, id)
  {
    hide Forget, InQueue;
    QueuedElsewhere(v.app.queue, Item(v.waiting.value, QueuedGeneration(v.app), None), id);
  }

  lemma DrainOut(cfg: Config, v: Server, b: Budget, id: nat)
    requires Out(v, id) && Enabled(cfg, v, DrainPops)
    ensures Out(Step(cfg, v, b, DrainPops).0, id)
  {
    hide Forget;
    if v.app.queue != [] {
      assert v.app.queue[0].message.id != id;
      TailInQueue(v.app.queue, id);
    }
  }

  lemma TailInQueue(queue: seq<Item>, id: nat)
    requires queue != []
    ensures InQueue(queue[1..], id) ==> InQueue(queue, id)
  {
    if InQueue(queue[1..], id) {
      var i :| 0 <= i < |queue[1..]| && queue[1..][i].message.id == id;
      assert queue[i + 1].message.id == id;
    }
  }

  /** A message whose generation has expired is not put back after a failed attempt. */
  lemma EndOut(cfg: Config, v: Server, b: Budget, id: nat)
    requires Out(v, id) && Enabled(cfg, v, Ends)
    ensures Out(Step(cfg, v, b, Ends).0, id)
  {
    hide Forget, InQueue, EndFailedDrain, EndSend;
    match v.wire
    case Sending(m, _) => EndSendShape(v.app, m);
    case Draining(item, attempt) =>
      var next := item.(retry := attempt.next);
      EndFailedShape(v.app, next);
      if item.message.id != id { QueuedElsewhere(v.app.queue, PutBack(v.app, next), id); }
  }

  lemma OtherOut(cfg: Config, v: Server, b: Budget, act: Act, id: nat)
    requires Out(v, id) && Enabled(cfg, v, act) && !IsMembership(act) && Machine(cfg.policy, v.app)
    requires !act.Offer? && !act.SenderResumes? && !act.DrainPops? && !act.Ends?
    ensures Out(Step(cfg, v, b, act).0, id)
  {
    hide Forget, Members, Lists, SetMode, AgreeMode, CommitMarker, Select;
    match act
    case ModeSet(mode) => ModeOnly(cfg.policy, v.app, mode);
    case ModeAgreed(mode) => ModeOnly(cfg.policy, v.app, mode);
    case Mark => MarkerOnly(cfg.limits, v.app, MessageOf(v.wire).flow, AttemptOf(v.wire).epoch);
    case _ =>
  }

  lemma StepOut(cfg: Config, v: Server, b: Budget, act: Act, id: nat)
    requires Machine(cfg.policy, v.app) && Out(v, id) && Enabled(cfg, v, act)
    ensures Out(Step(cfg, v, b, act).0, id)
  {
    hide Out, Enabled, Step, Machine;
    if IsMembership(act) {
      MembershipOut(cfg, v, b, act, id);
    } else {
      match act
      case Offer(_, _, _) => OfferOut(cfg, v, b, act, id);
      case SenderResumes => SenderOut(cfg, v, b, id);
      case DrainPops => DrainOut(cfg, v, b, id);
      case Ends => EndOut(cfg, v, b, id);
      case _ => OtherOut(cfg, v, b, act, id);
    }
  }

  /** An expiry or a close puts what is on the wire out. */
  lemma ExpiryPutsOut(cfg: Config, v: Server, b: Budget, act: Act)
    requires Generations(v) && OnePlace(v) && Enabled(cfg, v, act) && v.wire.Draining?
    requires Expires(v, act) || act.Shut?
    ensures Out(Step(cfg, v, b, act).0, v.wire.item.message.id)
  {
    hide Forget, Members;
  }

  // ---- Whole runs ----

  lemma {:induction false} RunGenerations(cfg: seq<Config>, states: seq<System>, steps: seq<(nat, Act)>, i: nat)
    requires IsRun(cfg, states, steps) && i < |cfg|
    ensures |states| == |steps| + 1 && i < |states[|steps|].servers| && Generations(states[|steps|].servers[i])
  {
    hide SystemEnabled, SystemStep, Generations, ServerOk, IsRun;
    RunOk(cfg, states, steps);
    if steps == [] {
      StartGenerations(cfg, states, i);
    } else {
      var n := |steps| - 1;
      RunPrefix(cfg, states, steps);
      RunGenerations(cfg, states[..n + 1], steps[..n], i);
      RunOk(cfg, states[..n + 1], steps[..n]);
      NextGenerations(cfg, states, steps, i, n);
    }
  }

  lemma StartGenerations(cfg: seq<Config>, states: seq<System>, i: nat)
    requires IsRun(cfg, states, []) && i < |cfg|
    ensures i < |states[0].servers| && Generations(states[0].servers[i])
  {}

  lemma NextGenerations(cfg: seq<Config>, states: seq<System>, steps: seq<(nat, Act)>, i: nat, n: nat)
    requires IsRun(cfg, states, steps) && |states| == |steps| + 1 && i < |cfg| && n < |steps|
    requires ServersOk(cfg, states[n]) && Generations(states[n].servers[i])
    ensures i < |states[n + 1].servers| && Generations(states[n + 1].servers[i])
  {
    hide ServerOk, Generations, Enabled, Step;
    OneStepGenerations(cfg, states[n], steps[n].0, steps[n].1, i);
  }

  lemma OneStepGenerations(cfg: seq<Config>, s: System, j: nat, act: Act, i: nat)
    requires ServersOk(cfg, s) && SystemEnabled(cfg, s, j, act) && i < |cfg| && Generations(s.servers[i])
    ensures Generations(SystemStep(cfg, s, j, act).servers[i])
  {
    hide Generations, Step, Enabled, Machine, Episodes, SlotOwned, Once;
    if i == j { StepGenerations(cfg[i], s.servers[i], s.budget, act); }
  }

  lemma OneStepOut(cfg: seq<Config>, s: System, j: nat, act: Act, i: nat, id: nat)
    requires ServersOk(cfg, s) && SystemEnabled(cfg, s, j, act) && i < |cfg| && Out(s.servers[i], id)
    ensures Out(SystemStep(cfg, s, j, act).servers[i], id)
  {
    hide Out, Step, Enabled, Machine, Episodes, SlotOwned, Once;
    if i == j { StepOut(cfg[i], s.servers[i], s.budget, act, id); }
  }

  lemma RunTake(cfg: seq<Config>, states: seq<System>, steps: seq<(nat, Act)>, n: nat)
    requires IsRun(cfg, states, steps) && n <= |steps|
    ensures |states| == |steps| + 1 && IsRun(cfg, states[..n + 1], steps[..n])
  {
    hide SystemEnabled, SystemStep;
  }

  lemma {:induction false} StaysOut(cfg: seq<Config>, states: seq<System>, steps: seq<(nat, Act)>, i: nat, id: nat, n: nat)
    requires IsRun(cfg, states, steps) && |states| == |steps| + 1 && i < |cfg| && n <= |steps|
    requires i < |states[n].servers| && Out(states[n].servers[i], id)
    ensures i < |states[|steps|].servers| && Out(states[|steps|].servers[i], id)
    decreases |steps| - n
  {
    hide SystemEnabled, SystemStep, Out, IsRun;
    if n < |steps| {
      RunTake(cfg, states, steps, n);
      RunOk(cfg, states[..n + 1], steps[..n]);
      NextOut(cfg, states, steps, i, id, n);
      StaysOut(cfg, states, steps, i, id, n + 1);
    }
  }

  lemma NextOut(cfg: seq<Config>, states: seq<System>, steps: seq<(nat, Act)>, i: nat, id: nat, n: nat)
    requires IsRun(cfg, states, steps) && |states| == |steps| + 1 && i < |cfg| && n < |steps|
    requires ServersOk(cfg, states[n]) && Out(states[n].servers[i], id)
    ensures i < |states[n + 1].servers| && Out(states[n + 1].servers[i], id)
  {
    hide ServerOk, Out, Enabled, Step;
    OneStepOut(cfg, states[n], steps[n].0, steps[n].1, i, id);
  }

  /** as.go:1836; distribution.go:741-753. In every interleaving a message on the wire when
      T(r) expires, or when the Application Server closes, never enters the queue again. */
  lemma ExpiredNeverReturns(cfg: seq<Config>, states: seq<System>, steps: seq<(nat, Act)>, i: nat, n: nat)
    requires IsRun(cfg, states, steps) && |states| == |steps| + 1 && n < |steps| && steps[n].0 == i
    requires i < |states[n].servers| && states[n].servers[i].wire.Draining?
    requires Expires(states[n].servers[i], steps[n].1) || steps[n].1.Shut?
    ensures i < |states[|steps|].servers|
         && !InQueue(states[|steps|].servers[i].app.queue, states[n].servers[i].wire.item.message.id)
  {
    var id := states[n].servers[i].wire.item.message.id;
    EntersOut(cfg, states, steps, i, n);
    StaysOut(cfg, states, steps, i, id, n + 1);
  }

  lemma EntersOut(cfg: seq<Config>, states: seq<System>, steps: seq<(nat, Act)>, i: nat, n: nat)
    requires IsRun(cfg, states, steps) && |states| == |steps| + 1 && n < |steps| && steps[n].0 == i
    requires i < |states[n].servers| && states[n].servers[i].wire.Draining?
    requires Expires(states[n].servers[i], steps[n].1) || steps[n].1.Shut?
    ensures i < |cfg| && i < |states[n + 1].servers| && Out(states[n + 1].servers[i], states[n].servers[i].wire.item.message.id)
  {
    hide Out, Expires, Generations, Step, Enabled, ServerOk;
    RunTake(cfg, states, steps, n);
    RunOk(cfg, states[..n + 1], steps[..n]);
    assert SystemEnabled(cfg, states[n], i, steps[n].1);
    RunGenerations(cfg, states[..n + 1], steps[..n], i);
    OkPlaces(cfg[i], states[n].servers[i]);
    ExpiryPutsOut(cfg[i], states[n].servers[i], states[n].budget, steps[n].1);
  }

  lemma OkPlaces(cfg: Config, v: Server)
    requires ServerOk(cfg, v)
    ensures OnePlace(v)
  {}

  /** A drained message whose attempt failed is given up only when its generation has expired
      or the Application Server is closed; otherwise it goes back to the head of the queue. */
  lemma GivenUpOnlyExpired(cfg: seq<Config>, states: seq<System>, steps: seq<(nat, Act)>, i: nat)
    requires IsRun(cfg, states, steps) && |states| == |steps| + 1 && SystemEnabled(cfg, states[|steps|], i, Ends)
    requires var v := states[|steps|].servers[i]; v.wire.Draining? && AttemptOf(v.wire).Written? && AttemptOf(v.wire).err
    ensures var v, w := states[|steps|].servers[i], SystemStep(cfg, states[|steps|], i, Ends).servers[i];
            if v.app.closed || v.wire.item.generation <= v.app.expiredGen then w.app.queue == v.app.queue
            else w.app.queue != [] && w.app.queue[0].message == v.wire.item.message && w.app.queue[1..] == v.app.queue
  {
    hide Forget;
    RunGenerations(cfg, states, steps, i);
  }
}
