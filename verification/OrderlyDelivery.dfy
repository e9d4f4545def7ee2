/** Byte accounting, mutual exclusion and order of delivery in every run whose T(r) expiries
    find no drain under way. */
module OrderlyDelivery {
  import opened Common
  import opened AsState
  import opened AsMachine
  import opened Distribution
  import opened MessageBudget

  /** A T(r) expiry that takes effect finds `draining` false; ExpiryGuard shows that nothing
      weaker would do. */
  predicate CleanExpiry(v: Server, act: Act) {
    act.TimerFires? && act.generation == v.app.recoveryGen && v.app.state == AsPending ==> !v.app.draining
  }

  function QueueSize(queue: seq<Item>): nat {
    if queue == [] then 0 else QueueSize(queue[..|queue| - 1]) + queue[|queue| - 1].message.size
  }

  /** Drain goroutines that have not returned. */
  function Alive(v: Server): nat {
    v.idle + if v.wire.Draining? then 1 else 0
  }

  /** The size of the message in the slot or on the wire. */
  function InFlightSize(v: Server): nat {
    if v.waiting.Some? then v.waiting.value.size
    else if v.wire.Free? then 0 else MessageOf(v.wire).size
  }

  ghost predicate Orderly(v: Server) {
    && SlotOwned(v)
    && Alive(v) <= 1 && (v.app.draining ==> Alive(v) == 1) && (!v.app.closed && Alive(v) == 1 ==> v.app.draining)
    && (v.app.activeSending ==> Alive(v) == 0)
    && v.app.inFlight == InFlightSize(v)
    && v.app.queueBytes == QueueSize(v.app.queue) + v.app.inFlight
    && (v.app.closed ==> v.app.state == AsDown && v.app.queue == [])
    && (forall i :: 0 <= i < |v.owed| ==> v.owed[i].bytes >= 0 && (v.owed[i].messages == 0 ==> v.owed[i].bytes == 0))
  }

  // ---- Sizes ----

  lemma {:induction false} SameItemsSameSize(before: seq<Item>, after: seq<Item>)
    requires SameItems(before, after)
    ensures QueueSize(after) == QueueSize(before)
  {
    if before != [] {
      SameItemsSameSize(before[..|before| - 1], after[..|after| - 1]);
    }
  }

  lemma {:induction false} HeadSize(queue: seq<Item>)
    requires queue != []
    ensures QueueSize(queue) == queue[0].message.size + QueueSize(queue[1..])
  {
    if |queue| == 1 {
      assert queue[..0] == [] && queue[1..] == [];
    } else {
      var last := |queue| - 1;
      HeadSize(queue[..last]);
      assert queue[1..][..last - 1] == queue[..last][1..];
    }
  }

  lemma PrependSize(item: Item, queue: seq<Item>)
    ensures QueueSize([item] + queue) == item.message.size + QueueSize(queue)
  {
    HeadSize([item] + queue);
    assert ([item] + queue)[1..] == queue;
  }

  lemma AppendSize(queue: seq<Item>, item: Item)
    ensures QueueSize(queue + [item]) == QueueSize(queue) + item.message.size
  {
    assert (queue + [item])[..|queue|] == queue;
  }

  // ---- One server's step ----

  function OwedBytes(owed: seq<Owed>): int {
    if owed == [] then 0 else OwedBytes(owed[..|owed| - 1]) + owed[|owed| - 1].bytes
  }

  lemma {:induction false} OwedBytesWithout(owed: seq<Owed>, i: nat)
    requires i < |owed|
    ensures OwedBytes(owed[..i] + owed[i + 1..]) == OwedBytes(owed) - owed[i].bytes
  {
    var last := |owed| - 1;
    if i == last {
      assert owed[..i] + owed[i + 1..] == owed[..last];
    } else {
      var rest := owed[..i] + owed[i + 1..];
      assert rest[..|rest| - 1] == owed[..last][..i] + owed[..last][i + 1..];
      OwedBytesWithout(owed[..last], i);
    }
  }

  lemma OwedBytesMore(owed: seq<Owed>, o: Owed)
    ensures OwedBytes(owed + [o]) == OwedBytes(owed) + o.bytes
  {
    assert (owed + [o])[..|owed|] == owed;
  }

  function HeldBytes(v: Server): int {
    v.app.queueBytes + OwedBytes(v.owed)
  }

  ghost predicate Keeps(v: Server, b: Budget, w: Server, c: Budget) {
    Orderly(w) && c.bytes - b.bytes == HeldBytes(w) - HeldBytes(v)
  }

  lemma ShiftedOrderly(cfg: Config, v: Server, b: App)
    requires Orderly(v) && Shifted(v.app, b) && (v.app.closed ==> b.state == AsDown)
    ensures Orderly(Entered(v, b)) && HeldBytes(Entered(v, b)) == HeldBytes(v)
  {
    hide Forget;
    SameItemsSameSize(v.app.queue, b.queue);
  }

  lemma MembershipOrderly(cfg: Config, v: Server, b: Budget, act: Act)
    requires IsMembership(act) && Orderly(v) && Enabled(cfg, v, act)
    ensures var (w, c) := Step(cfg, v, b, act); Keeps(v, b, w, c)
  {
    MembershipShifts(cfg.policy, v.app, act);
    if v.app.closed { ClosedStays(cfg.policy, v.app, act); }
    hide Forget, Membership, Shifted, Orderly;
    ShiftedOrderly(cfg, v, Membership(cfg.policy, v.app, act));
  }

  lemma ClosedStays(policy: Policy, a: App, act: Act)
    requires IsMembership(act) && a.closed
    ensures Membership(policy, a, act).state == a.state
  {}

  lemma EnqueueOrderly(v: Server, m: Message)
    requires Orderly(v) && !v.app.closed
    ensures Orderly(Entered(v, Enqueued(v.app, m)))
    ensures Enqueued(v.app, m).queueBytes == v.app.queueBytes + m.size
  {
    hide Forget, QueueSize, QueuedGeneration;
    AppendSize(v.app.queue, Item(m, QueuedGeneration(v.app), None));
  }

  lemma SlotOrderly(v: Server, m: Message)
    requires Orderly(v) && !v.app.closed && !MustQueue(v.app)
    ensures Orderly(Entered(v, SlotOf(v.app, m)).(waiting := Some(m)))
  {
    hide Forget, QueueSize, QueuedGeneration;
  }

  lemma OfferOrderly(cfg: Config, v: Server, b: Budget, act: Act)
    requires act.Offer? && Orderly(v) && Enabled(cfg, v, act)
    ensures var (w, c) := Step(cfg, v, b, act); Keeps(v, b, w, c)
  {
    hide Forget, MustQueue, QueueFull, CanClaim, Enqueued;
    var m := Message(v.nextId, act.flow, act.sls, act.size);
    if !v.app.closed {
      EnqueueOrderly(v, m);
      if !MustQueue(v.app) { SlotOrderly(v, m); }
    }
  }

  lemma RequeueOrderly(v: Server, m: Message)
    requires Orderly(v) && v.waiting == Some(m) && ResumeSend(v.app, m).1 == Requeued
    ensures Orderly(Entered(v, ResumeSend(v.app, m).0).(waiting := None))
    ensures ResumeSend(v.app, m).0.queueBytes == v.app.queueBytes
  {
    hide Forget, QueueSize, QueuedGeneration;
    PrependSize(Item(m, QueuedGeneration(v.app), None), v.app.queue);
  }

  lemma SenderOrderly(cfg: Config, v: Server, b: Budget)
    requires Orderly(v) && Enabled(cfg, v, SenderResumes)
    ensures var (w, c) := Step(cfg, v, b, SenderResumes); Keeps(v, b, w, c)
  {
    hide Forget, StartDrain, QueueSize, OwedBytes, QueuedGeneration;
    if ResumeSend(v.app, v.waiting.value).1 == Requeued { RequeueOrderly(v, v.waiting.value); }
  }

  lemma DrainOrderly(cfg: Config, v: Server, b: Budget)
    requires Orderly(v) && Enabled(cfg, v, DrainPops)
    ensures var (w, c) := Step(cfg, v, b, DrainPops); Keeps(v, b, w, c)
  {
    hide Forget, QueueSize, OwedBytes;
    if v.app.queue != [] { HeadSize(v.app.queue); }
  }

  lemma SendEndsOrderly(cfg: Config, v: Server, b: Budget)
    requires Orderly(v) && Enabled(cfg, v, Ends) && v.wire.Sending?
    ensures var (w, c) := Step(cfg, v, b, Ends); Keeps(v, b, w, c)
  {
    hide Forget, QueueSize, OwedBytes;
  }

  lemma DrainEndsOrderly(cfg: Config, v: Server, b: Budget)
    requires Orderly(v) && Enabled(cfg, v, Ends) && v.wire.Draining?
    ensures var (w, c) := Step(cfg, v, b, Ends); Keeps(v, b, w, c)
  {
    hide Forget, QueueSize, OwedBytes, EndFailedDrain, Restores;
    var next := v.wire.item.(retry := AttemptOf(v.wire).next);
    EndFailedShape(v.app, next);
    PrependSize(PutBack(v.app, next), v.app.queue);
    if Restores(v.app, next) { RestoresOpen(v.app, next); }
  }

  lemma RestoresOpen(a: App, item: Item)
    requires Restores(a, item)
    ensures !a.closed
  {}

  lemma NothingQueued()
    ensures QueueSize([]) == 0
  {}

  lemma ShutOrderly(cfg: Config, v: Server, b: Budget)
    requires Orderly(v)
    ensures var (w, c) := Step(cfg, v, b, Shut); Keeps(v, b, w, c)
  {
    hide Forget, OwedBytes;
    NothingQueued();
    OwedBytesMore(v.owed, Close(v.app).1);
  }

  lemma ExpiryOrderly(cfg: Config, v: Server, b: Budget, act: Act)
    requires act.TimerFires? && Orderly(v) && Enabled(cfg, v, act) && CleanExpiry(v, act)
    ensures var (w, c) := Step(cfg, v, b, act); Keeps(v, b, w, c)
  {
    hide Forget, Members, OwedBytes, QueueSize;
    NothingQueued();
    OwedBytesMore(v.owed, Expire(v.app, act.generation).1);
  }

  lemma PayOrderly(cfg: Config, v: Server, b: Budget, act: Act)
    requires act.Pays? && Orderly(v) && Enabled(cfg, v, act)
    ensures var (w, c) := Step(cfg, v, b, act); Keeps(v, b, w, c)
  {
    hide QueueSize, OwedBytes;
    OwedBytesWithout(v.owed, act.index);
  }

  lemma WriteOrderly(cfg: Config, v: Server, b: Budget, act: Act)
    requires act.Choose? || act.WriteOk? || act.WriteFails? || act.Mark?
    requires Orderly(v) && Enabled(cfg, v, act)
    ensures var (w, c) := Step(cfg, v, b, act); Keeps(v, b, w, c)
  {
    hide QueueSize, OwedBytes, Select, StillActive, CommitMarker;
    if act.Mark? { MarkerOnly(cfg.limits, v.app, MessageOf(v.wire).flow, AttemptOf(v.wire).epoch); }
  }

  lemma ModeOrderly(cfg: Config, v: Server, b: Budget, act: Act)
    requires act.ModeSet? || act.ModeAgreed?
    requires Orderly(v) && Enabled(cfg, v, act)
    ensures var (w, c) := Step(cfg, v, b, act); Keeps(v, b, w, c)
  {
    hide Forget, Members, Orderly, Shifted, HeldBytes, SetMode, AgreeMode;
    var a := if act.ModeSet? then SetMode(cfg.policy, v.app, act.mode) else AgreeMode(v.app, act.mode);
    ModeOnly(cfg.policy, v.app, act.mode);
    ModeShifts(v.app, a);
    StateKept(v);
    ShiftedOrderly(cfg, v, a);
  }

  lemma StateKept(v: Server)
    requires Orderly(v)
    ensures v.app.closed ==> v.app.state == AsDown
  {}

  lemma RetryOrderly(cfg: Config, v: Server, b: Budget)
    requires Orderly(v)
    ensures var (w, c) := Step(cfg, v, b, RetryTimer); Keeps(v, b, w, c)
  {
    hide Forget, Members, QueueSize, OwedBytes;
  }

  /** Every step keeps the accounting exact. */
  lemma StepOrderly(cfg: Config, v: Server, b: Budget, act: Act)
    requires Orderly(v) && Enabled(cfg, v, act) && CleanExpiry(v, act)
    ensures var (w, c) := Step(cfg, v, b, act); Keeps(v, b, w, c)
  {
    hide Orderly, Enabled, Step, Keeps, CleanExpiry;
    if IsMembership(act) {
      MembershipOrderly(cfg, v, b, act);
    } else {
      match act
      case Offer(_, _, _) => OfferOrderly(cfg, v, b, act);
      case SenderResumes => SenderOrderly(cfg, v, b);
      case DrainPops => DrainOrderly(cfg, v, b);
      case Ends => EndsOrderly(cfg, v, b);
      case Shut => ShutOrderly(cfg, v, b);
      case TimerFires(_) => ExpiryOrderly(cfg, v, b, act);
      case Pays(_) => PayOrderly(cfg, v, b, act);
      case ModeSet(_) => ModeOrderly(cfg, v, b, act);
      case ModeAgreed(_) => ModeOrderly(cfg, v, b, act);
      case RetryTimer => RetryOrderly(cfg, v, b);
      case _ => WriteOrderly(cfg, v, b, act);
    }
  }

  lemma EndsOrderly(cfg: Config, v: Server, b: Budget)
    requires Orderly(v) && Enabled(cfg, v, Ends)
    ensures var (w, c) := Step(cfg, v, b, Ends); Keeps(v, b, w, c)
  {
    if v.wire.Sending? { SendEndsOrderly(cfg, v, b); } else { DrainEndsOrderly(cfg, v, b); }
  }

  // ---- Order of first attempts ----

  function QueueIds(queue: seq<Item>): seq<nat> {
    seq(|queue|, i requires 0 <= i < |queue| => queue[i].message.id)
  }

  /** The retained messages, the one in the slot or on the wire first. */
  function Ids(v: Server): seq<nat> {
    (if v.waiting.Some? then [v.waiting.value.id] else if v.wire.Free? then [] else [MessageOf(v.wire).id]) + QueueIds(v.app.queue)
  }

  ghost predicate Increasing(ids: seq<nat>) {
    forall i, j :: 0 <= i < j < |ids| ==> ids[i] < ids[j]
  }

  /** Messages are retained in the order of acceptance, and none is attempted for the first
      time after a later one. */
  ghost predicate Ordered(v: Server) {
    && Increasing(Ids(v)) && (forall id :: id in Ids(v) ==> id < v.nextId)
    && Increasing(v.history.firsts) && (forall id :: id in v.history.firsts ==> id < v.nextId)
    && (Ids(v) != [] ==> forall id :: id in v.history.firsts ==> id <= Ids(v)[0])
  }

  /** Messages leave at the head, or all but the first few at once. */
  ghost predicate Shrinks(before: seq<nat>, after: seq<nat>) {
    after == before || (before != [] && after == before[1..]) || (|after| <= |before| && after == before[..|after|])
  }

  lemma ShrinkIncreasing(before: seq<nat>, after: seq<nat>)
    requires Increasing(before) && Shrinks(before, after)
    ensures Increasing(after) && (forall id :: id in after ==> id in before)
    ensures after != [] ==> before != [] && before[0] <= after[0]
  {}

  lemma ShrinkKeepsOrder(v: Server, w: Server)
    requires Ordered(v) && w.history.firsts == v.history.firsts && w.nextId >= v.nextId && Shrinks(Ids(v), Ids(w))
    ensures Ordered(w)
  {
    hide Ids, Shrinks;
    ShrinkIncreasing(Ids(v), Ids(w));
  }

  lemma GrowIncreasing(before: seq<nat>, next: nat)
    requires Increasing(before) && forall id :: id in before ==> id < next
    ensures Increasing(before + [next])
  {
    forall i, j | 0 <= i < j < |before + [next]| ensures (before + [next])[i] < (before + [next])[j] {
      if j == |before| { assert before[i] in before; }
    }
  }

  lemma GrowKeepsOrder(v: Server, w: Server)
    requires Ordered(v) && w.history.firsts == v.history.firsts && w.nextId > v.nextId && Ids(w) == Ids(v) + [v.nextId]
    ensures Ordered(w)
  {
    hide Ids;
    GrowIncreasing(Ids(v), v.nextId);
    forall id | id in Ids(w) ensures id < w.nextId {
      assert id in Ids(v) || id == v.nextId;
    }
  }

  lemma SameIds(before: seq<Item>, after: seq<Item>)
    requires SameItems(before, after)
    ensures QueueIds(after) == QueueIds(before)
  {}

  lemma MembershipOrder(cfg: Config, v: Server, b: Budget, act: Act)
    requires IsMembership(act) && Enabled(cfg, v, act)
    ensures Ids(Step(cfg, v, b, act).0) == Ids(v)
  {
    hide Membership;
    MembershipShifts(cfg.policy, v.app, act);
    SameIds(v.app.queue, Membership(cfg.policy, v.app, act).queue);
  }

  lemma OfferOrder(cfg: Config, v: Server, b: Budget, act: Act)
    requires act.Offer? && Orderly(v) && Enabled(cfg, v, act)
    ensures var w := Step(cfg, v, b, act).0; Ids(w) == Ids(v) || Ids(w) == Ids(v) + [v.nextId]
  {
    hide Forget, QueueFull, CanClaim, QueueSize;
    var m := Message(v.nextId, act.flow, act.sls, act.size);
    assert QueueIds(v.app.queue + [Item(m, QueuedGeneration(v.app), None)]) == QueueIds(v.app.queue) + [v.nextId];
  }

  lemma SenderOrder(cfg: Config, v: Server, b: Budget)
    requires Orderly(v) && Enabled(cfg, v, SenderResumes)
    ensures Shrinks(Ids(v), Ids(Step(cfg, v, b, SenderResumes).0))
  {
    hide Forget, QueueSize;
    var item := Item(v.waiting.value, QueuedGeneration(v.app), None);
    assert QueueIds([item] + v.app.queue) == [item.message.id] + QueueIds(v.app.queue);
  }

  lemma DrainOrder(cfg: Config, v: Server, b: Budget)
    requires Orderly(v) && Enabled(cfg, v, DrainPops)
    ensures Ids(Step(cfg, v, b, DrainPops).0) == Ids(v)
  {
    hide Forget, QueueSize;
    assert v.waiting.None?;
    if v.app.queue != [] {
      assert QueueIds(v.app.queue) == [v.app.queue[0].message.id] + QueueIds(v.app.queue[1..]);
    }
  }

  lemma EndOrder(cfg: Config, v: Server, b: Budget)
    requires Orderly(v) && Enabled(cfg, v, Ends)
    ensures Shrinks(Ids(v), Ids(Step(cfg, v, b, Ends).0))
  {
    hide Forget, QueueSize, EndFailedDrain, EndSend, Restores;
    assert v.waiting.None?;
    match v.wire
    case Sending(m, _) => EndSendShape(v.app, m);
    case Draining(item, attempt) =>
      var back := PutBack(v.app, item.(retry := attempt.next));
      EndFailedShape(v.app, item.(retry := attempt.next));
      assert QueueIds([back] + v.app.queue) == [back.message.id] + QueueIds(v.app.queue);
  }

  lemma TimersOrder(cfg: Config, v: Server, b: Budget, act: Act)
    requires act.Shut? || act.TimerFires? || act.Pays? || act.ModeSet? || act.ModeAgreed? || act.RetryTimer?
    requires Enabled(cfg, v, act)
    ensures Shrinks(Ids(v), Ids(Step(cfg, v, b, act).0))
  {
    hide Members, Forget, Shrinks;
    var w := Step(cfg, v, b, act).0;
    TimersQueue(cfg, v, b, act);
    ShrinksByQueue(v, w);
  }

  lemma TimersQueue(cfg: Config, v: Server, b: Budget, act: Act)
    requires act.Shut? || act.TimerFires? || act.Pays? || act.ModeSet? || act.ModeAgreed? || act.RetryTimer?
    requires Enabled(cfg, v, act)
    ensures var w := Step(cfg, v, b, act).0; w.waiting == v.waiting && w.wire == v.wire && (w.app.queue == v.app.queue || w.app.queue == [])
  {
    hide Members, Forget, SetMode, AgreeMode;
    match act
    case ModeSet(mode) => ModeOnly(cfg.policy, v.app, mode);
    case ModeAgreed(mode) => ModeOnly(cfg.policy, v.app, mode);
    case _ =>
  }

  lemma ShrinksByQueue(v: Server, w: Server)
    requires w.waiting == v.waiting && w.wire == v.wire && (w.app.queue == v.app.queue || w.app.queue == [])
    ensures Shrinks(Ids(v), Ids(w))
  {
    if w.app.queue == [] { assert QueueIds([]) == []; }
  }

  /** A message is first attempted only after every message accepted before it that is still
      retained. */
  lemma ChooseOrder(v: Server)
    requires Orderly(v) && Ordered(v) && !v.wire.Free?
    ensures Ordered(Choosing(v))
  {
    hide Select, QueueSize;
    assert v.waiting.None?;
    var id := MessageOf(v.wire).id;
    assert Ids(v)[0] == id && id in Ids(v);
    assert Ids(Choosing(v)) == Ids(v);
    var firsts := Choosing(v).history.firsts;
    forall f | f in firsts ensures f <= id && f < v.nextId {
      if f in v.history.firsts {} else { assert f == id; }
    }
    if id !in v.history.firsts {
      forall i, j | 0 <= i < j < |firsts| ensures firsts[i] < firsts[j] {
        if j == |v.history.firsts| { assert v.history.firsts[i] in v.history.firsts; }
      }
    }
  }

  lemma StepOrdered(cfg: Config, v: Server, b: Budget, act: Act)
    requires Orderly(v) && Ordered(v) && Enabled(cfg, v, act)
    ensures Ordered(Step(cfg, v, b, act).0)
  {
    hide Orderly, Ordered, Enabled, Ids, Step;
    var w := Step(cfg, v, b, act).0;
    if act.Choose? {
      ChoosingStep(cfg, v, b);
      ChooseOrder(v);
    } else {
      FirstsKept(cfg, v, b, act);
      if IsMembership(act) {
        MembershipOrder(cfg, v, b, act);
      } else {
        match act
        case Offer(_, _, _) => OfferOrder(cfg, v, b, act);
        case SenderResumes => SenderOrder(cfg, v, b);
        case DrainPops => DrainOrder(cfg, v, b);
        case Ends => EndOrder(cfg, v, b);
        case WriteOk => WriteOrder(cfg, v, b, act);
        case WriteFails => WriteOrder(cfg, v, b, act);
        case Mark => WriteOrder(cfg, v, b, act);
        case _ => TimersOrder(cfg, v, b, act);
      }
      if act.Offer? && Ids(w) != Ids(v) { GrowKeepsOrder(v, w); } else { ShrinkKeepsOrder(v, w); }
    }
  }

  lemma ChoosingStep(cfg: Config, v: Server, b: Budget)
    requires Enabled(cfg, v, Choose)
    ensures !v.wire.Free? && Step(cfg, v, b, Choose).0 == Choosing(v)
  {}

  lemma WriteOrder(cfg: Config, v: Server, b: Budget, act: Act)
    requires act.WriteOk? || act.WriteFails? || act.Mark?
    requires Enabled(cfg, v, act)
    ensures Ids(Step(cfg, v, b, act).0) == Ids(v)
  {}

  lemma FirstsKept(cfg: Config, v: Server, b: Budget, act: Act)
    requires Enabled(cfg, v, act) && !act.Choose?
    ensures var w := Step(cfg, v, b, act).0;
            && w.history.firsts == v.history.firsts && w.nextId >= v.nextId && (act.Offer? ==> w.nextId > v.nextId)
  {
    hide Membership;
  }

  // ---- Whole runs ----

  predicate CleanRun(states: seq<System>, steps: seq<(nat, Act)>)
    requires |states| == |steps| + 1
  {
    forall n :: 0 <= n < |steps| && steps[n].0 < |states[n].servers| ==> CleanExpiry(states[n].servers[steps[n].0], steps[n].1)
  }

  function HeldInAll(servers: seq<Server>): int {
    if servers == [] then 0 else HeldInAll(servers[..|servers| - 1]) + HeldBytes(servers[|servers| - 1])
  }

  lemma {:induction false} ReplaceHeld(servers: seq<Server>, i: nat, v: Server)
    requires i < |servers|
    ensures HeldInAll(servers[i := v]) == HeldInAll(servers) - HeldBytes(servers[i]) + HeldBytes(v)
  {
    var last := |servers| - 1;
    if i == last {
      assert servers[i := v][..last] == servers[..last];
    } else {
      assert servers[i := v][..last] == servers[..last][i := v];
      ReplaceHeld(servers[..last], i, v);
    }
  }

  lemma {:induction false} NothingHeld(servers: seq<Server>)
    requires forall i :: 0 <= i < |servers| ==> servers[i] == NewServer()
    ensures HeldInAll(servers) == 0
  {
    hide HeldBytes, NewServer;
    if servers != [] {
      NothingHeld(servers[..|servers| - 1]);
      NewHoldsNothing();
    }
  }

  lemma NewHoldsNothing()
    ensures HeldBytes(NewServer()) == 0
  {}

  ghost predicate AllOrderly(s: System) {
    forall i :: 0 <= i < |s.servers| ==> Orderly(s.servers[i]) && Ordered(s.servers[i])
  }

  lemma NewIsOrderly()
    ensures Orderly(NewServer()) && Ordered(NewServer())
  {
    NewIsBalanced();
    NewIsOrdered();
  }

  lemma NewIsBalanced()
    ensures Orderly(NewServer())
  {
    assert QueueSize([]) == 0;
  }

  lemma NewIsOrdered()
    ensures Ordered(NewServer())
  {
    assert Ids(NewServer()) == [];
  }

  lemma CleanPrefix(states: seq<System>, steps: seq<(nat, Act)>)
    requires |states| == |steps| + 1 && steps != [] && CleanRun(states, steps)
    ensures CleanRun(states[..|steps|], steps[..|steps| - 1])
  {
    hide CleanExpiry;
    var n := |steps| - 1;
    forall k | 0 <= k < n && steps[..n][k].0 < |states[..n + 1][k].servers|
      ensures CleanExpiry(states[..n + 1][k].servers[steps[..n][k].0], steps[..n][k].1)
    {
      assert steps[..n][k] == steps[k] && states[..n + 1][k] == states[k];
    }
  }

  /** distribution.go:381-509, 687-764, 801-813; as.go:1816-1847. In every run whose
      effective T(r) expiries find `draining` false: an active send and a drain are never under
      way together, first delivery attempts follow the order of
      acceptance, each Application Server's byte count is that of its queue and of the
      message in flight, and the shared byte count is the sum over all. */
  lemma {:induction false} CleanRunsAreOrderly(cfg: seq<Config>, states: seq<System>, steps: seq<(nat, Act)>)
    requires IsRun(cfg, states, steps) && |states| == |steps| + 1 && CleanRun(states, steps)
    ensures var s := states[|steps|]; AllOrderly(s) && s.budget.bytes == HeldInAll(s.servers) && |s.servers| == |cfg|
  {
    hide AllOrderly, HeldInAll, CleanRun, IsRun, SystemEnabled, SystemStep, CleanExpiry;
    if steps == [] {
      StartIsOrderly(cfg, states, steps);
    } else {
      var n := |steps| - 1;
      CleanPrefix(states, steps);
      RunPrefix(cfg, states, steps);
      CleanRunsAreOrderly(cfg, states[..n + 1], steps[..n]);
      LastIsClean(cfg, states, steps);
      OrderlySystemStep(cfg, states[n], steps[n].0, steps[n].1);
    }
  }

  lemma StartIsOrderly(cfg: seq<Config>, states: seq<System>, steps: seq<(nat, Act)>)
    requires IsRun(cfg, states, steps) && steps == []
    ensures var s := states[0]; AllOrderly(s) && s.budget.bytes == HeldInAll(s.servers) && |s.servers| == |cfg|
  {
    hide Orderly, Ordered, NewServer;
    NothingHeld(states[0].servers);
    NewIsOrderly();
  }

  lemma LastIsClean(cfg: seq<Config>, states: seq<System>, steps: seq<(nat, Act)>)
    requires IsRun(cfg, states, steps) && CleanRun(states, steps) && steps != []
    ensures var n := |steps| - 1;
            && SystemEnabled(cfg, states[n], steps[n].0, steps[n].1)
            && states[n + 1] == SystemStep(cfg, states[n], steps[n].0, steps[n].1)
            && CleanExpiry(states[n].servers[steps[n].0], steps[n].1)
            && |states[n + 1].servers| == |states[n].servers|
  {
    hide Enabled, Step, CleanExpiry;
  }

  lemma OrderlySystemStep(cfg: seq<Config>, s: System, i: nat, act: Act)
    requires SystemEnabled(cfg, s, i, act) && AllOrderly(s) && CleanExpiry(s.servers[i], act)
    requires s.budget.bytes == HeldInAll(s.servers)
    ensures var t := SystemStep(cfg, s, i, act); AllOrderly(t) && t.budget.bytes == HeldInAll(t.servers)
  {
    hide Orderly, Ordered, Step, Enabled;
    StepOrderly(cfg[i], s.servers[i], s.budget, act);
    StepOrdered(cfg[i], s.servers[i], s.budget, act);
    ReplaceHeld(s.servers, i, Step(cfg[i], s.servers[i], s.budget, act).0);
  }

  // ---- No accounting panic ----

  /** finishDeliveryItemLocked or the budget's release found a negative count. */
  predicate Panics(s: System) {
    BudgetPanics(s.budget) || exists i :: 0 <= i < |s.servers| && s.servers[i].app.queueBytes < 0
  }

  lemma {:induction false} SizeNonnegative(owed: seq<Owed>)
    requires forall i :: 0 <= i < |owed| ==> owed[i].bytes >= 0
    ensures OwedBytes(owed) >= 0
  {
    if owed != [] { SizeNonnegative(owed[..|owed| - 1]); }
  }

  lemma {:induction false} HeldNonnegative(servers: seq<Server>)
    requires forall i :: 0 <= i < |servers| ==> Orderly(servers[i])
    ensures HeldInAll(servers) >= 0
  {
    if servers != [] {
      HeldNonnegative(servers[..|servers| - 1]);
      SizeNonnegative(servers[|servers| - 1].owed);
    }
  }

  /** No underflow panic is reachable in such a run. */
  lemma CleanRunsDoNotPanic(cfg: seq<Config>, states: seq<System>, steps: seq<(nat, Act)>)
    requires IsRun(cfg, states, steps) && CleanRun(states, steps)
    ensures !Panics(states[|steps|])
  {
    CleanRunsAreOrderly(cfg, states, steps);
    BudgetCountsMessages(cfg, states, steps);
    HeldNonnegative(states[|steps|].servers);
  }
}
