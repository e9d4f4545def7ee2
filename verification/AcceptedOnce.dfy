/** In every interleaving: no association accepts a message twice across all retries, and a
    drained Broadcast message ends only when each of its first targets has accepted it or left
    ASP-ACTIVE, unless an expiry or a close discarded it. */
module AcceptedOnce {
  import opened Common
  import opened AsState
  import opened AsMachine
  import opened Distribution
  import opened MessageBudget

  // ---- One message, wherever it is ----

  ghost predicate NobodyAccepted(h: History, id: nat) {
    forall t :: (id, t) !in h.accepted
  }

  ghost predicate NobodyOwing(h: History, id: nat) {
    forall t :: (id, t) !in h.owing
  }

  predicate NoRepeats(targets: seq<Asp>) {
    forall i, j :: 0 <= i < j < |targets| ==> targets[i] != targets[j]
  }

  /** Targets still to be written: none has accepted the message, and they include every first
      target that owes an acceptance. */
  ghost predicate Outstanding(h: History, id: nat, targets: seq<Asp>) {
    && NoRepeats(targets)
    && (forall t :: t in targets ==> (id, t) !in h.accepted)
    && (forall t :: (id, t) in h.owing ==> t in targets)
  }

  ghost predicate Untried(h: History, id: nat, retry: Option<Retry>) {
    match retry
    case None => NobodyAccepted(h, id) && NobodyOwing(h, id)
    case Some(r) => Outstanding(h, id, r.targets)
  }

  /** A single-target attempt: until its write succeeds nobody has accepted the message. */
  ghost predicate SingleTarget(h: History, id: nat, targets: seq<Asp>) {
    |targets| <= 1 && NobodyOwing(h, id) && (targets != [] ==> NobodyAccepted(h, id))
  }

  ghost predicate AttemptOk(h: History, id: nat, retry: Option<Retry>, attempt: Attempt) {
    match attempt
    case Unchosen => Untried(h, id, retry)
    case Writing(left, failed, again, _, _) =>
      Outstanding(h, id, left + failed) && (!again ==> SingleTarget(h, id, left + failed))
    case Written(err, next) =>
      if err then Untried(h, id, next) else NobodyOwing(h, id)
  }

  /** A message in the slot goes to its targets once; nothing is owed for it. */
  ghost predicate SendOk(h: History, id: nat, attempt: Attempt) {
    NobodyOwing(h, id) &&
    match attempt
    case Unchosen => NobodyAccepted(h, id)
    case Writing(left, failed, _, _, _) => NoRepeats(left + failed) && forall t :: t in left + failed ==> (id, t) !in h.accepted
    case Written(_, _) => true
  }

  ghost predicate WireOk(h: History, wire: Wire) {
    match wire
    case Free => true
    case Sending(m, attempt) => SendOk(h, m.id, attempt)
    case Draining(item, attempt) => AttemptOk(h, item.message.id, item.retry, attempt)
  }

  ghost predicate ItemOk(h: History, item: Item) {
    Untried(h, item.message.id, item.retry)
  }

  ghost predicate QueueOk(h: History, queue: seq<Item>) {
    forall i :: 0 <= i < |queue| ==> ItemOk(h, queue[i])
  }

  // ---- Every message is in one place ----

  ghost predicate InQueue(queue: seq<Item>, id: nat) {
    exists i :: 0 <= i < |queue| && queue[i].message.id == id
  }

  ghost predicate OnePlace(v: Server) {
    && (forall i, j :: 0 <= i < j < |v.app.queue| ==> v.app.queue[i].message.id != v.app.queue[j].message.id)
    && (forall i :: 0 <= i < |v.app.queue| ==> v.app.queue[i].message.id < v.nextId)
    && (v.waiting.Some? ==> v.waiting.value.id < v.nextId && !InQueue(v.app.queue, v.waiting.value.id))
    && (!v.wire.Free? ==> MessageOf(v.wire).id < v.nextId && !InQueue(v.app.queue, MessageOf(v.wire).id))
    && (v.waiting.Some? && !v.wire.Free? ==> v.waiting.value.id != MessageOf(v.wire).id)
    && (forall p :: p in v.history.accepted ==> p.0 < v.nextId)
    && (forall p :: p in v.history.owing ==> p.0 < v.nextId)
  }

  /** Owed acceptances are owed by active members. */
  ghost predicate OwingActive(v: Server) {
    forall p :: p in v.history.owing ==> p.1 in v.app.asps && v.app.asps[p.1] == AspActive
  }

  ghost predicate Once(v: Server) {
    && OnePlace(v) && OwingActive(v)
    && QueueOk(v.history, v.app.queue) && WireOk(v.history, v.wire)
    && (v.waiting.Some? ==> NobodyAccepted(v.history, v.waiting.value.id) && NobodyOwing(v.history, v.waiting.value.id))
  }

  // ---- Steps that only forget ----

  /** The same acceptances and at most the same debts. */
  ghost predicate Settles(h: History, g: History) {
    g.accepted == h.accepted && g.owing <= h.owing
  }

  lemma UntriedSettles(h: History, g: History, id: nat, retry: Option<Retry>)
    requires Settles(h, g) && Untried(h, id, retry)
    ensures Untried(g, id, retry)
  {}

  lemma WireSettles(h: History, g: History, wire: Wire)
    requires Settles(h, g) && WireOk(h, wire)
    ensures WireOk(g, wire)
  {}

  lemma QueueSettles(h: History, g: History, queue: seq<Item>, after: seq<Item>)
    requires Settles(h, g) && QueueOk(h, queue) && (SameItems(queue, after) || after == [])
    ensures QueueOk(g, after)
  {
    forall i | 0 <= i < |after| ensures ItemOk(g, after[i]) {
      assert ItemOk(h, queue[i]);
      UntriedSettles(h, g, queue[i].message.id, queue[i].retry);
    }
  }

  lemma ForgetSettles(h: History, a: App, b: App)
    ensures Settles(h, Forget(h, a, b))
    ensures forall p :: p in Forget(h, a, b).owing ==> p.1 in b.asps && b.asps[p.1] == AspActive
  {}

  /** A critical section that keeps or clears the queue keeps everything. */
  lemma EnteredOnce(v: Server, b: App)
    requires Once(v) && (SameItems(v.app.queue, b.queue) || b.queue == [])
    ensures Once(Entered(v, b))
  {
    var w := Entered(v, b);
    ForgetSettles(v.history, v.app, b);
    hide Forget, WireOk, QueueOk;
    QueueSettles(v.history, w.history, v.app.queue, b.queue);
    WireSettles(v.history, w.history, v.wire);
    SameQueueIds(v.app.queue, b.queue);
  }

  lemma SameQueueIds(before: seq<Item>, after: seq<Item>)
    requires SameItems(before, after) || after == []
    ensures forall id :: InQueue(after, id) ==> InQueue(before, id)
  {
    forall id | InQueue(after, id) ensures InQueue(before, id) {
      var i :| 0 <= i < |after| && after[i].message.id == id;
      assert before[i].message.id == id;
    }
  }

  lemma OnceDepends(v: Server, w: Server)
    requires Once(v) && w.app == v.app && w.waiting == v.waiting && w.wire == v.wire && w.history == v.history && w.nextId >= v.nextId
    ensures Once(w)
  {}

  // ---- Accepting and moving messages ----

  lemma AppendOk(h: History, queue: seq<Item>, item: Item)
    requires QueueOk(h, queue) && ItemOk(h, item)
    ensures QueueOk(h, queue + [item]) && QueueOk(h, [item] + queue)
    ensures forall id :: InQueue(queue + [item], id) <==> InQueue(queue, id) || id == item.message.id
    ensures forall id :: InQueue([item] + queue, id) <==> InQueue(queue, id) || id == item.message.id
  {
    var longer, later := queue + [item], [item] + queue;
    forall id ensures InQueue(longer, id) <==> InQueue(queue, id) || id == item.message.id {
      assert longer[|queue|] == item;
      if i :| 0 <= i < |queue| && queue[i].message.id == id { assert longer[i] == queue[i]; }
    }
    forall id ensures InQueue(later, id) <==> InQueue(queue, id) || id == item.message.id {
      assert later[0] == item;
      if i :| 0 <= i < |queue| && queue[i].message.id == id { assert later[i + 1] == queue[i]; }
    }
  }

  /** The parts of the invariant that do not concern the Application Server's own fields. */
  ghost predicate Places(queue: seq<Item>, waiting: Option<Message>, wire: Wire, next: nat, h: History) {
    && (forall i, j :: 0 <= i < j < |queue| ==> queue[i].message.id != queue[j].message.id)
    && (forall i :: 0 <= i < |queue| ==> queue[i].message.id < next)
    && (waiting.Some? ==> waiting.value.id < next && !InQueue(queue, waiting.value.id))
    && (!wire.Free? ==> MessageOf(wire).id < next && !InQueue(queue, MessageOf(wire).id))
    && (waiting.Some? && !wire.Free? ==> waiting.value.id != MessageOf(wire).id)
    && (forall p :: p in h.accepted ==> p.0 < next)
    && (forall p :: p in h.owing ==> p.0 < next)
    && QueueOk(h, queue) && WireOk(h, wire)
    && (waiting.Some? ==> NobodyAccepted(h, waiting.value.id) && NobodyOwing(h, waiting.value.id))
  }

  lemma OnceIsPlaces(v: Server)
    ensures Once(v) <==> Places(v.app.queue, v.waiting, v.wire, v.nextId, v.history) && OwingActive(v)
  {}

  lemma PlacesSettle(queue: seq<Item>, waiting: Option<Message>, wire: Wire, next: nat, h: History, g: History)
    requires Places(queue, waiting, wire, next, h) && Settles(h, g)
    ensures Places(queue, waiting, wire, next, g)
  {
    QueueSettles(h, g, queue, queue);
    WireSettles(h, g, wire);
  }

  lemma EnqueuePlaces(queue: seq<Item>, waiting: Option<Message>, wire: Wire, next: nat, h: History, item: Item)
    requires Places(queue, waiting, wire, next, h) && item.message.id == next && item.retry.None?
    ensures Places(queue + [item], waiting, wire, next + 1, h)
  {
    assert NobodyAccepted(h, next) && NobodyOwing(h, next);
    AppendOk(h, queue, item);
  }

  lemma RequeuePlaces(queue: seq<Item>, m: Message, wire: Wire, next: nat, h: History, item: Item)
    requires Places(queue, Some(m), wire, next, h) && item.message == m && item.retry.None?
    ensures Places([item] + queue, None, wire, next, h)
  {
    AppendOk(h, queue, item);
    forall i, j | 0 <= i < j < |[item] + queue|
      ensures ([item] + queue)[i].message.id != ([item] + queue)[j].message.id
    {
      if i == 0 { assert InQueue(queue, queue[j - 1].message.id); }
    }
  }

  lemma PopPlaces(queue: seq<Item>, waiting: Option<Message>, next: nat, h: History)
    requires Places(queue, waiting, Free, next, h) && queue != []
    ensures Places(queue[1..], waiting, Draining(queue[0], Unchosen), next, h)
  {
    assert ItemOk(h, queue[0]);
    assert InQueue(queue, queue[0].message.id);
    forall id | InQueue(queue[1..], id) ensures InQueue(queue, id) && id != queue[0].message.id {
      var i :| 0 <= i < |queue[1..]| && queue[1..][i].message.id == id;
      assert queue[i + 1].message.id == id;
    }
    forall i | 0 <= i < |queue[1..]| ensures ItemOk(h, queue[1..][i]) {
      assert ItemOk(h, queue[i + 1]);
    }
  }

  lemma RestorePlaces(queue: seq<Item>, waiting: Option<Message>, wire: Wire, next: nat, h: History, item: Item)
    requires Places(queue, waiting, wire, next, h) && !wire.Free? && item.message == MessageOf(wire) && ItemOk(h, item)
    ensures Places([item] + queue, waiting, Free, next, h)
  {
    AppendOk(h, queue, item);
    forall i, j | 0 <= i < j < |[item] + queue|
      ensures ([item] + queue)[i].message.id != ([item] + queue)[j].message.id
    {
      if i == 0 { assert InQueue(queue, queue[j - 1].message.id); }
    }
  }

  lemma LeavePlaces(queue: seq<Item>, waiting: Option<Message>, wire: Wire, next: nat, h: History)
    requires Places(queue, waiting, wire, next, h)
    ensures Places(queue, waiting, Free, next, h) && Places(queue, None, wire, next, h)
  {}

  lemma OwingKept(v: Server, b: App)
    ensures OwingActive(Entered(v, b))
    ensures Settles(v.history, Entered(v, b).history)
  {
    ForgetSettles(v.history, v.app, b);
  }

  // ---- The steps ----

  lemma OfferOnce(cfg: Config, v: Server, b: Budget, act: Act)
    requires act.Offer? && Once(v) && SlotOwned(v) && Enabled(cfg, v, act)
    ensures Once(Step(cfg, v, b, act).0)
  {
    hide Places, Forget, QueueFull, CanClaim, OwingActive, Once, Settles;
    OnceIsPlaces(v);
    var m := Message(v.nextId, act.flow, act.sls, act.size);
    var w := Step(cfg, v, b, act).0;
    var app := BeginDistribute(cfg.limits, v.app, b, m).0;
    OwingKept(v, app);
    OnceIsPlaces(w);
    PlacesSettle(v.app.queue, v.waiting, v.wire, v.nextId, v.history, w.history);
    EnqueuePlaces(v.app.queue, v.waiting, v.wire, v.nextId, w.history, Item(m, QueuedGeneration(v.app), None));
    SlotPlaces(v.app.queue, v.waiting, v.wire, v.nextId, w.history, m);
    OwingSame(w, Entered(v, app));
  }

  lemma SlotPlaces(queue: seq<Item>, waiting: Option<Message>, wire: Wire, next: nat, h: History, m: Message)
    requires Places(queue, waiting, wire, next, h) && m.id == next
    ensures Places(queue, Some(m), wire, next + 1, h) && Places(queue, waiting, wire, next + 1, h)
  {
    assert NobodyAccepted(h, next) && NobodyOwing(h, next);
    forall id | InQueue(queue, id) ensures id != next {}
  }

  lemma OwingSame(v: Server, w: Server)
    requires v.app == w.app && v.history == w.history
    ensures OwingActive(v) == OwingActive(w)
  {}

  lemma SenderOnce(cfg: Config, v: Server, b: Budget)
    requires Once(v) && Enabled(cfg, v, SenderResumes)
    ensures Once(Step(cfg, v, b, SenderResumes).0)
  {
    hide Places, Forget, OwingActive, Once, Settles;
    OnceIsPlaces(v);
    var m := v.waiting.value;
    var w := Step(cfg, v, b, SenderResumes).0;
    var app := ResumeSend(v.app, m).0;
    OwingKept(v, app);
    OnceIsPlaces(w);
    PlacesSettle(v.app.queue, v.waiting, v.wire, v.nextId, v.history, w.history);
    RequeuePlaces(v.app.queue, m, v.wire, v.nextId, w.history, Item(m, QueuedGeneration(v.app), None));
    LeavePlaces(v.app.queue, v.waiting, v.wire, v.nextId, w.history);
    SendingPlaces(v.app.queue, m, v.nextId, w.history);
    OwingSame(w, Entered(v, app));
  }

  lemma SendingPlaces(queue: seq<Item>, m: Message, next: nat, h: History)
    requires Places(queue, Some(m), Free, next, h)
    ensures Places(queue, None, Sending(m, Unchosen), next, h)
  {}

  lemma DrainOnce(cfg: Config, v: Server, b: Budget)
    requires Once(v) && Enabled(cfg, v, DrainPops)
    ensures Once(Step(cfg, v, b, DrainPops).0)
  {
    hide Places, Forget, OwingActive, Once, Settles;
    OnceIsPlaces(v);
    var w := Step(cfg, v, b, DrainPops).0;
    var app := Pop(v.app).0;
    OwingKept(v, app);
    OnceIsPlaces(w);
    PlacesSettle(v.app.queue, v.waiting, v.wire, v.nextId, v.history, w.history);
    if v.app.queue != [] { PopPlaces(v.app.queue, v.waiting, v.nextId, w.history); }
    OwingSame(w, Entered(v, app));
  }

  lemma EndedOnce(cfg: Config, v: Server, b: Budget)
    requires Once(v) && Enabled(cfg, v, Ends)
    ensures Once(Step(cfg, v, b, Ends).0)
  {
    if v.wire.Sending? { SendEndedOnce(cfg, v, b); } else { DrainEndedOnce(cfg, v, b); }
  }

  lemma SendEndedOnce(cfg: Config, v: Server, b: Budget)
    requires Once(v) && Enabled(cfg, v, Ends) && v.wire.Sending?
    ensures Once(Step(cfg, v, b, Ends).0)
  {
    hide Places, Forget, OwingActive, Once, Settles;
    OnceIsPlaces(v);
    var w := Step(cfg, v, b, Ends).0;
    var app := EndSend(v.app, v.wire.message);
    OwingKept(v, app);
    OnceIsPlaces(w);
    PlacesSettle(v.app.queue, v.waiting, v.wire, v.nextId, v.history, w.history);
    LeavePlaces(v.app.queue, v.waiting, v.wire, v.nextId, w.history);
    OwingSame(w, Entered(v, app));
  }

  /** The server after a drained message is done with, or given back. */
  lemma DrainEndedIs(cfg: Config, v: Server, b: Budget)
    requires Enabled(cfg, v, Ends) && v.wire.Draining?
    ensures var next, w := v.wire.item.(retry := AttemptOf(v.wire).next), Step(cfg, v, b, Ends).0;
            var app := if AttemptOf(v.wire).err then EndFailedDrain(v.app, next) else Finished(v.app, next.message.size);
            && w.app == app && w.wire == Free && w.waiting == v.waiting && w.nextId == v.nextId
            && w.history == Entered(v, app).history && Entered(v, app).app == app
  {
    hide EndFailedDrain, Restores, Forget, Finished;
  }

  lemma DrainEndedOnce(cfg: Config, v: Server, b: Budget)
    requires Once(v) && Enabled(cfg, v, Ends) && v.wire.Draining?
    ensures Once(Step(cfg, v, b, Ends).0)
  {
    hide Places, OwingActive, Once, Settles, EndFailedDrain, Restores, Step, Entered;
    OnceIsPlaces(v);
    DrainEndedIs(cfg, v, b);
    var attempt := AttemptOf(v.wire);
    var next := v.wire.item.(retry := attempt.next);
    var w := Step(cfg, v, b, Ends).0;
    OwingKept(v, w.app);
    OnceIsPlaces(w);
    PlacesSettle(v.app.queue, v.waiting, v.wire, v.nextId, v.history, w.history);
    LeavePlaces(v.app.queue, v.waiting, v.wire, v.nextId, w.history);
    if attempt.err {
      EndFailedShape(v.app, next);
      FailedItemOk(v.app.queue, v.waiting, v.wire, v.nextId, w.history, next);
      RestorePlaces(v.app.queue, v.waiting, v.wire, v.nextId, w.history, PutBack(v.app, next));
    }
    OwingSame(w, Entered(v, w.app));
  }

  lemma FailedItemOk(queue: seq<Item>, waiting: Option<Message>, wire: Wire, next: nat, h: History, item: Item)
    requires Places(queue, waiting, wire, next, h) && wire.Draining? && AttemptOf(wire).Written? && AttemptOf(wire).err
    requires item.message == MessageOf(wire) && item.retry == AttemptOf(wire).next
    ensures ItemOk(h, item)
  {}

  // ---- Writing ----

  lemma {:induction false} StillActiveNoRepeats(targets: seq<Asp>, asps: map<Asp, AspState>)
    requires NoRepeats(targets)
    ensures NoRepeats(StillActive(targets, asps))
  {
    if targets != [] {
      var before, last := targets[..|targets| - 1], targets[|targets| - 1];
      StillActiveNoRepeats(before, asps);
      assert last !in before;
    }
  }

  ghost predicate Listed(a: App) {
    Lists(a.active, a.asps) || a.active == []
  }

  lemma SelectedTargets(v: Server)
    requires !v.wire.Free? && Listed(v.app)
    requires RetryOf(v.wire).Some? ==> NoRepeats(RetryOf(v.wire).value.targets)
    requires Select(v.app, MessageOf(v.wire), RetryOf(v.wire)).Selected?
    ensures var s := Select(v.app, MessageOf(v.wire), RetryOf(v.wire));
            && NoRepeats(s.targets) && (!s.retry ==> |s.targets| == 1)
            && (forall t :: t in s.targets ==> t in v.app.asps && v.app.asps[t] == AspActive)
  {
    if RetryOf(v.wire).Some? { StillActiveNoRepeats(RetryOf(v.wire).value.targets, v.app.asps); }
  }

  /** Both histories agree about every message but one. */
  ghost predicate SameBut(h: History, g: History, id: nat) {
    && (forall p: (nat, Asp) :: p.0 != id ==> (p in g.accepted <==> p in h.accepted))
    && (forall p: (nat, Asp) :: p.0 != id ==> (p in g.owing ==> p in h.owing))
  }

  lemma OthersPlaces(queue: seq<Item>, waiting: Option<Message>, wire: Wire, next: nat, h: History, g: History, after: Wire)
    requires Places(queue, waiting, wire, next, h) && !wire.Free? && !after.Free? && MessageOf(after) == MessageOf(wire)
    requires SameBut(h, g, MessageOf(wire).id) && WireOk(g, after)
    ensures Places(queue, waiting, after, next, g)
  {
    var id := MessageOf(wire).id;
    forall i | 0 <= i < |queue| ensures ItemOk(g, queue[i]) {
      assert ItemOk(h, queue[i]);
      assert InQueue(queue, queue[i].message.id);
      OtherUntried(h, g, id, queue[i].message.id, queue[i].retry);
    }
  }

  lemma OtherUntried(h: History, g: History, id: nat, other: nat, retry: Option<Retry>)
    requires SameBut(h, g, id) && other != id && Untried(h, other, retry)
    ensures Untried(g, other, retry)
  {}

  lemma ChooseOnce(v: Server)
    requires Once(v) && !v.wire.Free? && AttemptOf(v.wire).Unchosen? && Listed(v.app)
    ensures Once(Choosing(v))
  {
    hide Places, Once, Select;
    OnceIsPlaces(v);
    var w := Choosing(v);
    OnceIsPlaces(w);
    WireOfPlaces(v.app.queue, v.waiting, v.wire, v.nextId, v.history);
    if Select(v.app, MessageOf(v.wire), RetryOf(v.wire)).Selected? {
      SelectedTargets(v);
      if v.wire.Draining? { ChooseDrain(v); } else { ChooseSend(v); }
    } else {
      NoTargetsWire(v);
    }
    OthersPlaces(v.app.queue, v.waiting, v.wire, v.nextId, v.history, w.history, w.wire);
  }

  lemma WireOfPlaces(queue: seq<Item>, waiting: Option<Message>, wire: Wire, next: nat, h: History)
    requires Places(queue, waiting, wire, next, h)
    ensures WireOk(h, wire)
    ensures forall p :: p in h.owing ==> p.0 < next
  {}

  lemma NoTargetsWire(v: Server)
    requires WireOk(v.history, v.wire) && !v.wire.Free? && AttemptOf(v.wire).Unchosen?
    requires Select(v.app, MessageOf(v.wire), RetryOf(v.wire)).NoTargets?
    ensures WireOk(Choosing(v).history, Choosing(v).wire)
  {}

  lemma ChooseSend(v: Server)
    requires WireOk(v.history, v.wire) && v.wire.Sending? && AttemptOf(v.wire).Unchosen?
    requires var s := Select(v.app, MessageOf(v.wire), RetryOf(v.wire)); s.Selected? && NoRepeats(s.targets)
    ensures WireOk(Choosing(v).history, Choosing(v).wire)
  {
    hide Select;
    var s := Select(v.app, MessageOf(v.wire), RetryOf(v.wire));
    assert s.targets + [] == s.targets;
  }

  lemma ChooseDrain(v: Server)
    requires WireOk(v.history, v.wire) && v.wire.Draining? && AttemptOf(v.wire).Unchosen? && OwingActive(v)
    requires var s := Select(v.app, MessageOf(v.wire), RetryOf(v.wire));
             && s.Selected? && NoRepeats(s.targets) && (!s.retry ==> |s.targets| == 1)
             && (forall t :: t in s.targets ==> t in v.app.asps && v.app.asps[t] == AspActive)
    ensures WireOk(Choosing(v).history, Choosing(v).wire)
    ensures OwingActive(Choosing(v)) && SameBut(v.history, Choosing(v).history, MessageOf(v.wire).id)
  {
    var s := Select(v.app, MessageOf(v.wire), RetryOf(v.wire));
    assert s.targets + [] == s.targets;
    var id, w := MessageOf(v.wire).id, Choosing(v);
    if v.wire.item.retry.Some? {
      forall t | (id, t) in w.history.owing ensures t in s.targets {
        assert (id, t) in v.history.owing && t in v.wire.item.retry.value.targets;
      }
    }
  }

  /** The write that succeeds goes to an association that has not accepted the message. */
  lemma WriteIsNew(v: Server)
    requires Once(v) && !v.wire.Free? && AttemptOf(v.wire).Writing? && AttemptOf(v.wire).left != []
    ensures (MessageOf(v.wire).id, AttemptOf(v.wire).left[0]) !in v.history.accepted
  {
    var w := AttemptOf(v.wire);
    assert w.left[0] in w.left + w.failed;
  }

  lemma NoRepeatsTail(left: seq<Asp>, failed: seq<Asp>)
    requires left != [] && NoRepeats(left + failed)
    ensures NoRepeats(left[1..] + failed) && left[0] !in left[1..] + failed
    ensures NoRepeats(left[1..] + (failed + [left[0]]))
    ensures forall t :: t in left + failed <==> t in left[1..] + failed || t == left[0]
    ensures forall t :: t in left + failed <==> t in left[1..] + (failed + [left[0]])
  {
    var whole, rest, moved := left + failed, left[1..] + failed, left[1..] + (failed + [left[0]]);
    assert whole == [left[0]] + rest && moved == rest + [left[0]];
    forall i | 0 <= i < |rest| ensures rest[i] == whole[i + 1] && rest[i] != left[0] {
      assert whole[0] == left[0];
    }
    forall t ensures t in moved <==> t in rest || t == left[0] {}
  }

  lemma WriteOkOnce(v: Server)
    requires Once(v) && !v.wire.Free? && AttemptOf(v.wire).Writing? && AttemptOf(v.wire).left != []
    ensures Once(Wrote(v, true))
  {
    hide Places, Once;
    OnceIsPlaces(v);
    var w := Wrote(v, true);
    OnceIsPlaces(w);
    WireOfPlaces(v.app.queue, v.waiting, v.wire, v.nextId, v.history);
    NoRepeatsOf(v);
    NoRepeatsTail(AttemptOf(v.wire).left, AttemptOf(v.wire).failed);
    WriteOkWire(v);
    OthersPlaces(v.app.queue, v.waiting, v.wire, v.nextId, v.history, w.history, w.wire);
  }

  lemma NoRepeatsOf(v: Server)
    requires WireOk(v.history, v.wire) && !v.wire.Free? && AttemptOf(v.wire).Writing?
    ensures NoRepeats(AttemptOf(v.wire).left + AttemptOf(v.wire).failed)
  {}

  lemma WriteOkWire(v: Server)
    requires WireOk(v.history, v.wire) && !v.wire.Free? && AttemptOf(v.wire).Writing? && AttemptOf(v.wire).left != []
    requires var left, failed := AttemptOf(v.wire).left, AttemptOf(v.wire).failed;
             && NoRepeats(left[1..] + failed) && left[0] !in left[1..] + failed
             && forall t :: t in left + failed <==> t in left[1..] + failed || t == left[0]
    ensures WireOk(Wrote(v, true).history, Wrote(v, true).wire)
    ensures SameBut(v.history, Wrote(v, true).history, MessageOf(v.wire).id)
    ensures OwingActive(v) ==> OwingActive(Wrote(v, true))
  {}

  lemma WriteFailsOnce(v: Server)
    requires Once(v) && !v.wire.Free? && AttemptOf(v.wire).Writing? && AttemptOf(v.wire).left != []
    ensures Once(Wrote(v, false))
  {
    hide Places, Once;
    OnceIsPlaces(v);
    var w := Wrote(v, false);
    OnceIsPlaces(w);
    WireOfPlaces(v.app.queue, v.waiting, v.wire, v.nextId, v.history);
    NoRepeatsOf(v);
    NoRepeatsTail(AttemptOf(v.wire).left, AttemptOf(v.wire).failed);
    WriteFailsWire(v);
    OthersPlaces(v.app.queue, v.waiting, v.wire, v.nextId, v.history, w.history, w.wire);
  }

  lemma WriteFailsWire(v: Server)
    requires WireOk(v.history, v.wire) && !v.wire.Free? && AttemptOf(v.wire).Writing? && AttemptOf(v.wire).left != []
    requires var left, failed := AttemptOf(v.wire).left, AttemptOf(v.wire).failed;
             && NoRepeats(left[1..] + (failed + [left[0]]))
             && forall t :: t in left + failed <==> t in left[1..] + (failed + [left[0]])
    ensures WireOk(Wrote(v, false).history, Wrote(v, false).wire)
  {}

  lemma MarkOnce(cfg: Config, v: Server)
    requires Once(v) && !v.wire.Free? && AttemptOf(v.wire).Writing? && AttemptOf(v.wire).left == []
    ensures Once(Marked(cfg, v))
  {
    hide Places, Once;
    OnceIsPlaces(v);
    var w := Marked(cfg, v);
    OnceIsPlaces(w);
    WireOfPlaces(v.app.queue, v.waiting, v.wire, v.nextId, v.history);
    MarkWire(cfg, v);
    OthersPlaces(v.app.queue, v.waiting, v.wire, v.nextId, v.history, w.history, w.wire);
  }

  lemma MarkWire(cfg: Config, v: Server)
    requires WireOk(v.history, v.wire) && !v.wire.Free? && AttemptOf(v.wire).Writing? && AttemptOf(v.wire).left == []
    ensures WireOk(v.history, Marked(cfg, v).wire)
    ensures OwingActive(v) ==> OwingActive(Marked(cfg, v))
  {
    assert [] + AttemptOf(v.wire).failed == AttemptOf(v.wire).failed;
  }

  lemma StepOnce(cfg: Config, v: Server, b: Budget, act: Act)
    requires Once(v) && SlotOwned(v) && Machine(cfg.policy, v.app) && Enabled(cfg, v, act)
    ensures Once(Step(cfg, v, b, act).0)
  {
    hide Once, Entered, Choosing, Wrote, Marked, Ended, Machine, SlotOwned;
    if IsMembership(act) {
      EnteredBy(cfg, v, b, act);
    } else {
      match act
      case Offer(_, _, _) => OfferOnce(cfg, v, b, act);
      case SenderResumes => SenderOnce(cfg, v, b);
      case DrainPops => DrainOnce(cfg, v, b);
      case Choose => ChooseAnyway(cfg, v);
      case WriteOk => WriteOkOnce(v);
      case WriteFails => WriteFailsOnce(v);
      case Mark => MarkOnce(cfg, v);
      case Ends => EndedOnce(cfg, v, b);
      case _ => EnteredBy(cfg, v, b, act);
    }
  }

  lemma EnteredBy(cfg: Config, v: Server, b: Budget, act: Act)
    requires Once(v) && Enabled(cfg, v, act)
    requires IsMembership(act) || act.ModeSet? || act.ModeAgreed? || act.Shut? || act.TimerFires? || act.RetryTimer? || act.Pays?
    ensures Once(Step(cfg, v, b, act).0)
  {
    hide Once, Membership, SetMode, AgreeMode, Close, Expire, RetryFires, Entered, SameItems;
    var w := Step(cfg, v, b, act).0;
    if IsMembership(act) {
      MembershipShifts(cfg.policy, v.app, act);
      EntersOnce(v, Membership(cfg.policy, v.app, act), w);
    } else {
      QueueStays(cfg.policy, v.app, act);
      match act
      case ModeSet(mode) => EntersOnce(v, SetMode(cfg.policy, v.app, mode), w);
      case ModeAgreed(mode) => EntersOnce(v, AgreeMode(v.app, mode), w);
      case Shut => EntersOnce(v, Close(v.app).0, w);
      case TimerFires(g) => EntersOnce(v, Expire(v.app, g).0, w);
      case RetryTimer => EntersOnce(v, RetryFires(v.app), w);
      case Pays(i) => OnceDepends(v, w);
    }
  }

  lemma QueueStays(policy: Policy, a: App, act: Act)
    ensures act.ModeSet? ==> SameItems(a.queue, SetMode(policy, a, act.mode).queue)
    ensures act.ModeAgreed? ==> SameItems(a.queue, AgreeMode(a, act.mode).queue)
    ensures SameItems(a.queue, Close(a).0.queue) || Close(a).0.queue == []
    ensures act.TimerFires? ==> SameItems(a.queue, Expire(a, act.generation).0.queue) || Expire(a, act.generation).0.queue == []
    ensures SameItems(a.queue, RetryFires(a).queue)
  {
    hide Members;
    if act.ModeSet? || act.ModeAgreed? { ModeOnly(policy, a, act.mode); }
  }

  lemma EntersOnce(v: Server, b: App, w: Server)
    requires Once(v) && (SameItems(v.app.queue, b.queue) || b.queue == [])
    requires w == Entered(v, b).(owed := w.owed, timers := w.timers)
    ensures Once(w)
  {
    EnteredOnce(v, b);
    OnceDepends(Entered(v, b), w);
  }

  /** Targets are listed members; after a close there are none. */
  lemma ChooseAnyway(cfg: Config, v: Server)
    requires Once(v) && Machine(cfg.policy, v.app) && !v.wire.Free? && AttemptOf(v.wire).Unchosen?
    ensures Once(Choosing(v))
  {
    ChooseOnce(v);
  }
}
