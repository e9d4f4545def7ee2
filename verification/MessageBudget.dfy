/** Conservation of the shared budget's message count in every interleaving. */
module MessageBudget {
  import opened Common
  import opened AsState
  import opened AsMachine
  import opened Distribution

  // ---- What membership and mode steps leave alone ----

  /** The same items in the same order, restamped at most. */
  ghost predicate SameItems(before: seq<Item>, after: seq<Item>) {
    |after| == |before| && forall i :: 0 <= i < |after| ==> after[i] == before[i].(generation := after[i].generation)
  }

  ghost predicate Shifted(a: App, b: App) {
    && SameItems(a.queue, b.queue) && b.queueBytes == a.queueBytes && b.inFlight == a.inFlight
    && b.activeSending == a.activeSending && b.expiredGen == a.expiredGen && b.closed == a.closed
    && b.recoveryGen >= a.recoveryGen
    && (a.draining ==> b.draining)
    && (b.draining && !a.draining ==> b.state == AsActive && b.queue != [] && !b.activeSending)
    && (forall i :: 0 <= i < |b.queue| ==> b.queue[i].generation == a.queue[i].generation || b.queue[i].generation == b.recoveryGen)
  }

  lemma RecomputedShifts(policy: Policy, a: App, b: App, listing: seq<Asp>)
    requires b == a.(asps := b.asps, epoch := b.epoch, tagged := b.tagged)
    ensures Shifted(a, Recomputed(policy, b, listing)) && Recomputed(policy, b, listing).draining == a.draining
    ensures Recomputed(policy, b, listing).asps == b.asps && Recomputed(policy, b, listing).mode == a.mode
    ensures Recomputed(policy, b, listing).epoch == b.epoch && Recomputed(policy, b, listing).tagged == b.tagged
  {
    hide NextState, Members, StartRecovery;
    var next := NextState(policy, b.state, |Members(b.asps, AspActive)|, |Members(b.asps, AspInactive)|);
    var stopped := b.(active := listing, state := next, armed := false);
    RecoveryRestamps(stopped);
    var started := if next == AsPending then StartRecovery(stopped) else stopped;
    assert Recomputed(policy, b, listing) ==
           if next == b.state then b.(active := listing)
           else if next != AsActive then started.(retryArmed := false) else started;
  }

  lemma RecoveryRestamps(a: App)
    ensures var b := StartRecovery(a);
            && b == a.(recoveryGen := a.recoveryGen + 1, queue := b.queue, armed := true) && SameItems(a.queue, b.queue)
            && forall i :: 0 <= i < |b.queue| ==> b.queue[i].generation == b.recoveryGen
  {
    hide Restamped;
  }

  lemma StartDrainShifts(a: App, b: App)
    requires Shifted(a, b) && b.draining == a.draining
    ensures Shifted(a, StartDrain(b))
  {}

  lemma ModeShifts(a: App, b: App)
    requires OnlyMode(a, b)
    ensures Shifted(a, b)
  {}

  lemma RelistShifts(a: App, listing: seq<Asp>)
    ensures Shifted(a, a.(active := listing))
  {}

  lemma MembershipShifts(policy: Policy, a: App, act: Act)
    requires IsMembership(act)
    ensures Shifted(a, Membership(policy, a, act))
  {
    hide Recomputed, StartDrain, NextState, Members, Shifted, Joined, Overridden, MarkedInactive;
    RelistShifts(a, a.active);
    match act
    case Record(c, st, ifAbsent, listing) =>
      var joined := if c in a.asps && ifAbsent then a else Joined(a, c, st);
      JoinedOnly(a, c, st);
      RecomputedShifts(policy, a, joined, listing);
      StartDrainShifts(a, Recomputed(policy, joined, listing));
    case Down(c, listing) => RecomputedShifts(policy, a, a.(asps := a.asps[c := AspDown]), listing);
    case Inactivate(cs, listing) => RecomputedShifts(policy, a, a.(asps := MarkedInactive(a.asps, cs)), listing);
    case OverrideBy(c, listing) =>
      var next := a.(asps := Overridden(a.asps, c));
      RecomputedShifts(policy, a, next, listing);
      StartDrainShifts(a, Recomputed(policy, next, listing));
      StartDrainShifts(a, next);
    case Drop(c, listing) => RecomputedShifts(policy, a, a.(asps := a.asps - {c}), listing);
    case Relist(listing) => RelistShifts(a, listing);
  }

  // ---- Who owns the active-send slot ----

  /** The slot is taken exactly while a sender waits for the barrier or has its message on
      the wire. */
  ghost predicate SlotOwned(v: Server) {
    && (v.app.activeSending <==> v.waiting.Some? || v.wire.Sending?)
    && !(v.waiting.Some? && v.wire.Sending?)
  }

  function OwedMessages(owed: seq<Owed>): nat {
    if owed == [] then 0 else OwedMessages(owed[..|owed| - 1]) + owed[|owed| - 1].messages
  }

  lemma {:induction false} OwedWithout(owed: seq<Owed>, i: nat)
    requires i < |owed|
    ensures OwedMessages(owed[..i] + owed[i + 1..]) == OwedMessages(owed) - owed[i].messages
  {
    var last := |owed| - 1;
    if i == last {
      assert owed[..i] + owed[i + 1..] == owed[..last];
    } else {
      var rest := owed[..i] + owed[i + 1..];
      assert rest[..|rest| - 1] == owed[..last][..i] + owed[..last][i + 1..];
      OwedWithout(owed[..last], i);
    }
  }

  lemma OwedMore(owed: seq<Owed>, o: Owed)
    ensures OwedMessages(owed + [o]) == OwedMessages(owed) + o.messages
  {
    assert (owed + [o])[..|owed|] == owed;
  }

  /** The budgeted messages of one Application Server: queued, drained onto the wire, in the
      active-send slot, and discarded but not yet given back. */
  function Retained(v: Server): nat {
    |v.app.queue| + (if v.wire.Draining? then 1 else 0) + (if v.app.activeSending then 1 else 0) + OwedMessages(v.owed)
  }

  ghost predicate Balanced(v: Server, b: Budget, w: Server, c: Budget) {
    && c.messages - b.messages == Retained(w) - Retained(v)
    && c.messageLimit == b.messageLimit && c.byteLimit == b.byteLimit
  }

  lemma OfferBalances(cfg: Config, v: Server, b: Budget, act: Act)
    requires act.Offer? && SlotOwned(v) && Enabled(cfg, v, act)
    ensures var (w, c) := Step(cfg, v, b, act); SlotOwned(w) && Balanced(v, b, w, c)
  {
    hide Forget;
  }

  lemma SenderBalances(cfg: Config, v: Server, b: Budget)
    requires SlotOwned(v) && Enabled(cfg, v, SenderResumes)
    ensures var (w, c) := Step(cfg, v, b, SenderResumes); SlotOwned(w) && Balanced(v, b, w, c)
  {
    hide Forget;
  }

  lemma DrainBalances(cfg: Config, v: Server, b: Budget)
    requires SlotOwned(v) && Enabled(cfg, v, DrainPops)
    ensures var (w, c) := Step(cfg, v, b, DrainPops); SlotOwned(w) && Balanced(v, b, w, c)
  {
    hide Forget;
  }

  lemma EndSendShape(a: App, m: Message)
    ensures var b := EndSend(a, m);
            && b == a.(activeSending := false, inFlight := 0, queueBytes := a.queueBytes - m.size,
                       draining := b.draining, retryArmed := b.retryArmed)
            && (b.draining ==> a.draining || (a.state == AsActive && a.queue != [])) && (a.draining ==> b.draining)
  {}

  /** The item as a failed drain puts it back. */
  function PutBack(a: App, item: Item): Item {
    if a.state == AsPending then item.(generation := a.recoveryGen) else item
  }

  lemma EndFailedShape(a: App, item: Item)
    ensures var b := EndFailedDrain(a, item);
            b == if Restores(a, item) then a.(queue := [PutBack(a, item)] + a.queue, inFlight := 0, draining := false, retryArmed := b.retryArmed)
                 else a.(inFlight := 0, queueBytes := a.queueBytes - item.message.size, draining := false)
  {
    hide Restores;
  }

  lemma EndSendCounts(a: App, m: Message)
    ensures var b := EndSend(a, m); |b.queue| == |a.queue| && !b.activeSending
  {}

  lemma EndFailedCounts(a: App, item: Item)
    ensures var b := EndFailedDrain(a, item);
            |b.queue| == |a.queue| + (if Restores(a, item) then 1 else 0) && b.activeSending == a.activeSending
  {}

  lemma EndBalances(cfg: Config, v: Server, b: Budget)
    requires SlotOwned(v) && Enabled(cfg, v, Ends)
    ensures var (w, c) := Step(cfg, v, b, Ends); SlotOwned(w) && Balanced(v, b, w, c)
  {
    hide Forget, EndSend, EndFailedDrain, Restores;
    match v.wire
    case Sending(m, _) => EndSendCounts(v.app, m);
    case Draining(item, attempt) => EndFailedCounts(v.app, item.(retry := attempt.next));
  }

  lemma TimersBalance(cfg: Config, v: Server, b: Budget, act: Act)
    requires act.Shut? || act.TimerFires? || act.Pays?
    requires SlotOwned(v) && Enabled(cfg, v, act)
    ensures var (w, c) := Step(cfg, v, b, act); SlotOwned(w) && Balanced(v, b, w, c)
  {
    hide Forget, Members;
    match act
    case Shut => OwedMore(v.owed, Close(v.app).1);
    case TimerFires(g) => OwedMore(v.owed, Expire(v.app, g).1);
    case Pays(i) => OwedWithout(v.owed, i);
  }

  /** Modes, choices, writes and the retry timer move no message. */
  lemma OtherBalances(cfg: Config, v: Server, b: Budget, act: Act)
    requires !IsMembership(act) && !act.Offer? && !act.SenderResumes? && !act.DrainPops? && !act.Ends?
    requires !act.Shut? && !act.TimerFires? && !act.Pays? && SlotOwned(v) && Enabled(cfg, v, act)
    ensures var (w, c) := Step(cfg, v, b, act); SlotOwned(w) && Balanced(v, b, w, c)
  {
    hide Forget, Members, Select, SetMode, AgreeMode, CommitMarker, OwedMessages;
    match act
    case ModeSet(mode) => ModeOnly(cfg.policy, v.app, mode);
    case ModeAgreed(mode) => ModeOnly(cfg.policy, v.app, mode);
    case Mark => MarkerOnly(cfg.limits, v.app, MessageOf(v.wire).flow, AttemptOf(v.wire).epoch);
    case _ =>
  }

  lemma MembershipBalances(cfg: Config, v: Server, b: Budget, act: Act)
    requires IsMembership(act) && SlotOwned(v) && Enabled(cfg, v, act)
    ensures var (w, c) := Step(cfg, v, b, act); SlotOwned(w) && Balanced(v, b, w, c)
  {
    hide Forget, Membership, Enabled, OwedMessages;
    MembershipShifts(cfg.policy, v.app, act);
  }

  /** Every step of one server changes the budget's count by as much as its own. */
  lemma StepBalances(cfg: Config, v: Server, b: Budget, act: Act)
    requires SlotOwned(v) && Enabled(cfg, v, act)
    ensures var (w, c) := Step(cfg, v, b, act); SlotOwned(w) && Balanced(v, b, w, c)
  {
    hide Step, Enabled, SlotOwned, Balanced;
    if IsMembership(act) {
      MembershipBalances(cfg, v, b, act);
    } else {
      match act
      case Offer(_, _, _) => OfferBalances(cfg, v, b, act);
      case SenderResumes => SenderBalances(cfg, v, b);
      case DrainPops => DrainBalances(cfg, v, b);
      case Ends => EndBalances(cfg, v, b);
      case Shut => TimersBalance(cfg, v, b, act);
      case TimerFires(_) => TimersBalance(cfg, v, b, act);
      case Pays(_) => TimersBalance(cfg, v, b, act);
      case _ => OtherBalances(cfg, v, b, act);
    }
  }

  // ---- All Application Servers ----

  function RetainedInAll(servers: seq<Server>): nat {
    if servers == [] then 0 else RetainedInAll(servers[..|servers| - 1]) + Retained(servers[|servers| - 1])
  }

  lemma {:induction false} ReplaceOne(servers: seq<Server>, i: nat, v: Server)
    requires i < |servers|
    ensures RetainedInAll(servers[i := v]) == RetainedInAll(servers) - Retained(servers[i]) + Retained(v)
  {
    var last := |servers| - 1;
    if i == last {
      assert servers[i := v][..last] == servers[..last];
    } else {
      assert servers[i := v][..last] == servers[..last][i := v];
      ReplaceOne(servers[..last], i, v);
    }
  }

  ghost predicate SlotsOwned(s: System) {
    forall i :: 0 <= i < |s.servers| ==> SlotOwned(s.servers[i])
  }

  lemma {:induction false} NothingRetained(servers: seq<Server>)
    requires forall i :: 0 <= i < |servers| ==> servers[i] == NewServer()
    ensures RetainedInAll(servers) == 0
  {
    if servers != [] { NothingRetained(servers[..|servers| - 1]); }
  }

  /** as.go:209-235, 1320-1344, 1816-1847; distribution.go:405-468, 705-759. In every
      interleaving the shared budget's message count is what all Application Servers retain:
      each accepted message is counted once from acceptance until it is released, whichever
      of delivery, failure, requeue, expiry or close ends it, so the count never goes below
      zero. */
  lemma {:induction false} BudgetCountsMessages(cfg: seq<Config>, states: seq<System>, steps: seq<(nat, Act)>)
    requires IsRun(cfg, states, steps)
    ensures var s := states[|steps|]; SlotsOwned(s) && s.budget.messages == RetainedInAll(s.servers) && |s.servers| == |cfg|
  {
    if steps == [] {
      NothingRetained(states[0].servers);
    } else {
      var n := |steps| - 1;
      BudgetCountsMessages(cfg, states[..n + 1], steps[..n]);
      var s, i, act := states[n], steps[n].0, steps[n].1;
      assert SystemEnabled(cfg, s, i, act);
      StepBalances(cfg[i], s.servers[i], s.budget, act);
      ReplaceOne(s.servers, i, Step(cfg[i], s.servers[i], s.budget, act).0);
    }
  }
}
