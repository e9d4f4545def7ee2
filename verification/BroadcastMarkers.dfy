/** The Broadcast synchronization marker of RFC 4666 section 4.3.4.3 in every interleaving: a
    first attempt left unmarked reaches only ASPs that have accepted a marked message of the
    flow since their latest activation. */
module BroadcastMarkers {
  import opened Common
  import opened AsState
  import opened AsMachine
  import opened Distribution
  import opened MessageBudget
  import opened AcceptedOnce
  import opened ServerRuns

  /** Every active ASP has accepted a marked message of the flow, or is still to be written. */
  ghost predicate Covered(h: History, asps: map<Asp, AspState>, flow: Flow, targets: seq<Asp>) {
    forall t :: t in asps && asps[t] == AspActive ==> (flow, t) in h.synced || t in targets
  }

  /** An attempt's marker belongs to an epoch up to the present one, and in the present one it
      has reached or is to reach every active ASP. */
  ghost predicate Pending(a: App, h: History, flow: Flow, targets: seq<Asp>, epoch: nat, marker: bool) {
    && epoch <= a.epoch && (marker ==> a.mode == Broadcast && epoch != 0)
    && (marker && epoch == a.epoch ==> Covered(h, a.asps, flow, targets))
  }

  ghost predicate RetryPending(a: App, h: History, flow: Flow, retry: Option<Retry>) {
    retry.Some? ==> Pending(a, h, flow, retry.value.targets, retry.value.epoch, retry.value.marker)
  }

  ghost predicate AttemptPending(a: App, h: History, flow: Flow, retry: Option<Retry>, attempt: Attempt) {
    match attempt
    case Unchosen => RetryPending(a, h, flow, retry)
    case Writing(left, failed, _, epoch, marker) => Pending(a, h, flow, left + failed, epoch, marker)
    case Written(_, next) => RetryPending(a, h, flow, next)
  }

  ghost predicate WirePending(a: App, h: History, wire: Wire) {
    !wire.Free? ==> AttemptPending(a, h, MessageOf(wire).flow, RetryOf(wire), AttemptOf(wire))
  }

  ghost predicate ItemPending(a: App, h: History, item: Item) {
    RetryPending(a, h, item.message.flow, item.retry)
  }

  ghost predicate QueuePending(a: App, h: History, queue: seq<Item>) {
    forall i :: 0 <= i < |queue| ==> ItemPending(a, h, queue[i])
  }

  /** A flow is tagged only in the present epoch, once every active ASP has had its marker. */
  ghost predicate TagsOk(a: App, h: History) {
    && (a.mode != Broadcast ==> a.epoch == 0 && a.tagged == map[])
    && (forall f {:trigger a.tagged[f]} :: f in a.tagged ==> a.tagged[f] == a.epoch && a.epoch != 0 && Covered(h, a.asps, f, []))
  }

  ghost predicate Markers(v: Server) {
    TagsOk(v.app, v.history) && QueuePending(v.app, v.history, v.app.queue) && WirePending(v.app, v.history, v.wire)
  }

  // ---- Membership and mode ----

  /** What a critical section does to epoch and tags: an activation under Broadcast starts an
      epoch with no flow tagged. */
  ghost predicate Notes(a: App, b: App) {
    && (b.mode == a.mode || a.mode == NoMode) && b.epoch >= a.epoch
    && (b.mode != Broadcast ==> b.epoch == a.epoch && b.tagged == a.tagged)
    && (SameEpochNotes(a, b) || (b.tagged == map[] && (b.epoch > a.epoch || a.mode != Broadcast)))
  }

  ghost predicate SameEpochNotes(a: App, b: App) {
    b.mode == a.mode && b.epoch == a.epoch && b.tagged == a.tagged && (Activated(a, b) == {} || a.mode != Broadcast)
  }

  lemma RecomputedNotes(policy: Policy, a: App, b: App, listing: seq<Asp>)
    requires b == a.(asps := b.asps, epoch := b.epoch, tagged := b.tagged) && Notes(a, b)
    ensures Notes(a, Recomputed(policy, b, listing)) && Notes(a, StartDrain(Recomputed(policy, b, listing)))
  {
    hide Recomputed, StartDrain, Activated;
    var r := Recomputed(policy, b, listing);
    RecomputedShifts(policy, a.(mode := b.mode), b, listing);
    SameAspsActivated(a, b, r);
    StartDrainEpoch(r);
    SameAspsActivated(a, b, StartDrain(r));
  }

  lemma SameAspsActivated(a: App, b: App, c: App)
    requires c.asps == b.asps
    ensures Activated(a, c) == Activated(a, b)
  {}

  lemma RecordNotes(policy: Policy, a: App, c: Asp, st: AspState, ifAbsent: bool, listing: seq<Asp>)
    requires a.mode != Broadcast ==> a.epoch == 0 && a.tagged == map[]
    ensures Notes(a, RecordState(policy, a, c, st, ifAbsent, listing))
  {
    hide Recomputed, StartDrain, Activated, Joined;
    SameNotes(a, a);
    if !a.closed {
      var joined := if c in a.asps && ifAbsent then a else Joined(a, c, st);
      JoinedOnly(a, c, st);
      JoinedNotes(a, c, st);
      RecomputedNotes(policy, a, joined, listing);
    }
  }

  lemma JoinedNotes(a: App, c: Asp, st: AspState)
    requires a.mode != Broadcast ==> a.epoch == 0 && a.tagged == map[]
    ensures Notes(a, Joined(a, c, st))
  {
    hide NoteActivation;
    var placed := a.(asps := a.asps[c := st]);
    NoteTags(placed);
    if !(st == AspActive && !(c in a.asps && a.asps[c] == AspActive)) { assert Activated(a, placed) == {}; }
  }

  lemma FewerNotes(policy: Policy, a: App, asps: map<Asp, AspState>, listing: seq<Asp>)
    requires forall c :: c in asps && asps[c] == AspActive ==> c in a.asps && a.asps[c] == AspActive
    ensures Notes(a, Recomputed(policy, a.(asps := asps), listing))
  {
    hide Recomputed, StartDrain;
    assert Activated(a, a.(asps := asps)) == {};
    RecomputedNotes(policy, a, a.(asps := asps), listing);
  }

  lemma OverrideNotes(policy: Policy, a: App, c: Asp, listing: seq<Asp>)
    requires a.mode == Override
    ensures Notes(a, ActivateOverride(policy, a, c, listing))
  {
    hide Recomputed, StartDrain;
    var next := a.(asps := Overridden(a.asps, c));
    RecomputedNotes(policy, a, next, listing);
    StartDrainEpoch(next);
  }

  lemma StartDrainEpoch(a: App)
    ensures var b := StartDrain(a); b.mode == a.mode && b.epoch == a.epoch && b.tagged == a.tagged && b.asps == a.asps
  {}

  lemma MembershipNotes(policy: Policy, a: App, act: Act)
    requires IsMembership(act) && (act.OverrideBy? ==> a.mode == Override)
    requires a.mode != Broadcast ==> a.epoch == 0 && a.tagged == map[]
    ensures Notes(a, Membership(policy, a, act))
  {
    hide Notes, Recomputed, RecordState, ActivateOverride;
    SameNotes(a, a);
    match act
    case Record(c, st, ifAbsent, listing) => RecordNotes(policy, a, c, st, ifAbsent, listing);
    case Down(c, listing) => FewerNotes(policy, a, a.asps[c := AspDown], listing);
    case Inactivate(cs, listing) => FewerNotes(policy, a, MarkedInactive(a.asps, cs), listing);
    case OverrideBy(c, listing) => OverrideNotes(policy, a, c, listing);
    case Drop(c, listing) => FewerNotes(policy, a, a.asps - {c}, listing);
    case Relist(listing) => SameNotes(a, a.(active := listing));
  }

  lemma SameNotes(a: App, b: App)
    requires b.mode == a.mode && b.epoch == a.epoch && b.tagged == a.tagged && b.asps == a.asps
    ensures Notes(a, b)
  {
    assert Activated(a, b) == {};
  }

  // ---- Entering a critical section ----

  lemma CoveredAfter(h: History, a: App, b: App, flow: Flow, targets: seq<Asp>)
    requires Covered(h, a.asps, flow, targets) && Activated(a, b) == {}
    ensures Covered(Forget(h, a, b), b.asps, flow, targets)
  {
    forall t | t in b.asps && b.asps[t] == AspActive ensures (flow, t) in Forget(h, a, b).synced || t in targets {
      assert t !in Activated(a, b);
    }
  }

  lemma PendingAfter(h: History, a: App, b: App, flow: Flow, targets: seq<Asp>, epoch: nat, marker: bool)
    requires Notes(a, b) && Pending(a, h, flow, targets, epoch, marker)
    ensures Pending(b, Forget(h, a, b), flow, targets, epoch, marker)
  {
    hide Forget, Activated, Covered;
    if marker && epoch == b.epoch { CoveredAfter(h, a, b, flow, targets); }
  }

  lemma RetryAfter(h: History, a: App, b: App, flow: Flow, retry: Option<Retry>)
    requires Notes(a, b) && RetryPending(a, h, flow, retry)
    ensures RetryPending(b, Forget(h, a, b), flow, retry)
  {
    hide Forget, Notes, Pending;
    if retry.Some? { PendingAfter(h, a, b, flow, retry.value.targets, retry.value.epoch, retry.value.marker); }
  }

  lemma WireAfter(h: History, a: App, b: App, wire: Wire)
    requires Notes(a, b) && WirePending(a, h, wire)
    ensures WirePending(b, Forget(h, a, b), wire)
  {
    hide Forget, Notes, Pending, RetryPending;
    if !wire.Free? {
      var flow := MessageOf(wire).flow;
      match AttemptOf(wire)
      case Unchosen => RetryAfter(h, a, b, flow, RetryOf(wire));
      case Writing(left, failed, _, epoch, marker) => PendingAfter(h, a, b, flow, left + failed, epoch, marker);
      case Written(_, next) => RetryAfter(h, a, b, flow, next);
    }
  }

  lemma QueueAfter(h: History, a: App, b: App, queue: seq<Item>)
    requires Notes(a, b) && QueuePending(a, h, queue)
    ensures QueuePending(b, Forget(h, a, b), queue)
  {
    hide Forget, Notes, RetryPending;
    forall i | 0 <= i < |queue| ensures ItemPending(b, Forget(h, a, b), queue[i]) {
      assert ItemPending(a, h, queue[i]);
      RetryAfter(h, a, b, queue[i].message.flow, queue[i].retry);
    }
  }

  lemma TagsAfter(h: History, a: App, b: App)
    requires Notes(a, b) && TagsOk(a, h)
    ensures TagsOk(b, Forget(h, a, b))
  {
    hide Forget, Activated, Covered;
    forall f | f in b.tagged ensures b.tagged[f] == b.epoch && b.epoch != 0 && Covered(Forget(h, a, b), b.asps, f, []) {
      assert a.tagged[f] == a.epoch;
      CoveredAfter(h, a, b, f, []);
    }
  }

  lemma SameItemsPending(a: App, h: History, before: seq<Item>, after: seq<Item>)
    requires QueuePending(a, h, before) && (SameItems(before, after) || after == [])
    ensures QueuePending(a, h, after)
  {
    hide RetryPending;
    forall i | 0 <= i < |after| ensures ItemPending(a, h, after[i]) {
      assert ItemPending(a, h, before[i]);
    }
  }

  /** A critical section that keeps or clears the queue. */
  lemma EnteredMarkers(v: Server, b: App)
    requires Markers(v) && Notes(v.app, b) && (SameItems(v.app.queue, b.queue) || b.queue == [])
    ensures Markers(Entered(v, b))
  {
    hide Forget, Notes, TagsOk, QueuePending, WirePending, SameItems;
    TagsAfter(v.history, v.app, b);
    QueueAfter(v.history, v.app, b, v.app.queue);
    SameItemsPending(b, Forget(v.history, v.app, b), v.app.queue, b.queue);
    WireAfter(v.history, v.app, b, v.wire);
  }

  // ---- Traffic ----

  /** Moving messages leaves epoch, tags and members alone; what was pending stays so. */
  lemma TrafficPending(v: Server, b: App)
    requires Markers(v) && b.mode == v.app.mode && b.epoch == v.app.epoch && b.tagged == v.app.tagged && b.asps == v.app.asps
    ensures var h := Forget(v.history, v.app, b);
            TagsOk(b, h) && QueuePending(b, h, v.app.queue) && WirePending(b, h, v.wire)
  {
    hide Forget, Notes, TagsOk, QueuePending, WirePending;
    SameNotes(v.app, b);
    TagsAfter(v.history, v.app, b);
    QueueAfter(v.history, v.app, b, v.app.queue);
    WireAfter(v.history, v.app, b, v.wire);
  }

  lemma PrependPending(a: App, h: History, queue: seq<Item>, item: Item)
    requires QueuePending(a, h, queue) && ItemPending(a, h, item)
    ensures QueuePending(a, h, [item] + queue) && QueuePending(a, h, queue + [item])
  {
    hide RetryPending;
  }

  lemma OfferMarkers(cfg: Config, v: Server, b: Budget, act: Act)
    requires act.Offer? && Markers(v) && Enabled(cfg, v, act)
    ensures Markers(Step(cfg, v, b, act).0)
  {
    hide Forget, TagsOk, QueuePending, WirePending, QueueFull, CanClaim;
    var m := Message(v.nextId, act.flow, act.sls, act.size);
    var app := BeginDistribute(cfg.limits, v.app, b, m).0;
    TrafficPending(v, app);
    PrependPending(app, Forget(v.history, v.app, app), v.app.queue, Item(m, QueuedGeneration(v.app), None));
  }

  lemma SenderMarkers(cfg: Config, v: Server, b: Budget)
    requires Markers(v) && Enabled(cfg, v, SenderResumes)
    ensures Markers(Step(cfg, v, b, SenderResumes).0)
  {
    hide Forget, TagsOk, QueuePending;
    var app := ResumeSend(v.app, v.waiting.value).0;
    TrafficPending(v, app);
    PrependPending(app, Forget(v.history, v.app, app), v.app.queue, Item(v.waiting.value, QueuedGeneration(v.app), None));
  }

  lemma DrainMarkers(cfg: Config, v: Server, b: Budget)
    requires Markers(v) && Enabled(cfg, v, DrainPops)
    ensures Markers(Step(cfg, v, b, DrainPops).0)
  {
    hide Forget, TagsOk, RetryPending;
    var app := Pop(v.app).0;
    TrafficPending(v, app);
    if v.app.queue != [] {
      var h := Forget(v.history, v.app, app);
      assert ItemPending(app, h, v.app.queue[0]);
      forall i | 0 <= i < |v.app.queue[1..]| ensures ItemPending(app, h, v.app.queue[1..][i]) {
        assert ItemPending(app, h, v.app.queue[i + 1]);
      }
    }
  }

  lemma SendEndMarkers(cfg: Config, v: Server, b: Budget)
    requires Markers(v) && Enabled(cfg, v, Ends) && v.wire.Sending?
    ensures Markers(Step(cfg, v, b, Ends).0)
  {
    hide Forget, TagsOk, QueuePending;
    TrafficPending(v, EndSend(v.app, v.wire.message));
  }

  lemma DrainEndMarkers(cfg: Config, v: Server, b: Budget)
    requires Markers(v) && Enabled(cfg, v, Ends) && v.wire.Draining?
    ensures Markers(Step(cfg, v, b, Ends).0)
  {
    hide Forget, TagsOk, QueuePending, RetryPending;
    var attempt := AttemptOf(v.wire);
    var next := v.wire.item.(retry := attempt.next);
    var app := if attempt.err then EndFailedDrain(v.app, next) else Finished(v.app, next.message.size);
    TrafficPending(v, app);
    var h := Forget(v.history, v.app, app);
    PrependPending(app, h, v.app.queue, next);
    PrependPending(app, h, v.app.queue, next.(generation := v.app.recoveryGen));
  }

  // ---- Writing ----

  lemma ChooseMarkers(cfg: Config, v: Server)
    requires Markers(v) && Machine(cfg.policy, v.app) && !v.wire.Free? && AttemptOf(v.wire).Unchosen?
    ensures Markers(Choosing(v))
  {
    hide Machine, TagsOk, QueuePending, Pending;
    var s := Select(v.app, MessageOf(v.wire), RetryOf(v.wire));
    if s.Selected? {
      assert s.targets + [] == s.targets;
      ChoosePending(cfg, v, s);
    }
    ChoosingSame(v);
    SameHistory(v.app, v.history, Choosing(v).history, v.app.queue);
  }

  lemma ChoosingSame(v: Server)
    requires !v.wire.Free?
    ensures Choosing(v).app == v.app && Choosing(v).history.synced == v.history.synced
  {}

  lemma SameHistory(a: App, h: History, g: History, queue: seq<Item>)
    requires g.synced == h.synced
    ensures TagsOk(a, g) == TagsOk(a, h) && QueuePending(a, g, queue) == QueuePending(a, h, queue)
    ensures forall flow, targets, epoch, marker :: Pending(a, g, flow, targets, epoch, marker) == Pending(a, h, flow, targets, epoch, marker)
  {
    forall flow, targets ensures Covered(g, a.asps, flow, targets) == Covered(h, a.asps, flow, targets) {}
    forall i | 0 <= i < |queue| ensures ItemPending(a, g, queue[i]) == ItemPending(a, h, queue[i]) {}
  }

  lemma ChoosePending(cfg: Config, v: Server, s: Selection)
    requires Markers(v) && Machine(cfg.policy, v.app) && !v.wire.Free? && AttemptOf(v.wire).Unchosen?
    requires s == Select(v.app, MessageOf(v.wire), RetryOf(v.wire)) && s.Selected?
    ensures Pending(v.app, v.history, MessageOf(v.wire).flow, s.targets, s.epoch, s.marker)
  {}

  /** The statement about one choice: a first attempt left unmarked in a nonzero epoch. */
  lemma UnmarkedIsSynced(cfg: Config, v: Server)
    requires Markers(v) && Machine(cfg.policy, v.app) && !v.wire.Free? && RetryOf(v.wire).None?
    requires v.app.mode == Broadcast && v.app.epoch != 0
    requires var s := Select(v.app, MessageOf(v.wire), None); s.Selected? && !s.marker
    ensures forall t :: t in Select(v.app, MessageOf(v.wire), None).targets ==> (MessageOf(v.wire).flow, t) in v.history.synced
  {
    var flow := MessageOf(v.wire).flow;
    assert v.app.tagged[flow] == v.app.epoch;
    assert Covered(v.history, v.app.asps, flow, []);
  }

  lemma MoreSynced(a: App, h: History, g: History, queue: seq<Item>)
    requires h.synced <= g.synced && TagsOk(a, h) && QueuePending(a, h, queue)
    ensures TagsOk(a, g) && QueuePending(a, g, queue)
  {
    forall f | f in a.tagged ensures a.tagged[f] == a.epoch && a.epoch != 0 && Covered(g, a.asps, f, []) {
      assert a.tagged[f] == a.epoch && Covered(h, a.asps, f, []);
    }
    forall i | 0 <= i < |queue| ensures ItemPending(a, g, queue[i]) {
      assert ItemPending(a, h, queue[i]);
    }
  }

  lemma WriteMarkers(v: Server, ok: bool)
    requires Markers(v) && !v.wire.Free? && AttemptOf(v.wire).Writing? && AttemptOf(v.wire).left != []
    ensures Markers(Wrote(v, ok))
  {
    hide TagsOk, QueuePending;
    var w := AttemptOf(v.wire);
    MoreSynced(v.app, v.history, Wrote(v, ok).history, v.app.queue);
    forall t | t in w.left + w.failed ensures t == w.left[0] || t in w.left[1..] + w.failed {}
    forall t | t in w.left + w.failed ensures t in w.left[1..] + (w.failed + [w.left[0]]) {}
  }

  lemma MarkMarkers(cfg: Config, v: Server)
    requires Markers(v) && !v.wire.Free? && AttemptOf(v.wire).Writing? && AttemptOf(v.wire).left == []
    ensures Markers(Marked(cfg, v))
  {
    hide QueuePending;
    var w := AttemptOf(v.wire);
    assert w.left + w.failed == w.failed;
    SameEpoch(v.app, Marked(cfg, v).app, v.history, v.app.queue);
  }

  lemma SameEpoch(a: App, b: App, h: History, queue: seq<Item>)
    requires b.epoch == a.epoch && b.mode == a.mode && b.asps == a.asps
    ensures QueuePending(b, h, queue) == QueuePending(a, h, queue)
  {
    forall i | 0 <= i < |queue| ensures ItemPending(b, h, queue[i]) == ItemPending(a, h, queue[i]) {}
  }

  lemma OtherMarkers(cfg: Config, v: Server, b: Budget, act: Act)
    requires Markers(v) && Enabled(cfg, v, act)
    requires IsMembership(act) || act.ModeSet? || act.ModeAgreed? || act.Shut? || act.TimerFires? || act.RetryTimer? || act.Pays?
    ensures Markers(Step(cfg, v, b, act).0)
  {
    hide Markers, Membership, Members, Notes;
    if act.Pays? {
      MarkersDepend(v, Step(cfg, v, b, act).0);
    } else {
      ModeTags(v);
      if IsMembership(act) {
        MembershipShifts(cfg.policy, v.app, act);
        MembershipNotes(cfg.policy, v.app, act);
      } else {
        ModeNotes(cfg, v, b, act);
      }
      EnteredMarkers(v, Step(cfg, v, b, act).0.app);
      MarkersDepend(Entered(v, Step(cfg, v, b, act).0.app), Step(cfg, v, b, act).0);
    }
  }

  lemma MarkersDepend(v: Server, w: Server)
    requires w.app == v.app && w.history == v.history && w.wire == v.wire
    ensures Markers(w) == Markers(v)
  {}

  lemma ModeTags(v: Server)
    requires Markers(v)
    ensures v.app.mode != Broadcast ==> v.app.epoch == 0 && v.app.tagged == map[]
  {}

  lemma ModeNotes(cfg: Config, v: Server, b: Budget, act: Act)
    requires act.ModeSet? || act.ModeAgreed? || act.Shut? || act.TimerFires? || act.RetryTimer?
    requires Enabled(cfg, v, act) && (v.app.mode != Broadcast ==> v.app.epoch == 0 && v.app.tagged == map[])
    ensures var a := Step(cfg, v, b, act).0.app; Notes(v.app, a) && (SameItems(v.app.queue, a.queue) || a.queue == [])
  {
    hide Forget, Notes, SetMode, AgreeMode, Expire, Close;
    match act
    case ModeSet(mode) => SetModeNotes(cfg.policy, v.app, mode);
    case ModeAgreed(mode) => AgreeModeNotes(v.app, mode);
    case Shut => CloseNotes(v.app);
    case TimerFires(g) => ExpireNotes(v.app, g);
    case _ => SameNotes(v.app, RetryFires(v.app));
  }

  lemma SetModeNotes(policy: Policy, a: App, mode: Mode)
    requires mode != NoMode && (a.mode != Broadcast ==> a.epoch == 0 && a.tagged == map[])
    ensures Notes(a, SetMode(policy, a, mode)) && SetMode(policy, a, mode).queue == a.queue
  {
    hide Members, Activated, NoteActivation;
    var b := SetMode(policy, a, mode);
    SameActivated(a, a);
    if b != a {
      var set_ := a.(mode := mode);
      SameActivated(a, set_);
      NoteTags(set_);
    }
  }

  lemma NoteTags(a: App)
    ensures var b := NoteActivation(a);
            if a.mode != Broadcast then b == a
            else b == a.(epoch := b.epoch, tagged := b.tagged) && b.epoch == a.epoch + 1 && b.tagged == map[]
  {}

  lemma SameActivated(a: App, b: App)
    requires b.asps == a.asps
    ensures Activated(a, b) == {}
  {}

  lemma AgreeModeNotes(a: App, mode: Mode)
    requires mode != NoMode && (a.mode != Broadcast ==> a.epoch == 0 && a.tagged == map[])
    ensures Notes(a, AgreeMode(a, mode)) && AgreeMode(a, mode).queue == a.queue
  {
    hide Activated;
    SameActivated(a, AgreeMode(a, mode));
  }

  lemma CloseNotes(a: App)
    ensures Notes(a, Close(a).0) && (Close(a).0.queue == a.queue || Close(a).0.queue == [])
  {
    SameNotes(a, Close(a).0);
  }

  lemma ExpireNotes(a: App, g: nat)
    ensures Notes(a, Expire(a, g).0) && (Expire(a, g).0.queue == a.queue || Expire(a, g).0.queue == [])
  {
    hide Members;
    SameNotes(a, Expire(a, g).0);
  }

  lemma StepMarkers(cfg: Config, v: Server, b: Budget, act: Act)
    requires Markers(v) && Machine(cfg.policy, v.app) && Enabled(cfg, v, act)
    ensures Markers(Step(cfg, v, b, act).0)
  {
    hide Markers, Machine, Entered, Choosing, Wrote, Marked, Ended;
    match act
    case Offer(_, _, _) => OfferMarkers(cfg, v, b, act);
    case SenderResumes => SenderMarkers(cfg, v, b);
    case DrainPops => DrainMarkers(cfg, v, b);
    case Ends => EndMarkers(cfg, v, b);
    case Choose => ChooseMarkers(cfg, v);
    case WriteOk => WriteMarkers(v, true);
    case WriteFails => WriteMarkers(v, false);
    case Mark => MarkMarkers(cfg, v);
    case _ => OtherMarkers(cfg, v, b, act);
  }

  lemma EndMarkers(cfg: Config, v: Server, b: Budget)
    requires Markers(v) && Enabled(cfg, v, Ends)
    ensures Markers(Step(cfg, v, b, Ends).0)
  {
    if v.wire.Sending? { SendEndMarkers(cfg, v, b); } else { DrainEndMarkers(cfg, v, b); }
  }

  // ---- Whole runs ----

  lemma {:induction false} RunMarkers(cfg: seq<Config>, states: seq<System>, steps: seq<(nat, Act)>, i: nat)
    requires IsRun(cfg, states, steps) && i < |cfg|
    ensures |states| == |steps| + 1 && i < |states[|steps|].servers| && Markers(states[|steps|].servers[i])
  {
    hide SystemEnabled, SystemStep, Markers, ServerOk, IsRun;
    RunOk(cfg, states, steps);
    if steps == [] {
      StartMarkers(cfg, states, i);
    } else {
      var n := |steps| - 1;
      RunPrefix(cfg, states, steps);
      RunMarkers(cfg, states[..n + 1], steps[..n], i);
      RunOk(cfg, states[..n + 1], steps[..n]);
      NextMarkers(cfg, states, steps, i, n);
    }
  }

  lemma StartMarkers(cfg: seq<Config>, states: seq<System>, i: nat)
    requires IsRun(cfg, states, []) && i < |cfg|
    ensures i < |states[0].servers| && Markers(states[0].servers[i])
  {}

  lemma NextMarkers(cfg: seq<Config>, states: seq<System>, steps: seq<(nat, Act)>, i: nat, n: nat)
    requires IsRun(cfg, states, steps) && |states| == |steps| + 1 && i < |cfg| && n < |steps|
    requires ServersOk(cfg, states[n]) && Markers(states[n].servers[i])
    ensures i < |states[n + 1].servers| && Markers(states[n + 1].servers[i])
  {
    hide Markers, Enabled, Step, Machine, Episodes, SlotOwned, Once;
    if steps[n].0 == i { StepMarkers(cfg[i], states[n].servers[i], states[n].budget, steps[n].1); }
  }

  /** distribution.go:546-590, 664-673; as.go:1478-1484. In every interleaving and every
      nonzero Broadcast epoch, a first attempt left unmarked goes only to ASPs that have each
      accepted a marked message of that flow since their latest activation, also after the
      flow cache was cleared at its limit. */
  lemma UnmarkedReachesSynced(cfg: seq<Config>, states: seq<System>, steps: seq<(nat, Act)>, i: nat)
    requires IsRun(cfg, states, steps) && |states| == |steps| + 1 && SystemEnabled(cfg, states[|steps|], i, Choose)
    requires var v := states[|steps|].servers[i];
             && !v.wire.Free? && RetryOf(v.wire).None? && v.app.mode == Broadcast && v.app.epoch != 0
             && var s := Select(v.app, MessageOf(v.wire), None); s.Selected? && !s.marker
    ensures var v := states[|steps|].servers[i];
            forall t :: t in Select(v.app, MessageOf(v.wire), None).targets ==> (MessageOf(v.wire).flow, t) in v.history.synced
  {
    hide Markers, Machine, Episodes, SlotOwned, Once;
    RunMarkers(cfg, states, steps, i);
    RunOk(cfg, states, steps);
    UnmarkedIsSynced(cfg[i], states[|steps|].servers[i]);
  }
}
