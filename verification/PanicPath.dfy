/** What one Application Server can go on to do by clean steps: come to rest, and, after a
    T(r) expiry that found a drain under way, underflow its byte count. */
module PanicPath {
  import opened Common
  import opened AsState
  import opened AsMachine
  import opened Distribution
  import opened MessageBudget
  import opened OrderlyDelivery

  // ---- Clean steps of one server ----

  ghost predicate Solo(cfg: Config, v: Server, b: Budget, acts: seq<Act>, w: Server, c: Budget)
    decreases |acts|
  {
    if acts == [] then w == v && c == b
    else
      && Enabled(cfg, v, acts[0]) && CleanExpiry(v, acts[0])
      && var (next, budget) := Step(cfg, v, b, acts[0]); Solo(cfg, next, budget, acts[1..], w, c)
  }

  /** Some clean steps of the server alone lead from one of its states to another. */
  ghost predicate Reaches(cfg: Config, v: Server, b: Budget, w: Server, c: Budget) {
    exists acts :: Solo(cfg, v, b, acts, w, c)
  }

  lemma Stays(cfg: Config, v: Server, b: Budget)
    ensures Reaches(cfg, v, b, v, b)
  {
    assert Solo(cfg, v, b, [], v, b);
  }

  lemma Steps(cfg: Config, v: Server, b: Budget, act: Act)
    requires Enabled(cfg, v, act) && CleanExpiry(v, act)
    ensures var (w, c) := Step(cfg, v, b, act); Reaches(cfg, v, b, w, c)
  {
    hide Enabled, Step, CleanExpiry;
    var (w, c) := Step(cfg, v, b, act);
    assert [act][1..] == [];
    assert Solo(cfg, w, c, [act][1..], w, c);
    assert Solo(cfg, v, b, [act], w, c);
  }

  lemma {:induction false} SoloThen(cfg: Config, v: Server, b: Budget, acts: seq<Act>, w: Server, c: Budget,
                                    more: seq<Act>, x: Server, d: Budget)
    requires Solo(cfg, v, b, acts, w, c) && Solo(cfg, w, c, more, x, d)
    ensures Solo(cfg, v, b, acts + more, x, d)
    decreases |acts|
  {
    hide Enabled, Step, CleanExpiry;
    if acts == [] {
      assert acts + more == more;
    } else {
      var (next, budget) := Step(cfg, v, b, acts[0]);
      SoloThen(cfg, next, budget, acts[1..], w, c, more, x, d);
      assert (acts + more)[1..] == acts[1..] + more;
    }
  }

  lemma Then(cfg: Config, v: Server, b: Budget, w: Server, c: Budget, x: Server, d: Budget)
    requires Reaches(cfg, v, b, w, c) && Reaches(cfg, w, c, x, d)
    ensures Reaches(cfg, v, b, x, d)
  {
    hide Solo;
    var acts :| Solo(cfg, v, b, acts, w, c);
    var more :| Solo(cfg, w, c, more, x, d);
    SoloThen(cfg, v, b, acts, w, c, more, x, d);
  }

  lemma {:induction false} SoloKeeps(cfg: Config, v: Server, b: Budget, acts: seq<Act>, w: Server, c: Budget)
    requires Orderly(v) && Solo(cfg, v, b, acts, w, c)
    ensures Keeps(v, b, w, c) && Balanced(v, b, w, c)
    decreases |acts|
  {
    hide Enabled, Step, CleanExpiry, SlotOwned, HeldBytes, Retained;
    if acts != [] {
      var (next, budget) := Step(cfg, v, b, acts[0]);
      StepOrderly(cfg, v, b, acts[0]);
      SlotOfOrderly(v);
      StepBalances(cfg, v, b, acts[0]);
      hide Orderly;
      SoloKeeps(cfg, next, budget, acts[1..], w, c);
    }
  }

  lemma SlotOfOrderly(v: Server)
    requires Orderly(v)
    ensures SlotOwned(v)
  {}

  /** Clean steps keep the accounting of an orderly server. */
  lemma ReachKeeps(cfg: Config, v: Server, b: Budget, w: Server, c: Budget)
    requires Orderly(v) && Reaches(cfg, v, b, w, c)
    ensures Keeps(v, b, w, c) && Balanced(v, b, w, c)
  {
    hide Orderly, Keeps, Balanced, Solo;
    var acts :| Solo(cfg, v, b, acts, w, c);
    SoloKeeps(cfg, v, b, acts, w, c);
  }

  // ---- Finishing what is on the wire ----

  /** The attempt has gone on; nothing but the wire and the epoch's tags has changed. */
  ghost predicate SameSending(v: Server, w: Server) {
    && !v.wire.Free? && !w.wire.Free? && w.wire == WithAttempt(v.wire, AttemptOf(w.wire))
    && w == v.(wire := w.wire, history := w.history, app := w.app) && OnlyMode(v.app, w.app)
  }

  ghost predicate SettledApp(a: App, b: App) {
    && b.asps == a.asps && b.state == a.state && b.closed == a.closed && b.recoveryGen == a.recoveryGen
    && b.inFlight == 0 && b.activeSending == a.activeSending && (b.draining ==> a.draining)
  }

  /** The delivery is over. A drained message leaves the members, the state and the timers as
      they were and nothing in flight. */
  ghost predicate Settled(v: Server, w: Server) {
    && w.wire.Free? && w.waiting == v.waiting && w.app.closed == v.app.closed
    && (v.wire.Draining? ==> SettledApp(v.app, w.app) && w.timers == v.timers)
  }

  lemma EndsSettled(cfg: Config, v: Server, b: Budget)
    requires !v.wire.Free? && AttemptOf(v.wire).Written?
    ensures Settled(v, Ended(v, b).0)
  {
    hide Forget, Restores, EndSend, EndFailedDrain;
    match v.wire
    case Sending(m, _) => EndSendShape(v.app, m);
    case Draining(item, attempt) => EndFailedShape(v.app, item.(retry := attempt.next));
  }

  lemma FinishWritten(cfg: Config, v: Server, b: Budget) returns (w: Server, c: Budget)
    requires !v.wire.Free? && AttemptOf(v.wire).Written?
    ensures Reaches(cfg, v, b, w, c) && Settled(v, w)
  {
    hide Ended, Settled, Reaches;
    Steps(cfg, v, b, Ends);
    EndsSettled(cfg, v, b);
    var (x, d) := Ended(v, b);
    w, c := x, d;
  }

  lemma {:induction false} FinishWriting(cfg: Config, v: Server, b: Budget) returns (w: Server, c: Budget)
    requires !v.wire.Free? && AttemptOf(v.wire).Writing?
    ensures Reaches(cfg, v, b, w, c) && Settled(v, w)
    decreases |AttemptOf(v.wire).left|
  {
    hide CommitMarker, Reaches, Settled;
    if AttemptOf(v.wire).left != [] {
      Steps(cfg, v, b, WriteFails);
      var x := Wrote(v, false);
      w, c := FinishWriting(cfg, x, b);
      Then(cfg, v, b, x, b, w, c);
      SendingSettles(v, x, w);
    } else {
      Steps(cfg, v, b, Mark);
      var x := Marked(cfg, v);
      MarkerOnly(cfg.limits, v.app, MessageOf(v.wire).flow, AttemptOf(v.wire).epoch);
      w, c := FinishWritten(cfg, x, b);
      Then(cfg, v, b, x, b, w, c);
      SendingSettles(v, x, w);
    }
  }

  lemma SendingSettles(v: Server, x: Server, w: Server)
    requires SameSending(v, x) && Settled(x, w)
    ensures Settled(v, w)
  {}

  /** Whatever is on the wire can be finished. */
  lemma Finish(cfg: Config, v: Server, b: Budget) returns (w: Server, c: Budget)
    requires !v.wire.Free?
    ensures Reaches(cfg, v, b, w, c) && Settled(v, w)
  {
    hide Select, Reaches, Settled;
    match AttemptOf(v.wire)
    case Unchosen =>
      Steps(cfg, v, b, Choose);
      var x := Choosing(v);
      if AttemptOf(x.wire).Written? { w, c := FinishWritten(cfg, x, b); } else { w, c := FinishWriting(cfg, x, b); }
      Then(cfg, v, b, x, b, w, c);
      SendingSettles(v, x, w);
    case Writing(_, _, _, _, _) => w, c := FinishWriting(cfg, v, b);
    case Written(_, _) => w, c := FinishWritten(cfg, v, b);
  }

  // ---- Paying what is owed ----

  ghost predicate OwedFine(owed: seq<Owed>) {
    forall i :: 0 <= i < |owed| ==> owed[i].bytes >= 0 && (owed[i].messages == 0 ==> owed[i].bytes == 0)
  }

  lemma {:induction false} PayAll(cfg: Config, v: Server, b: Budget) returns (c: Budget)
    requires OwedFine(v.owed)
    ensures Reaches(cfg, v, b, v.(owed := []), c)
    ensures c == b.(messages := b.messages - OwedMessages(v.owed), bytes := b.bytes - OwedBytes(v.owed))
    decreases |v.owed|
  {
    hide Reaches;
    if v.owed == [] {
      Stays(cfg, v, b);
      c := b;
    } else {
      var n := |v.owed| - 1;
      Steps(cfg, v, b, Pays(n));
      var (x, d) := Step(cfg, v, b, Pays(n));
      assert v.owed[..n] + v.owed[n + 1..] == v.owed[..n];
      c := PayAll(cfg, x, d);
      Then(cfg, v, b, x, d, v.(owed := []), c);
    }
  }

  // ---- Coming to rest ----

  ghost predicate AtRest(v: Server) {
    Retained(v) == 0 && HeldBytes(v) == 0
  }

  /** Any orderly server can close and give back all it holds. */
  lemma Quench(cfg: Config, v: Server, b: Budget) returns (w: Server, c: Budget)
    requires Orderly(v)
    ensures Reaches(cfg, v, b, w, c) && Orderly(w) && AtRest(w)
  {
    hide Reaches, Orderly, Forget;
    Steps(cfg, v, b, Shut);
    var (x, d) := Step(cfg, v, b, Shut);
    if !x.wire.Free? {
      var y, e := Finish(cfg, x, d);
      Then(cfg, v, b, x, d, y, e);
      x, d := y, e;
    }
    if x.waiting.Some? {
      Steps(cfg, x, d, SenderResumes);
      var (y, e) := Step(cfg, x, d, SenderResumes);
      Then(cfg, v, b, x, d, y, e);
      x, d := y, e;
    }
    ReachKeeps(cfg, v, b, x, d);
    OwedOfOrderly(x);
    c := PayAll(cfg, x, d);
    w := x.(owed := []);
    Then(cfg, v, b, x, d, w, c);
    ReachKeeps(cfg, v, b, w, c);
    ClosedRests(w);
  }

  lemma OwedOfOrderly(v: Server)
    requires Orderly(v)
    ensures OwedFine(v.owed)
  {}

  lemma ClosedRests(v: Server)
    requires Orderly(v) && v.app.closed && v.wire.Free? && v.waiting.None? && v.owed == []
    ensures AtRest(v)
  {
    NothingQueued();
  }

  // ---- After an expiry that found a drain ----

  /** T(r) expires with effect. */
  ghost predicate ExpiryDue(v: Server, generation: nat) {
    generation in v.timers && generation == v.app.recoveryGen && v.app.state == AsPending
  }

  /** The flag says no drain runs, and one does: with its message on the wire, or about to pop. */
  ghost predicate Dirty(v: Server) {
    && !v.app.closed && (v.app.state == AsInactive || v.app.state == AsDown)
    && v.app.queue == [] && !v.app.draining && !v.app.activeSending && v.waiting.None?
    && v.app.queueBytes == v.app.inFlight
    && (v.wire.Draining? || (v.wire.Free? && v.idle > 0 && v.app.inFlight == 0))
  }

  lemma ExpiryDirties(cfg: Config, v: Server, b: Budget, generation: nat)
    requires Orderly(v) && ExpiryDue(v, generation) && v.app.draining
    ensures var (w, c) := Step(cfg, v, b, TimerFires(generation));
            && Dirty(w) && OwedFine(w.owed) && c == b && SlotOwned(w)
            && w.wire == v.wire && w.app.inFlight == v.app.inFlight
            && HeldBytes(w) == HeldBytes(v) && Retained(w) == Retained(v)
  {
    hide Forget, Members, QueueSize, OwedBytes, OwedMessages;
    OwedBytesMore(v.owed, Expire(v.app, generation).1);
    OwedMore(v.owed, Expire(v.app, generation).1);
    if v.app.queue == [] { NothingQueued(); }
  }

  // ---- Becoming active again ----

  /** The members and the state may have changed, and T(r) may have been armed; the messages
      are where they were. */
  ghost predicate SameMessages(v: Server, w: Server) {
    && w.app.queue == v.app.queue && w.app.queueBytes == v.app.queueBytes && w.app.inFlight == v.app.inFlight
    && w.app.activeSending == v.app.activeSending && w.app.draining == v.app.draining && w.app.closed == v.app.closed
    && w.waiting == v.waiting && w.wire == v.wire && w.idle == v.idle && w.owed == v.owed
  }

  lemma {:induction false} Above(asps: set<Asp>) returns (bound: nat)
    ensures forall a :: a in asps ==> a < bound
  {
    if asps == {} {
      bound := 0;
    } else {
      var a :| a in asps;
      var rest := Above(asps - {a});
      bound := if a < rest then rest else a + 1;
      forall o | o in asps ensures o < bound {
        if o != a { assert o in asps - {a}; }
      }
    }
  }

  lemma {:induction false} ListingOf(members: set<Asp>) returns (listing: seq<Asp>)
    ensures forall a :: a in listing <==> a in members
    ensures forall i, j :: 0 <= i < j < |listing| ==> listing[i] != listing[j]
  {
    if members == {} {
      listing := [];
    } else {
      var a :| a in members;
      var rest := ListingOf(members - {a});
      listing := rest + [a];
      forall o ensures o in listing <==> o in members {
        assert o in listing <==> o in rest || o == a;
      }
    }
  }

  lemma RecomputedTo(policy: Policy, a: App, listing: seq<Asp>)
    ensures var b := Recomputed(policy, a, listing);
            && b.asps == a.asps
            && b.state == NextState(policy, a.state, |Members(a.asps, AspActive)|, |Members(a.asps, AspInactive)|)
  {
    hide NextState, Members, StartRecovery;
    var next := NextState(policy, a.state, |Members(a.asps, AspActive)|, |Members(a.asps, AspInactive)|);
    var stopped := a.(active := listing, state := next, armed := false);
    RecoveryRestamps(stopped);
    var started := if next == AsPending then StartRecovery(stopped) else stopped;
    assert Recomputed(policy, a, listing) ==
           if next == a.state then a.(active := listing)
           else if next != AsActive then started.(retryArmed := false) else started;
  }

  lemma JoinsMembers(a: App, c: Asp)
    requires c !in a.asps
    ensures Joined(a, c, AspActive).asps == a.asps[c := AspActive] && Joined(a, c, AspActive).state == a.state
    ensures Members(a.asps[c := AspActive], AspActive) == Members(a.asps, AspActive) + {c}
    ensures |Members(a.asps[c := AspActive], AspActive)| == |Members(a.asps, AspActive)| + 1
  {
    assert c !in Members(a.asps, AspActive);
    assert Members(a.asps[c := AspActive], AspActive) == Members(a.asps, AspActive) + {c};
  }

  /** One more active ASP. */
  lemma Rise(cfg: Config, v: Server, b: Budget) returns (w: Server)
    requires !v.app.closed && v.app.queue == [] && (v.app.state == AsInactive || v.app.state == AsDown)
    ensures Reaches(cfg, v, b, w, b) && SameMessages(v, w)
    ensures |Members(w.app.asps, AspActive)| == |Members(v.app.asps, AspActive)| + 1
    ensures w.app.state == AsActive || (w.app.state == AsInactive && |Members(w.app.asps, AspActive)| < cfg.policy.required)
  {
    var c := Above(v.app.asps.Keys);
    var members := v.app.asps[c := AspActive];
    var listing := ListingOf(Members(members, AspActive));
    var act := Record(c, AspActive, false, listing);
    hide Reaches, Members, Forget, Recomputed;
    assert Lists(listing, members) by { ListsMembers(listing, members); }
    Steps(cfg, v, b, act);
    MembershipShifts(cfg.policy, v.app, act);
    JoinsMembers(v.app, c);
    JoinedOnly(v.app, c, AspActive);
    RecomputedTo(cfg.policy, Joined(v.app, c, AspActive), listing);
    w := Entered(v, Membership(cfg.policy, v.app, act));
  }

  lemma ListsMembers(listing: seq<Asp>, asps: map<Asp, AspState>)
    requires forall a :: a in listing <==> a in Members(asps, AspActive)
    requires forall i, j :: 0 <= i < j < |listing| ==> listing[i] != listing[j]
    ensures Lists(listing, asps)
  {}

  /** Enough new ASPs make the Application Server active. */
  lemma {:induction false} Activate(cfg: Config, v: Server, b: Budget) returns (w: Server)
    requires !v.app.closed && v.app.queue == [] && (v.app.state == AsInactive || v.app.state == AsDown)
    ensures Reaches(cfg, v, b, w, b) && SameMessages(v, w)
    ensures w.app.state == AsActive && |Members(w.app.asps, AspActive)| > 0
    decreases cfg.policy.required - |Members(v.app.asps, AspActive)|
  {
    hide Reaches, Members;
    w := Rise(cfg, v, b);
    if w.app.state != AsActive {
      var x := w;
      w := Activate(cfg, x, b);
      Then(cfg, v, b, x, b, w, b);
    }
  }

  // ---- Two messages ----

  /** The slot taken by a message of one octet. */
  lemma TakeSlot(cfg: Config, v: Server, b: Budget) returns (w: Server, c: Budget)
    requires v.app.state == AsActive && !v.app.closed && !v.app.draining && !v.app.activeSending && v.app.queue == []
    requires cfg.limits.bytes >= 1 && CanClaim(b, 1)
    ensures Reaches(cfg, v, b, w, c) && c == Claim(b, 1)
    ensures w.waiting.Some? && w.waiting.value.size == 1 && w.app == SlotOf(v.app, w.waiting.value)
    ensures w.wire == v.wire && w.idle == v.idle
  {
    hide Reaches, Forget;
    Steps(cfg, v, b, Offer(0, 0, 1));
    w, c := Step(cfg, v, b, Offer(0, 0, 1)).0, Claim(b, 1);
  }

  /** A second message queues behind it, and the drain that is still there pops it. */
  lemma PopSecond(cfg: Config, v: Server, b: Budget) returns (w: Server, c: Budget)
    requires v.app.state == AsActive && !v.app.closed && !v.app.draining && v.app.activeSending && v.app.queue == []
    requires v.wire.Free? && v.idle > 0
    requires cfg.limits.messages >= 2 && v.app.queueBytes + 1 <= cfg.limits.bytes && CanClaim(b, 1)
    ensures Reaches(cfg, v, b, w, c) && w.wire.Draining? && w.waiting == v.waiting
    ensures w.app.asps == v.app.asps && w.app.state == AsActive && !w.app.closed && !w.app.draining
  {
    hide Reaches, Forget;
    Steps(cfg, v, b, Offer(0, 0, 1));
    var (x, d) := Step(cfg, v, b, Offer(0, 0, 1));
    assert |x.app.queue| == 1;
    Steps(cfg, x, d, DrainPops);
    var (y, e) := Step(cfg, x, d, DrainPops);
    w, c := y, e;
    Then(cfg, v, b, x, d, w, c);
  }

  // ---- The underflow ----

  /** A sender waits while the drain has the wire. */
  ghost predicate Overlapping(v: Server) {
    && v.app.state == AsActive && !v.app.closed && !v.app.draining && |Members(v.app.asps, AspActive)| > 0
    && v.waiting.Some? && v.waiting.value.size > 0 && v.wire.Draining?
  }

  lemma Overlap(cfg: Config, v: Server, b: Budget) returns (w: Server, c: Budget)
    requires Dirty(v) && cfg.limits.messages >= 2 && cfg.limits.bytes >= 2
    requires b.messages == (if v.wire.Free? then 0 else 1) && b.bytes == v.app.inFlight
    requires b.messageLimit >= 2 && b.byteLimit >= 2 && b.byteLimit > v.app.inFlight
    ensures Reaches(cfg, v, b, w, c) && Overlapping(w)
  {
    hide Reaches, Members;
    var x := Activate(cfg, v, b);
    var y, d := TakeSlot(cfg, x, b);
    Then(cfg, v, b, x, b, y, d);
    if v.wire.Draining? {
      w, c := y, d;
    } else {
      w, c := PopSecond(cfg, y, d);
      Then(cfg, v, b, y, d, w, c);
    }
  }

  lemma AllInactive(asps: map<Asp, AspState>)
    ensures MarkedInactive(asps, asps.Keys).Keys == asps.Keys
    ensures Members(MarkedInactive(asps, asps.Keys), AspActive) == {}
    ensures Lists([], MarkedInactive(asps, asps.Keys))
  {}

  /** Every member leaves. */
  lemma Lose(cfg: Config, v: Server, b: Budget) returns (w: Server)
    requires cfg.policy.required >= 1
    requires v.app.state == AsActive && !v.app.closed && !v.app.draining && |Members(v.app.asps, AspActive)| > 0
    ensures Reaches(cfg, v, b, w, b) && ExpiryDue(w, w.app.recoveryGen)
    ensures w.app.inFlight == v.app.inFlight && !w.app.draining && !w.app.closed && w.waiting == v.waiting && w.wire == v.wire
  {
    var members := v.app.asps.Keys;
    var act := Inactivate(members, []);
    AllInactive(v.app.asps);
    SomeActive(v.app.asps);
    hide Reaches, Members, Forget, MarkedInactive, Recomputed;
    Steps(cfg, v, b, act);
    MembershipShifts(cfg.policy, v.app, act);
    RecomputedTo(cfg.policy, v.app.(asps := MarkedInactive(v.app.asps, members)), []);
    w := Entered(v, Membership(cfg.policy, v.app, act));
  }

  lemma SomeActive(asps: map<Asp, AspState>)
    requires |Members(asps, AspActive)| > 0
    ensures exists c :: c in asps && asps[c] != AspInactive
  {
    var c :| c in Members(asps, AspActive);
  }

  /** The second expiry gives back the waiting sender's octets, and the sender gives them back
      again. */
  lemma Underflow(cfg: Config, v: Server, b: Budget) returns (w: Server, c: Budget)
    requires ExpiryDue(v, v.app.recoveryGen) && !v.app.draining && !v.app.closed && v.app.inFlight == 0
    requires v.wire.Free? && v.waiting.Some? && v.waiting.value.size > 0
    ensures Reaches(cfg, v, b, w, c) && w.app.queueBytes < 0
  {
    hide Reaches, Forget, Members;
    var act := TimerFires(v.app.recoveryGen);
    Steps(cfg, v, b, act);
    var (x, d) := Step(cfg, v, b, act);
    Steps(cfg, x, d, SenderResumes);
    var (y, e) := Step(cfg, x, d, SenderResumes);
    w, c := y, e;
    Then(cfg, v, b, x, d, w, c);
  }

  /** With room for two messages a server left dirty can go on, by clean steps alone, to a
      negative byte count. */
  lemma DirtyPanics(cfg: Config, v: Server, b: Budget) returns (w: Server, c: Budget)
    requires Dirty(v) && cfg.policy.required >= 1 && cfg.limits.messages >= 2 && cfg.limits.bytes >= 2
    requires b.messages == (if v.wire.Free? then 0 else 1) && b.bytes == v.app.inFlight
    requires b.messageLimit >= 2 && b.byteLimit >= 2 && b.byteLimit > v.app.inFlight
    ensures Reaches(cfg, v, b, w, c) && w.app.queueBytes < 0
  {
    hide Reaches, Members;
    var x, d := Overlap(cfg, v, b);
    var y, e := Finish(cfg, x, d);
    Then(cfg, v, b, x, d, y, e);
    var z := Lose(cfg, y, e);
    Then(cfg, v, b, y, e, z, e);
    w, c := Underflow(cfg, z, e);
    Then(cfg, v, b, z, e, w, c);
  }
}
