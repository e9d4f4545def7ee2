/** The AS state machine, the T(r) generations and the acceptances over whole runs. */
module ServerRuns {
  import opened Common
  import opened AsState
  import opened AsMachine
  import opened Distribution
  import opened MessageBudget
  import opened AcceptedOnce

  // ---- The state machine over every step ----

  /** A T(r) expiry that takes effect. */
  predicate Expires(v: Server, act: Act) {
    act.TimerFires? && act.generation == v.app.recoveryGen && v.app.state == AsPending
  }

  lemma MembershipMachine(policy: Policy, a: App, act: Act)
    requires IsMembership(act) && Machine(policy, a)
    requires !a.closed || act.Relist? ==> Lists(act.listing, NewMembers(a, act))
    ensures Machine(policy, Membership(policy, a, act)) && Transition(policy, a, Membership(policy, a, act))
  {
    hide Machine, Transition, Recomputed, RecordState, MarkDown, MarkInactive, ActivateOverride, Remove, Lists;
    match act
    case Record(c, st, ifAbsent, listing) => RecordStateMachine(policy, a, c, st, ifAbsent, listing);
    case Down(c, listing) => MarkDownMachine(policy, a, c, listing);
    case Inactivate(cs, listing) => MarkInactiveMachine(policy, a, cs, listing);
    case OverrideBy(c, listing) => ActivateOverrideMachine(policy, a, c, listing);
    case Drop(c, listing) => RemoveMachine(policy, a, c, listing);
    case Relist(listing) => RelistMachine(policy, a, listing);
  }

  /** The fields the state machine reads are as before, but for a generation taken for
      traffic of an active AS and for the retry timer. */
  ghost predicate Quiet(a: App, b: App) {
    && b.asps == a.asps && b.active == a.active && b.state == a.state && b.closed == a.closed && b.armed == a.armed
    && b.expiredGen == a.expiredGen && b.recoveryGen >= a.recoveryGen && (b.retryArmed ==> a.retryArmed || a.state == AsActive)
  }

  lemma QuietMachine(policy: Policy, a: App, b: App)
    requires Machine(policy, a) && Quiet(a, b)
    ensures Machine(policy, b) && Transition(policy, a, b)
  {}

  ghost predicate Traffic(act: Act) {
    act.Offer? || act.SenderResumes? || act.DrainPops? || act.Ends? || act.RetryTimer?
  }

  /** Only an active AS takes a generation for its traffic. */
  ghost predicate QuietTraffic(a: App, b: App) {
    Quiet(a, b) && (a.state != AsActive ==> b.recoveryGen == a.recoveryGen)
  }

  lemma OfferQuiet(limits: Limits, a: App, b: Budget, m: Message)
    ensures QuietTraffic(a, BeginDistribute(limits, a, b, m).0)
  {
    hide QueueFull, CanClaim;
  }

  lemma ResumeQuiet(a: App, m: Message)
    ensures QuietTraffic(a, ResumeSend(a, m).0)
  {}

  lemma PopQuiet(a: App)
    ensures QuietTraffic(a, Pop(a).0)
  {}

  lemma EndQuiet(a: App, m: Message, item: Item)
    ensures QuietTraffic(a, EndSend(a, m)) && QuietTraffic(a, EndFailedDrain(a, item)) && QuietTraffic(a, Finished(a, m.size))
  {
    EndSendQuiet(a, m);
    EndFailedQuiet(a, item);
    hide EndSend, EndFailedDrain;
  }

  lemma EndSendQuiet(a: App, m: Message)
    ensures QuietTraffic(a, EndSend(a, m))
  {}

  lemma EndFailedQuiet(a: App, item: Item)
    ensures QuietTraffic(a, EndFailedDrain(a, item))
  {
    hide Restores;
  }

  lemma RetryQuiet(a: App)
    ensures QuietTraffic(a, RetryFires(a))
  {}

  lemma TrafficQuiet(cfg: Config, v: Server, b: Budget, act: Act)
    requires Traffic(act) && Enabled(cfg, v, act)
    ensures QuietTraffic(v.app, Step(cfg, v, b, act).0.app)
  {
    hide Forget, QuietTraffic, BeginDistribute, ResumeSend, Pop, EndSend, EndFailedDrain, Finished, RetryFires;
    match act
    case Offer(flow, sls, size) => OfferQuiet(cfg.limits, v.app, b, Message(v.nextId, flow, sls, size));
    case SenderResumes => ResumeQuiet(v.app, v.waiting.value);
    case DrainPops => PopQuiet(v.app);
    case Ends =>
      var item := if v.wire.Draining? then v.wire.item.(retry := AttemptOf(v.wire).next) else Item(MessageOf(v.wire), 0, None);
      EndQuiet(v.app, MessageOf(v.wire), item);
    case RetryTimer => RetryQuiet(v.app);
  }

  lemma ModeQuiet(cfg: Config, v: Server, b: Budget, act: Act)
    requires act.ModeSet? || act.ModeAgreed? || act.Pays? || act.Choose? || act.WriteOk? || act.WriteFails? || act.Mark?
    requires Enabled(cfg, v, act)
    ensures Quiet(v.app, Step(cfg, v, b, act).0.app)
    ensures Step(cfg, v, b, act).0.app.recoveryGen == v.app.recoveryGen
  {
    hide Forget, Members, SetMode, AgreeMode, CommitMarker, Select;
    match act
    case ModeSet(mode) => ModeOnly(cfg.policy, v.app, mode);
    case ModeAgreed(mode) => ModeOnly(cfg.policy, v.app, mode);
    case Mark => MarkerOnly(cfg.limits, v.app, MessageOf(v.wire).flow, AttemptOf(v.wire).epoch);
    case _ =>
  }

  /** Every step keeps the machine's invariant; every step but a close and an effective expiry
      is one of the transitions of section 4.3.2. */
  lemma StepMachine(cfg: Config, v: Server, b: Budget, act: Act)
    requires Machine(cfg.policy, v.app) && Enabled(cfg, v, act)
    ensures var w := Step(cfg, v, b, act).0;
            && Machine(cfg.policy, w.app)
            && (!act.Shut? && !Expires(v, act) ==> Transition(cfg.policy, v.app, w.app))
  {
    hide Machine, Transition, Expires;
    var w := Step(cfg, v, b, act).0;
    if IsMembership(act) {
      MembershipMachine(cfg.policy, v.app, act);
    } else if Traffic(act) {
      TrafficQuiet(cfg, v, b, act);
      QuietMachine(cfg.policy, v.app, w.app);
    } else if act.Shut? {
      CloseMachine(cfg.policy, v.app);
    } else if act.TimerFires? {
      TimerMachine(cfg.policy, v, act);
    } else {
      ModeQuiet(cfg, v, b, act);
      QuietMachine(cfg.policy, v.app, w.app);
    }
  }

  lemma TimerMachine(policy: Policy, v: Server, act: Act)
    requires act.TimerFires? && Machine(policy, v.app)
    ensures Machine(policy, Expire(v.app, act.generation).0)
    ensures !Expires(v, act) ==> Transition(policy, v.app, Expire(v.app, act.generation).0)
  {
    ExpireMachine(policy, v.app, act.generation);
  }

  // ---- Pending episodes ----

  /** The pending episode in force was armed with the present generation; no timer is of a
      later one. */
  ghost predicate Episodes(v: Server) {
    && (v.app.state == AsPending ==> v.history.episode == v.app.recoveryGen)
    && (forall g :: g in v.timers ==> g <= v.app.recoveryGen)
    && v.history.episode <= v.app.recoveryGen
  }

  lemma StepEpisodes(cfg: Config, v: Server, b: Budget, act: Act)
    requires Machine(cfg.policy, v.app) && Episodes(v) && Enabled(cfg, v, act)
    ensures Episodes(Step(cfg, v, b, act).0)
  {
    StepMachine(cfg, v, b, act);
    hide Machine, Members;
    if IsMembership(act) {
      MembershipEpisodes(cfg, v, b, act);
    } else if Traffic(act) {
      TrafficQuiet(cfg, v, b, act);
      TrafficEpisodes(cfg, v, b, act);
    } else if act.Shut? || act.TimerFires? {
    } else {
      ModeQuiet(cfg, v, b, act);
      TrafficEpisodes(cfg, v, b, act);
    }
  }

  lemma MembershipEpisodes(cfg: Config, v: Server, b: Budget, act: Act)
    requires IsMembership(act) && Episodes(v) && Enabled(cfg, v, act)
    requires Transition(cfg.policy, v.app, Step(cfg, v, b, act).0.app)
    ensures Episodes(Step(cfg, v, b, act).0)
  {
    hide Membership;
    if v.app.state == AsPending { PendingKeepsGeneration(cfg.policy, v.app, act); }
  }

  lemma PendingKeepsGeneration(policy: Policy, a: App, act: Act)
    requires IsMembership(act) && a.state == AsPending
    ensures Membership(policy, a, act).state == AsPending ==> Membership(policy, a, act).recoveryGen == a.recoveryGen
  {
    hide Members, Joined, NextState, MarkedInactive, Overridden, Recomputed;
    match act
    case Record(c, st, ifAbsent, listing) =>
      JoinedOnly(a, c, st);
      StaysPending(policy, a, listing);
      StaysPending(policy, Joined(a, c, st), listing);
    case Down(c, listing) => StaysPending(policy, a.(asps := a.asps[c := AspDown]), listing);
    case Inactivate(cs, listing) => StaysPending(policy, a.(asps := MarkedInactive(a.asps, cs)), listing);
    case OverrideBy(c, listing) => StaysPending(policy, a.(asps := Overridden(a.asps, c)), listing);
    case Drop(c, listing) => StaysPending(policy, a.(asps := a.asps - {c}), listing);
    case Relist(_) =>
  }

  lemma StaysPending(policy: Policy, a: App, listing: seq<Asp>)
    requires a.state == AsPending
    ensures var b := Recomputed(policy, a, listing); b.state == AsPending ==> b.recoveryGen == a.recoveryGen
  {
    hide Members, NextState, StartRecovery;
    var next := NextState(policy, a.state, |Members(a.asps, AspActive)|, |Members(a.asps, AspInactive)|);
    if next == AsPending {
      assert Recomputed(policy, a, listing) == a.(active := listing);
    } else {
      var stopped := a.(active := listing, state := next, armed := false);
      assert Recomputed(policy, a, listing) == if next != AsActive then stopped.(retryArmed := false) else stopped;
    }
  }

  lemma TrafficEpisodes(cfg: Config, v: Server, b: Budget, act: Act)
    requires !IsMembership(act) && !act.Shut? && !act.TimerFires? && Episodes(v) && Enabled(cfg, v, act)
    requires var w := Step(cfg, v, b, act).0;
             Quiet(v.app, w.app) && (v.app.state != AsActive ==> w.app.recoveryGen == v.app.recoveryGen)
    ensures Episodes(Step(cfg, v, b, act).0)
  {
    hide Members;
    var w := Step(cfg, v, b, act).0;
    assert w.timers == v.timers && w.history.episode == v.history.episode;
  }

  // ---- Whole runs ----

  ghost predicate ServerOk(cfg: Config, v: Server) {
    Machine(cfg.policy, v.app) && Episodes(v) && SlotOwned(v) && Once(v)
  }

  ghost predicate ServersOk(cfg: seq<Config>, s: System) {
    |cfg| == |s.servers| && forall i :: 0 <= i < |s.servers| ==> ServerOk(cfg[i], s.servers[i])
  }

  lemma StepOk(cfg: Config, v: Server, b: Budget, act: Act)
    requires ServerOk(cfg, v) && Enabled(cfg, v, act)
    ensures ServerOk(cfg, Step(cfg, v, b, act).0)
  {
    hide Machine, Episodes, SlotOwned, Once, Step, Enabled;
    StepMachine(cfg, v, b, act);
    StepEpisodes(cfg, v, b, act);
    StepBalances(cfg, v, b, act);
    StepOnce(cfg, v, b, act);
  }

  lemma NewServerOk(cfg: Config)
    requires cfg.policy.required >= 1
    ensures ServerOk(cfg, NewServer())
  {
    assert Members(map[], AspActive) == {};
    assert Lists([], map[]);
  }

  lemma {:induction false} RunOk(cfg: seq<Config>, states: seq<System>, steps: seq<(nat, Act)>)
    requires IsRun(cfg, states, steps)
    ensures |states| == |steps| + 1 && ServersOk(cfg, states[|steps|])
  {
    hide ServersOk, SystemEnabled, SystemStep, ServerOk;
    if steps == [] {
      StartOk(cfg, states);
    } else {
      var n := |steps| - 1;
      RunPrefix(cfg, states, steps);
      RunOk(cfg, states[..n + 1], steps[..n]);
      SystemStepOk(cfg, states[n], steps[n].0, steps[n].1);
    }
  }

  lemma StartOk(cfg: seq<Config>, states: seq<System>)
    requires IsRun(cfg, states, [])
    ensures ServersOk(cfg, states[0])
  {
    hide ServerOk, NewServer;
    forall i | 0 <= i < |cfg| ensures ServerOk(cfg[i], states[0].servers[i]) {
      NewServerOk(cfg[i]);
    }
  }

  lemma SystemStepOk(cfg: seq<Config>, s: System, i: nat, act: Act)
    requires ServersOk(cfg, s) && SystemEnabled(cfg, s, i, act)
    ensures ServersOk(cfg, SystemStep(cfg, s, i, act))
  {
    hide ServerOk, Step, Enabled;
    StepOk(cfg[i], s.servers[i], s.budget, act);
  }

  /** as.go:1593-1650, 1276-1383. In every reachable state AS-ACTIVE has an active ASP, and
      AS-PENDING has none and an armed T(r) of its own episode. */
  lemma EveryRunIsMachine(cfg: seq<Config>, states: seq<System>, steps: seq<(nat, Act)>, i: nat)
    requires IsRun(cfg, states, steps) && i < |cfg|
    ensures |states| == |steps| + 1 && i < |states[|steps|].servers|
    ensures var v := states[|steps|].servers[i];
            && (v.app.state == AsActive ==> Members(v.app.asps, AspActive) != {})
            && (v.app.state == AsPending ==> Members(v.app.asps, AspActive) == {} && v.app.armed)
            && (v.app.state == AsPending ==> v.history.episode == v.app.recoveryGen)
            && (v.app.armed ==> v.app.state == AsPending)
  {
    RunOk(cfg, states, steps);
  }

  /** AS-ACTIVE is left only to AS-PENDING until a close; start-up reaches AS-ACTIVE only with
      n active ASPs or a smooth start; and a T(r) expiry that changes anything is the one that
      the pending episode in force armed. */
  lemma EveryStepIsTransition(cfg: seq<Config>, states: seq<System>, steps: seq<(nat, Act)>, i: nat, act: Act)
    requires IsRun(cfg, states, steps) && |states| == |steps| + 1 && SystemEnabled(cfg, states[|steps|], i, act)
    ensures var v, w := states[|steps|].servers[i], SystemStep(cfg, states[|steps|], i, act).servers[i];
            && (!act.Shut? && !Expires(v, act) ==> Transition(cfg[i].policy, v.app, w.app))
            && (Expires(v, act) ==> act.generation == v.history.episode && w.app.state in {AsInactive, AsDown})
            && (act.TimerFires? && !Expires(v, act) ==> w.app == v.app)
  {
    RunOk(cfg, states, steps);
    var v := states[|steps|].servers[i];
    StepMachine(cfg[i], v, states[|steps|].budget, act);
  }

  // ---- Acceptances ----

  /** distribution.go:524-593, 719-753. In every interleaving no association accepts the same
      message twice, in any traffic mode and across all retries. */
  lemma NoMessageAcceptedTwice(cfg: seq<Config>, states: seq<System>, steps: seq<(nat, Act)>, i: nat)
    requires IsRun(cfg, states, steps) && |states| == |steps| + 1 && SystemEnabled(cfg, states[|steps|], i, WriteOk)
    ensures var v := states[|steps|].servers[i];
            && !v.wire.Free? && AttemptOf(v.wire).Writing? && AttemptOf(v.wire).left != []
            && (MessageOf(v.wire).id, AttemptOf(v.wire).left[0]) !in v.history.accepted
  {
    hide Once;
    RunOk(cfg, states, steps);
    WriteIsNew(states[|steps|].servers[i]);
  }

  /** When a drained message is done with, every target of its first Broadcast attempt has
      accepted it or has left ASP-ACTIVE since. */
  lemma DoneOwesNobody(cfg: seq<Config>, states: seq<System>, steps: seq<(nat, Act)>, i: nat)
    requires IsRun(cfg, states, steps) && |states| == |steps| + 1 && SystemEnabled(cfg, states[|steps|], i, Ends)
    requires var v := states[|steps|].servers[i]; v.wire.Draining? && AttemptOf(v.wire).Written? && !AttemptOf(v.wire).err
    ensures var v := states[|steps|].servers[i]; forall t :: (MessageOf(v.wire).id, t) !in v.history.owing
  {
    RunOk(cfg, states, steps);
  }
}
