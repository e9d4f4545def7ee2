/** The AS state machine of RFC 4666 section 4.3.2 over every step of one Application Server. */
module AsMachine {
  import opened AsState

  /** What every reachable Application Server satisfies. */
  ghost predicate Machine(policy: Policy, a: App) {
    && policy.required >= 1
    && (a.closed ==> a.state == AsDown && !a.armed)
    && (Lists(a.active, a.asps) || (a.closed && a.active == []))
    && (a.state == AsActive ==> Members(a.asps, AspActive) != {})
    && (a.state == AsPending ==> Members(a.asps, AspActive) == {} && a.armed)
    && (a.armed ==> a.state == AsPending)
    && a.expiredGen <= a.recoveryGen
    && (a.state == AsPending ==> a.expiredGen < a.recoveryGen)
    && (a.retryArmed ==> a.state == AsActive)
    && (!a.closed && a.state != AsActive && Members(a.asps, AspActive) != {} ==>
          |Members(a.asps, AspActive)| < policy.required && !policy.smoothStart)
  }

  lemma SomeMember<T>(s: set<T>)
    ensures |s| == 0 <==> s == {}
  {}

  /** A recomputation over changed members, from a state that was right for the old ones. */
  lemma RecomputedMachine(policy: Policy, a: App, asps: map<Asp, AspState>, listing: seq<Asp>)
    requires Machine(policy, a) && !a.closed && Lists(listing, asps)
    ensures Machine(policy, Recomputed(policy, a.(asps := asps), listing))
  {
    SomeMember(Members(asps, AspActive));
    SomeMember(Members(asps, AspInactive));
  }

  /** AS-ACTIVE is left only to AS-PENDING, AS-PENDING only to AS-ACTIVE, and start-up
      reaches AS-ACTIVE only with n active ASPs or a smooth start. */
  ghost predicate Transition(policy: Policy, a: App, b: App) {
    && (a.state == AsActive ==> b.state == AsActive || b.state == AsPending)
    && (a.state == AsPending ==> b.state == AsActive || b.state == AsPending)
    && (a.state != AsActive && b.state == AsActive ==>
          && Members(b.asps, AspActive) != {}
          && (a.state == AsPending || policy.smoothStart || |Members(b.asps, AspActive)| >= policy.required))
    && (b.state == AsPending && a.state != AsPending ==> a.state == AsActive && b.recoveryGen == a.recoveryGen + 1)
    && b.recoveryGen >= a.recoveryGen
  }

  lemma RecomputedTransition(policy: Policy, a: App, asps: map<Asp, AspState>, listing: seq<Asp>)
    requires Machine(policy, a) && !a.closed
    ensures Transition(policy, a, Recomputed(policy, a.(asps := asps), listing))
  {
    SomeMember(Members(asps, AspActive));
  }

  lemma StartDrainKeeps(policy: Policy, a: App, b: App)
    requires Machine(policy, b)
    ensures Machine(policy, StartDrain(b))
    ensures Transition(policy, a, b) ==> Transition(policy, a, StartDrain(b))
  {}

  // ---- What traffic modes and markers leave alone ----

  /** b is a but for the traffic mode and the Broadcast epoch with its flows. */
  ghost predicate OnlyMode(a: App, b: App) {
    b == a.(mode := b.mode, epoch := b.epoch, tagged := b.tagged)
  }

  lemma NoteOnlyMode(a: App)
    ensures OnlyMode(a, NoteActivation(a)) && NoteActivation(a).mode == a.mode
  {}

  lemma ModeOnly(policy: Policy, a: App, mode: Mode)
    ensures OnlyMode(a, SetMode(policy, a, mode)) && OnlyMode(a, AgreeMode(a, mode))
  {
    hide Members, NoteActivation;
    NoteOnlyMode(a.(mode := mode));
  }

  lemma MarkerOnly(limits: Limits, a: App, flow: Flow, epoch: nat)
    ensures OnlyMode(a, CommitMarker(limits, a, flow, epoch))
  {}

  lemma JoinedOnly(a: App, c: Asp, st: AspState)
    ensures var b := Joined(a, c, st); b == a.(asps := b.asps, epoch := b.epoch, tagged := b.tagged)
  {
    hide NoteActivation;
    NoteOnlyMode(a.(asps := a.asps[c := st]));
  }

  // ---- Each membership step ----

  /** The Broadcast epoch has no part in the AS state machine. */
  lemma NotedRecomputed(policy: Policy, a: App, noted: App, listing: seq<Asp>)
    requires Machine(policy, a) && !a.closed && Lists(listing, noted.asps)
    requires noted == a.(asps := noted.asps, epoch := noted.epoch, tagged := noted.tagged)
    ensures Machine(policy, Recomputed(policy, noted, listing)) && Transition(policy, a, Recomputed(policy, noted, listing))
  {
    SomeMember(Members(noted.asps, AspActive));
    SomeMember(Members(noted.asps, AspInactive));
  }

  lemma RecordStateMachine(policy: Policy, a: App, c: Asp, st: AspState, ifAbsent: bool, listing: seq<Asp>)
    requires Machine(policy, a) && (!a.closed ==> Lists(listing, if c in a.asps && ifAbsent then a.asps else a.asps[c := st]))
    ensures var b := RecordState(policy, a, c, st, ifAbsent, listing); Machine(policy, b) && Transition(policy, a, b)
  {
    if !a.closed {
      hide Recomputed, Members, StartDrain;
      var joined := if c in a.asps && ifAbsent then a else Joined(a, c, st);
      NotedRecomputed(policy, a, joined, listing);
      StartDrainKeeps(policy, a, Recomputed(policy, joined, listing));
    }
  }

  lemma MarkDownMachine(policy: Policy, a: App, c: Asp, listing: seq<Asp>)
    requires Machine(policy, a) && (!a.closed && c in a.asps ==> Lists(listing, a.asps[c := AspDown]))
    ensures var b := MarkDown(policy, a, c, listing); Machine(policy, b) && Transition(policy, a, b)
  {
    if !a.closed && c in a.asps {
      RecomputedMachine(policy, a, a.asps[c := AspDown], listing);
      RecomputedTransition(policy, a, a.asps[c := AspDown], listing);
    }
  }

  lemma MarkInactiveMachine(policy: Policy, a: App, cs: set<Asp>, listing: seq<Asp>)
    requires Machine(policy, a) && (!a.closed ==> Lists(listing, MarkedInactive(a.asps, cs)))
    ensures var b := MarkInactive(policy, a, cs, listing); Machine(policy, b) && Transition(policy, a, b)
  {
    if !a.closed {
      var marked := MarkedInactive(a.asps, cs);
      RecomputedMachine(policy, a, marked, listing);
      RecomputedTransition(policy, a, marked, listing);
    }
  }

  lemma ActivateOverrideMachine(policy: Policy, a: App, c: Asp, listing: seq<Asp>)
    requires Machine(policy, a) && (!a.closed ==> Lists(listing, Overridden(a.asps, c)))
    ensures var b := ActivateOverride(policy, a, c, listing); Machine(policy, b) && Transition(policy, a, b)
  {
    if !a.closed {
      var overridden := Overridden(a.asps, c);
      RecomputedMachine(policy, a, overridden, listing);
      RecomputedTransition(policy, a, overridden, listing);
      StartDrainKeeps(policy, a, Recomputed(policy, a.(asps := overridden), listing));
      if overridden == a.asps { StartDrainKeeps(policy, a, a.(asps := overridden)); }
    }
  }

  /** An Override leaves the challenger the only active ASP, whoever was active before. */
  lemma OverrideLeavesOne(policy: Policy, a: App, c: Asp, listing: seq<Asp>)
    requires !a.closed
    ensures Members(ActivateOverride(policy, a, c, listing).asps, AspActive) == {c}
  {
    hide Members;
    var overridden := Overridden(a.asps, c);
    assert ActivateOverride(policy, a, c, listing).asps == overridden;
    OverriddenMembers(a.asps, c);
  }

  lemma OverriddenMembers(asps: map<Asp, AspState>, c: Asp)
    ensures Members(Overridden(asps, c), AspActive) == {c}
  {}

  lemma RemoveMachine(policy: Policy, a: App, c: Asp, listing: seq<Asp>)
    requires Machine(policy, a) && (!a.closed ==> Lists(listing, a.asps - {c}))
    ensures var b := Remove(policy, a, c, listing); Machine(policy, b) && Transition(policy, a, b)
  {
    if !a.closed {
      RecomputedMachine(policy, a, a.asps - {c}, listing);
      RecomputedTransition(policy, a, a.asps - {c}, listing);
    }
  }

  /** A T(r) expiry changes nothing unless it is the timer of the pending episode in force;
      then AS-PENDING ends in AS-INACTIVE or AS-DOWN by whether an ASP is inactive. */
  lemma ExpireMachine(policy: Policy, a: App, generation: nat)
    requires Machine(policy, a)
    ensures Machine(policy, Expire(a, generation).0)
    ensures if a.state == AsPending && generation == a.recoveryGen
            then Expire(a, generation).0.state == if Members(a.asps, AspInactive) != {} then AsInactive else AsDown
            else Expire(a, generation) == (a, NOTHING_OWED)
  {}

  lemma CloseMachine(policy: Policy, a: App)
    requires Machine(policy, a)
    ensures Machine(policy, Close(a).0) && Close(a).0.state == AsDown
  {}

  lemma RelistMachine(policy: Policy, a: App, listing: seq<Asp>)
    requires Machine(policy, a) && Lists(listing, a.asps)
    ensures Machine(policy, a.(active := listing)) && Transition(policy, a, a.(active := listing))
  {}

  /** Entering AS-PENDING arms a timer of a generation no earlier episode had. */
  lemma FreshTimer(policy: Policy, a: App, b: App)
    requires Machine(policy, a) && Transition(policy, a, b) && b.state == AsPending && a.state != AsPending
    ensures b.recoveryGen > a.recoveryGen
  {}
}
