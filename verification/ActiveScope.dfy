/** An SGP's (or IPSP's) compact record of the Application Servers its peer ASP is active in:
    "everything configured, less what was registered since" until a procedure names a Routing
    Context, and an explicit set from then on. The record is compared, over every run, with
    the plain set of active Application Servers it stands for. */
module ActiveScope {
  import opened Common
  import opened MembershipScope

  /** One configured Application Server, as activation distinguishes them. */
  datatype Entry = Contextless | Context(routingContext: uint32)

  datatype Record = Record(
    activeRCs: set<uint32>,
    /** activeRCs is the whole answer; otherwise everything is active but inactiveDynamicRCs. */
    activeRCsScoped: bool,
    /** An ASP Active has been recorded since the record was last forgotten. */
    activeScopeInitialized: bool,
    contextlessASActive: bool,
    inactiveDynamicRCs: set<uint32>)

  /** The association's configuration and its registry of dynamically registered keys. */
  datatype Scope = Scope(config: Config, dynamic: Registry)
  {
    function Contexts(): set<uint32> {
      (set rc | rc in config.Static()) + dynamic.Keys
    }

    function Configured(): set<Entry> {
      (set rc | rc in Contexts() :: Context(rc)) + if config.HasContextless() then {Contextless} else {}
    }
  }

  predicate ActiveForRoutingContext(r: Record, rc: uint32) {
    if !r.activeRCsScoped then rc !in r.inactiveDynamicRCs else rc in r.activeRCs
  }

  predicate ActiveFor(r: Record, e: Entry) {
    match e
    case Contextless => !r.activeRCsScoped || r.contextlessASActive
    case Context(rc) => ActiveForRoutingContext(r, rc)
  }

  /** The plain set the record stands for. */
  function ActiveSet(r: Record, s: Scope): set<Entry> {
    set e | e in s.Configured() && ActiveFor(r, e)
  }

  function Named(rcs: seq<uint32>): set<Entry> {
    set rc | rc in rcs :: Context(rc)
  }

  // ---- The record's operations ----

  function Materialize(r: Record, s: Scope): Record {
    Record(s.Contexts() - r.inactiveDynamicRCs, true, true, s.config.HasContextless(), {})
  }

  function NoteActive(r: Record, s: Scope, rcs: seq<uint32>): Record {
    if rcs == [] then Record({}, false, true, false, {})
    else
      var base := if !r.activeRCsScoped && r.activeScopeInitialized then Materialize(r, s) else r;
      var named := set rc | rc in rcs;
      base.(activeRCs := base.activeRCs + named, activeRCsScoped := true, activeScopeInitialized := true,
            inactiveDynamicRCs := base.inactiveDynamicRCs - named)
  }

  function NoteInactive(r: Record, s: Scope, rcs: seq<uint32>): Record {
    if rcs == [] then Record({}, true, true, false, {})
    else
      var base := if !r.activeRCsScoped then Materialize(r, s) else r;
      base.(activeRCs := base.activeRCs - (set rc | rc in rcs), activeRCsScoped := true, activeScopeInitialized := true,
            inactiveDynamicRCs := {})
  }

  /** An Alternate ASP Active at an IPSP in Single Exchange. */
  function NoteOverridden(r: Record, s: Scope, rcs: seq<uint32>): Record {
    var base := if !r.activeRCsScoped then Materialize(r, s) else r;
    base.(activeRCs := base.activeRCs - (set rc | rc in rcs))
  }

  function Register(r: Record, s: Scope, key: ASKey): Record {
    if key.routingContext !in s.dynamic && !r.activeRCsScoped
    then r.(inactiveDynamicRCs := r.inactiveDynamicRCs + {key.routingContext})
    else r
  }

  function Deregister(r: Record, rc: uint32): Record {
    r.(inactiveDynamicRCs := r.inactiveDynamicRCs - {rc})
  }

  const Forgotten := Record({}, false, false, false, {})

  // ---- What each does to the plain set ----

  /** Outside the scoped form the explicit set is empty; inside it, it names configured
      Application Servers only. */
  ghost predicate Tidy(r: Record, s: Scope) {
    && (!r.activeRCsScoped ==> r.activeRCs == {} && !r.contextlessASActive)
    && (r.activeRCsScoped ==> r.activeScopeInitialized)
    && r.inactiveDynamicRCs <= s.dynamic.Keys
    && r.activeRCs <= s.Contexts()
    && (r.contextlessASActive ==> s.config.HasContextless())
  }

  lemma InActiveSet(r: Record, s: Scope, e: Entry)
    ensures e in s.Configured() <==> (if e.Contextless? then s.config.HasContextless() else e.routingContext in s.Contexts())
    ensures e in ActiveSet(r, s) <==> e in s.Configured() && ActiveFor(r, e)
  {}

  lemma ActivatingAdds(r: Record, s: Scope, rcs: seq<uint32>)
    requires Tidy(r, s)
    ensures ActiveSet(NoteActive(r, s, rcs), s) ==
            if rcs == [] then s.Configured()
            else (if r.activeScopeInitialized then ActiveSet(r, s) else {}) + Named(rcs) * s.Configured()
  {
    hide Config.HasContextless, Config.Static;
    var before := if r.activeScopeInitialized then ActiveSet(r, s) else {};
    var after := if rcs == [] then s.Configured() else before + Named(rcs) * s.Configured();
    forall e: Entry ensures e in ActiveSet(NoteActive(r, s, rcs), s) <==> e in after {
      InActiveSet(r, s, e);
      InActiveSet(NoteActive(r, s, rcs), s, e);
      assert e in Named(rcs) <==> e.Context? && e.routingContext in rcs;
    }
  }

  lemma DeactivatingSubtracts(r: Record, s: Scope, rcs: seq<uint32>)
    ensures ActiveSet(NoteInactive(r, s, rcs), s) == if rcs == [] then {} else ActiveSet(r, s) - Named(rcs)
    ensures ActiveSet(NoteOverridden(r, s, rcs), s) == ActiveSet(r, s) - Named(rcs)
  {
    hide Config.HasContextless, Config.Static;
    forall e: Entry
      ensures e in ActiveSet(NoteInactive(r, s, rcs), s) <==> e in (if rcs == [] then {} else ActiveSet(r, s) - Named(rcs))
      ensures e in ActiveSet(NoteOverridden(r, s, rcs), s) <==> e in ActiveSet(r, s) - Named(rcs)
    {
      InActiveSet(r, s, e);
      InActiveSet(NoteInactive(r, s, rcs), s, e);
      InActiveSet(NoteOverridden(r, s, rcs), s, e);
      assert e in Named(rcs) <==> e.Context? && e.routingContext in rcs;
    }
  }

  function Registered(s: Scope, key: ASKey): Scope {
    s.(dynamic := s.dynamic[key.routingContext := key])
  }

  function Deregistered(s: Scope, rc: uint32): Scope {
    s.(dynamic := s.dynamic - {rc})
  }

  /** The branch that takes a registration for a fresh Application Server. */
  predicate TakenForFresh(r: Record, s: Scope, key: ASKey) {
    !r.activeRCsScoped && key.routingContext !in s.dynamic
  }

  /** association.go:2196-2202. Registering changes which Application Servers are active if
      and only if the Routing Context is configured statically, has no registration yet and
      is active in the unscoped form: it is then taken for fresh and becomes inactive. A
      Routing Context that was not configured stays inactive until it is named. */
  lemma RegisteringChanges(r: Record, s: Scope, key: ASKey)
    requires Tidy(r, s)
    ensures var e := Context(key.routingContext);
            var after := ActiveSet(Register(r, s, key), Registered(s, key));
            && (after == ActiveSet(r, s) <==> !(TakenForFresh(r, s, key) && key.routingContext in s.config.Static()))
            && after == ActiveSet(r, s) - (if TakenForFresh(r, s, key) then {e} else {})
            && (e !in s.Configured() ==> e !in after)
  {
    hide Config.HasContextless, Config.Static;
    var t := Registered(s, key);
    var q := Register(r, s, key);
    var e := Context(key.routingContext);
    assert t.Contexts() == s.Contexts() + {key.routingContext};
    forall d: Entry ensures d in ActiveSet(q, t) <==> d in ActiveSet(r, s) - if TakenForFresh(r, s, key) then {e} else {} {
      InActiveSet(r, s, d);
      InActiveSet(q, t, d);
    }
    InActiveSet(r, s, e);
    InActiveSet(q, t, e);
    assert key.routingContext in s.config.Static() ==> key.routingContext in s.Contexts();
  }

  /** What the registry lets an active peer deregister: not a Routing Context it is active in. */
  lemma DeregisteringRemoves(r: Record, s: Scope, rc: uint32)
    requires Tidy(r, s) && rc in s.dynamic && !ActiveForRoutingContext(r, rc)
    ensures var e := Context(rc);
            var after := ActiveSet(Deregister(r, rc), Deregistered(s, rc));
            after == ActiveSet(r, s) + (if !r.activeRCsScoped && rc in s.config.Static() then {e} else {})
  {
    hide Config.HasContextless, Config.Static;
    var t := Deregistered(s, rc);
    assert forall c: uint32 :: c in t.Contexts() <==> c in s.config.Static() || (c in s.dynamic && c != rc);
    var regained := if !r.activeRCsScoped && rc in s.config.Static() then {Context(rc)} else {};
    forall d: Entry ensures d in ActiveSet(Deregister(r, rc), t) <==> d in ActiveSet(r, s) + regained {
      InActiveSet(r, s, d);
      InActiveSet(Deregister(r, rc), t, d);
    }
  }

  // ---- Whole runs ----

  datatype Act =
    | Activate(rcs: seq<uint32>)
    | Deactivate(rcs: seq<uint32>)
    | Override(rcs: seq<uint32>)
    | Add(key: ASKey)
    | Remove(rc: uint32)

  /** The record, what it is configured with, and the plain set kept beside it. */
  datatype State = State(record: Record, scope: Scope, plain: set<Entry>)

  /** An ASP Active is recorded for the Application Servers that serve it, and the registry
      refuses to deregister a Routing Context the peer is active in. */
  ghost predicate Enabled(x: State, act: Act) {
    match act
    case Activate(rcs) => forall rc :: rc in rcs ==> rc in x.scope.Contexts()
    case Add(key) => key.routingContextSet
    case Remove(rc) => rc in x.scope.dynamic && !ActiveForRoutingContext(x.record, rc)
    case _ => true
  }

  function Step(x: State, act: Act): State {
    var (r, s, plain) := (x.record, x.scope, x.plain);
    match act
    case Activate(rcs) => State(NoteActive(r, s, rcs), s, if rcs == [] then s.Configured() else plain + Named(rcs))
    case Deactivate(rcs) => State(NoteInactive(r, s, rcs), s, if rcs == [] then {} else plain - Named(rcs))
    case Override(rcs) => State(NoteOverridden(r, s, rcs), s, plain - Named(rcs))
    case Add(key) => State(Register(r, s, key), Registered(s, key), plain)
    case Remove(rc) => State(Deregister(r, rc), Deregistered(s, rc), plain)
  }

  /** The registration that the record mistakes for a fresh Application Server. */
  predicate Mistaken(x: State, act: Act) {
    act.Add? && TakenForFresh(x.record, x.scope, act.key) && act.key.routingContext in x.scope.config.Static()
  }

  ghost predicate Agrees(x: State) {
    ActiveSet(x.record, x.scope) == x.plain
  }

  ghost predicate Inv(x: State) {
    && Tidy(x.record, x.scope) && x.record.activeScopeInitialized
    && (!x.record.activeRCsScoped ==> x.record.inactiveDynamicRCs !! (set rc | rc in x.scope.config.Static()))
  }

  /** Forgotten when the peer last left ASP-ACTIVE; registrations may have come since. */
  ghost predicate Opening(x: State) {
    Tidy(x.record, x.scope) && !x.record.activeScopeInitialized && x.plain == {}
  }

  lemma NamedConfigured(s: Scope, rcs: seq<uint32>)
    requires forall rc :: rc in rcs ==> rc in s.Contexts()
    ensures Named(rcs) <= s.Configured()
  {}

  lemma TidyStep(x: State, act: Act)
    requires Enabled(x, act) && Tidy(x.record, x.scope)
    ensures Tidy(Step(x, act).record, Step(x, act).scope)
  {
    hide Config.HasContextless, Config.Static, Scope.Configured;
    if act.Remove? { assert act.rc !in x.record.activeRCs || !x.record.activeRCsScoped; }
  }

  lemma OpeningStep(x: State, act: Act)
    requires Opening(x) && act.Activate? && Enabled(x, act)
    ensures Inv(Step(x, act)) && Agrees(Step(x, act))
  {
    hide Config.HasContextless, Config.Static, Scope.Configured, Tidy, ActiveSet;
    TidyStep(x, act);
    ActivatingAdds(x.record, x.scope, act.rcs);
    NamedConfigured(x.scope, act.rcs);
  }

  lemma InvStep(x: State, act: Act)
    requires Inv(x) && Enabled(x, act) && !Mistaken(x, act)
    ensures Inv(Step(x, act))
  {
    hide Config.HasContextless, Config.Static, Scope.Configured, Tidy;
    TidyStep(x, act);
  }

  lemma AgreesStep(x: State, act: Act)
    requires Inv(x) && Agrees(x) && Enabled(x, act)
    ensures Agrees(Step(x, act)) <==> !Mistaken(x, act)
  {
    hide Config.HasContextless, Config.Static, Scope.Configured, ActiveSet, Scope.Contexts;
    match act
    case Activate(rcs) => ActivatingAdds(x.record, x.scope, rcs); NamedConfigured(x.scope, rcs);
    case Deactivate(rcs) => DeactivatingSubtracts(x.record, x.scope, rcs);
    case Override(rcs) => DeactivatingSubtracts(x.record, x.scope, rcs);
    case Add(key) => RegisteringChanges(x.record, x.scope, key);
    case Remove(rc) => DeregisteringRemoves(x.record, x.scope, rc);
  }

  ghost predicate IsRun(states: seq<State>, acts: seq<Act>) {
    && |states| == |acts| + 1 && |acts| > 0 && Opening(states[0]) && acts[0].Activate?
    && forall n :: 0 <= n < |acts| ==> Enabled(states[n], acts[n]) && states[n + 1] == Step(states[n], acts[n])
  }

  lemma {:induction false} RunKeeps(states: seq<State>, acts: seq<Act>)
    requires IsRun(states, acts)
    requires forall n :: 1 <= n < |acts| ==> !Mistaken(states[n], acts[n])
    ensures Inv(states[|acts|]) && Agrees(states[|acts|])
  {
    hide Inv, Agrees, Opening, Enabled, Step, Mistaken;
    var n := |acts| - 1;
    if n == 0 {
      OpeningStep(states[0], acts[0]);
    } else {
      RunKeeps(states[..n + 1], acts[..n]);
      assert Enabled(states[n], acts[n]);
      InvStep(states[n], acts[n]);
      AgreesStep(states[n], acts[n]);
    }
  }

  /** From the first ASP Active until the peer leaves ASP-ACTIVE the record stands for the
      plain set after every step, exactly when no registration along the way is mistaken for
      a fresh Application Server. */
  lemma {:induction false} RecordIsPlainSet(states: seq<State>, acts: seq<Act>)
    requires IsRun(states, acts)
    ensures (forall n :: 1 <= n <= |acts| ==> Agrees(states[n])) <==> (forall n :: 1 <= n < |acts| ==> !Mistaken(states[n], acts[n]))
  {
    hide Inv, Agrees, Opening, Enabled, Step, Mistaken;
    if forall n :: 1 <= n < |acts| ==> !Mistaken(states[n], acts[n]) {
      forall n | 1 <= n <= |acts| ensures Agrees(states[n]) {
        RunKeeps(states[..n + 1], acts[..n]);
      }
    } else {
      var n := FirstMistake(states, acts);
      RunKeeps(states[..n + 1], acts[..n]);
      assert Enabled(states[n], acts[n]);
      AgreesStep(states[n], acts[n]);
      assert !Agrees(states[n + 1]);
    }
  }

  lemma FirstMistake(states: seq<State>, acts: seq<Act>) returns (n: nat)
    requires |states| == |acts| + 1
    requires exists k :: 1 <= k < |acts| && Mistaken(states[k], acts[k])
    ensures 1 <= n < |acts| && Mistaken(states[n], acts[n])
    ensures forall k :: 1 <= k < n ==> !Mistaken(states[k], acts[k])
  {
    hide Mistaken;
    n := 1;
    while !Mistaken(states[n], acts[n])
      invariant 1 <= n < |acts|
      invariant forall k :: 1 <= k < n ==> !Mistaken(states[k], acts[k])
      decreases |acts| - n
    {
      n := n + 1;
    }
  }

  /** A peer activated everywhere registers a key whose Routing Context the SGP already serves
      it under: the record loses an Application Server nothing deactivated. */
  lemma StaticRegistrationDeactivates()
    ensures exists states, acts :: IsRun(states, acts) && !Agrees(states[|acts|])
  {
    var key := ASKey(0, false, 7, true);
    var config := Config(RoleSGP, false, None, None, [key], Resolved([7], false));
    var s := Scope(config, map[]);
    var acts := [Activate([]), Add(key)];
    var x0 := State(Forgotten, s, {});
    var x1 := Step(x0, acts[0]);
    var x2 := Step(x1, acts[1]);
    assert IsRun([x0, x1, x2], acts);
    OpeningStep(x0, acts[0]);
    assert Mistaken(x1, acts[1]);
    AgreesStep(x1, acts[1]);
  }

  // ---- The record in place ----

  class ActiveRecord {
    const config: Config
    var dynamic: Registry
    var activeRCs: set<uint32>
    var activeRCsScoped: bool
    var activeScopeInitialized: bool
    var contextlessASActive: bool
    var inactiveDynamicRCs: set<uint32>

    function Value(): Record
      reads this
    {
      Record(activeRCs, activeRCsScoped, activeScopeInitialized, contextlessASActive, inactiveDynamicRCs)
    }

    function Within(): Scope
      reads this
    {
      Scope(config, dynamic)
    }

    constructor (config: Config)
      ensures this.config == config && dynamic == map[] && Value() == Forgotten
    {
      this.config := config;
      dynamic, activeRCs, inactiveDynamicRCs := map[], {}, {};
      activeRCsScoped, activeScopeInitialized, contextlessASActive := false, false, false;
    }

    method MaterializeUnscoped()
      modifies this
      ensures dynamic == old(dynamic) && Value() == Materialize(old(Value()), Within())
    {
      var contexts, order := ConfiguredRoutingContexts(config, dynamic);
      activeRCs := {};
      var i := 0;
      while i < |contexts|
        invariant i <= |contexts|
        invariant dynamic == old(dynamic) && inactiveDynamicRCs == old(inactiveDynamicRCs)
        invariant activeRCs == (set rc | rc in contexts[..i] && rc !in inactiveDynamicRCs)
      {
        if contexts[i] !in inactiveDynamicRCs { activeRCs := activeRCs + {contexts[i]}; }
        i := i + 1;
      }
      assert contexts[..i] == contexts;
      activeRCsScoped, activeScopeInitialized := true, true;
      contextlessASActive := config.HasContextless();
      inactiveDynamicRCs := {};
    }

    method NoteRoutingContextsActive(rcs: seq<uint32>)
      modifies this
      ensures dynamic == old(dynamic) && Value() == NoteActive(old(Value()), Within(), rcs)
    {
      if |rcs| == 0 {
        activeRCs, activeRCsScoped, activeScopeInitialized := {}, false, true;
        contextlessASActive, inactiveDynamicRCs := false, {};
        return;
      }
      if !activeRCsScoped && activeScopeInitialized { MaterializeUnscoped(); }
      activeRCsScoped, activeScopeInitialized := true, true;
      ghost var active, inactive := activeRCs, inactiveDynamicRCs;
      var i := 0;
      while i < |rcs|
        modifies `activeRCs, `inactiveDynamicRCs
        invariant i <= |rcs|
        invariant activeRCs == active + set rc | rc in rcs[..i]
        invariant inactiveDynamicRCs == inactive - set rc | rc in rcs[..i]
      {
        activeRCs := activeRCs + {rcs[i]};
        inactiveDynamicRCs := inactiveDynamicRCs - {rcs[i]};
        i := i + 1;
      }
      assert rcs[..i] == rcs;
    }

    method NoteRoutingContextsInactive(rcs: seq<uint32>)
      modifies this
      ensures dynamic == old(dynamic) && Value() == NoteInactive(old(Value()), Within(), rcs)
    {
      if |rcs| == 0 {
        activeRCs, activeRCsScoped, activeScopeInitialized := {}, true, true;
        contextlessASActive, inactiveDynamicRCs := false, {};
        return;
      }
      if !activeRCsScoped { MaterializeUnscoped(); }
      activeRCsScoped, activeScopeInitialized, inactiveDynamicRCs := true, true, {};
      Subtract(rcs);
    }

    method Subtract(rcs: seq<uint32>)
      modifies `activeRCs
      ensures activeRCs == old(activeRCs) - set rc | rc in rcs
    {
      var i := 0;
      while i < |rcs|
        invariant i <= |rcs| && activeRCs == old(activeRCs) - set rc | rc in rcs[..i]
      {
        activeRCs := activeRCs - {rcs[i]};
        i := i + 1;
      }
      assert rcs[..i] == rcs;
    }

    /** At an IPSP in Single Exchange. */
    method NoteRoutingContextsOverridden(rcs: seq<uint32>)
      modifies this
      ensures dynamic == old(dynamic) && Value() == NoteOverridden(old(Value()), Within(), rcs)
    {
      if !activeRCsScoped { MaterializeUnscoped(); }
      Subtract(rcs);
    }

    method ForgetActiveRoutingContexts()
      modifies this
      ensures dynamic == old(dynamic) && Value() == Forgotten
    {
      activeRCs, activeRCsScoped, activeScopeInitialized := {}, false, false;
      contextlessASActive, inactiveDynamicRCs := false, {};
    }

    /** The peer-direction form at an SGP or IPSP. */
    method AddDynamicASKey(key: ASKey)
      modifies this
      ensures if key.routingContextSet
              then Within() == Registered(old(Within()), key) && Value() == Register(old(Value()), old(Within()), key)
              else Within() == old(Within()) && Value() == old(Value())
    {
      if !key.routingContextSet { return; }
      if key.routingContext !in dynamic && !activeRCsScoped {
        inactiveDynamicRCs := inactiveDynamicRCs + {key.routingContext};
      }
      dynamic := dynamic[key.routingContext := key];
    }

    method RemoveDynamicASKey(rc: uint32)
      modifies this
      ensures Within() == Deregistered(old(Within()), rc) && Value() == Deregister(old(Value()), rc)
    {
      dynamic := dynamic - {rc};
      inactiveDynamicRCs := inactiveDynamicRCs - {rc};
    }

    method ActiveForASKey(key: ASKey) returns (active: bool)
      ensures active == ActiveFor(Value(), if key.routingContextSet then Context(key.routingContext) else Contextless)
    {
      if !key.routingContextSet { return !activeRCsScoped || contextlessASActive; }
      if !activeRCsScoped { return key.routingContext !in inactiveDynamicRCs; }
      return key.routingContext in activeRCs;
    }
  }
}
