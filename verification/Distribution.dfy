/** All interleavings of an Endpoint's Application Servers: membership changes, accepted DATA,
    the sender that owns the active-send slot, drain goroutines, retry and T(r) timers that
    may fire late, and releases to the shared budget made after the lock is given up. Socket
    writes are the gaps between steps. */
module Distribution {
  import opened Common
  import opened AsState
  import opened AsMachine

  // ---- Threads of one Application Server ----

  /** How far a delivery attempt has come; it holds the delivery barrier throughout. */
  datatype Attempt =
    | Unchosen
    | Writing(left: seq<Asp>, failed: seq<Asp>, retry: bool, epoch: nat, marker: bool)
    | Written(err: bool, next: Option<Retry>)

  /** Who holds the delivery barrier with a message on the wire. */
  datatype Wire =
    | Free
    | Sending(message: Message, attempt: Attempt)
    | Draining(item: Item, attempt: Attempt)

  /** What only the proofs remember. */
  datatype History = History(
    /** Ids in the order of their first delivery attempts. */
    firsts: seq<nat>,
    /** Which associations have accepted which messages. */
    accepted: set<(nat, Asp)>,
    /** ASPs that accepted a marked message of the flow since their latest activation. */
    synced: set<(Flow, Asp)>,
    /** First Broadcast targets of drained messages that have neither accepted the message nor
        left ASP-ACTIVE. */
    owing: set<(nat, Asp)>,
    /** The generation armed when AS-PENDING was last entered. */
    episode: nat)

  datatype Server = Server(
    app: App,
    /** The sender that owns the active-send slot and waits for the delivery barrier. */
    waiting: Option<Message>,
    wire: Wire,
    /** Drain goroutines not holding the barrier. */
    idle: nat,
    /** Generations of T(r) whose function may still run. */
    timers: set<nat>,
    /** Releases to the budget not yet made. */
    owed: seq<Owed>,
    nextId: nat,
    history: History)

  datatype Config = Config(policy: Policy, limits: Limits)

  datatype Act =
    | Record(asp: Asp, to: AspState, ifAbsent: bool, listing: seq<Asp>)
    | Down(asp: Asp, listing: seq<Asp>)
    | Inactivate(asps: set<Asp>, listing: seq<Asp>)
    | OverrideBy(asp: Asp, listing: seq<Asp>)
    | Drop(asp: Asp, listing: seq<Asp>)
    | Relist(listing: seq<Asp>)
    | ModeSet(mode: Mode)
    | ModeAgreed(mode: Mode)
    | Shut
    | TimerFires(generation: nat)
    | Offer(flow: Flow, sls: nat, size: nat)
    | SenderResumes
    | DrainPops
    | Choose
    | WriteOk
    | WriteFails
    | Mark
    | Ends
    | RetryTimer
    | Pays(index: nat)

  // ---- Bookkeeping around a critical section ----

  ghost function Activated(a: App, b: App): set<Asp> {
    set c | c in b.asps && b.asps[c] == AspActive && !(c in a.asps && a.asps[c] == AspActive)
  }

  ghost function Forget(h: History, a: App, b: App): History {
    h.(synced := (set p | p in h.synced && p.1 !in Activated(a, b)),
       owing := (set p | p in h.owing && p.1 in b.asps && b.asps[p.1] == AspActive),
       episode := if b.state == AsPending && a.state != AsPending then b.recoveryGen else h.episode)
  }

  /** The server after one of its critical sections: a drain it started runs, and a T(r) it
      armed may fire. */
  ghost function Entered(v: Server, b: App): Server {
    v.(app := b,
       idle := v.idle + if b.draining && !v.app.draining then 1 else 0,
       timers := v.timers + if b.state == AsPending && v.app.state != AsPending then {b.recoveryGen} else {},
       history := Forget(v.history, v.app, b))
  }

  ghost function NewMembers(a: App, act: Act): map<Asp, AspState>
    requires act.Record? || act.Down? || act.Inactivate? || act.OverrideBy? || act.Drop? || act.Relist?
  {
    match act
    case Record(c, st, ifAbsent, _) => if c in a.asps && ifAbsent then a.asps else a.asps[c := st]
    case Down(c, _) => if c in a.asps then a.asps[c := AspDown] else a.asps
    case Inactivate(cs, _) => MarkedInactive(a.asps, cs)
    case OverrideBy(c, _) => Overridden(a.asps, c)
    case Drop(c, _) => a.asps - {c}
    case Relist(_) => a.asps
  }

  ghost predicate IsMembership(act: Act) {
    act.Record? || act.Down? || act.Inactivate? || act.OverrideBy? || act.Drop? || act.Relist?
  }

  ghost function Membership(policy: Policy, a: App, act: Act): App
    requires IsMembership(act)
  {
    match act
    case Record(c, st, ifAbsent, listing) => RecordState(policy, a, c, st, ifAbsent, listing)
    case Down(c, listing) => MarkDown(policy, a, c, listing)
    case Inactivate(cs, listing) => MarkInactive(policy, a, cs, listing)
    case OverrideBy(c, listing) => ActivateOverride(policy, a, c, listing)
    case Drop(c, listing) => Remove(policy, a, c, listing)
    // refreshASPOrdering (as.go:1011-1034): an ASP Identifier changed.
    case Relist(listing) => a.(active := listing)
  }

  function AttemptOf(w: Wire): Attempt
    requires !w.Free?
  {
    match w
    case Sending(_, attempt) => attempt
    case Draining(_, attempt) => attempt
  }

  function MessageOf(w: Wire): Message
    requires !w.Free?
  {
    match w
    case Sending(m, _) => m
    case Draining(item, _) => item.message
  }

  function RetryOf(w: Wire): Option<Retry>
    requires !w.Free?
  {
    match w
    case Sending(_, _) => None
    case Draining(item, _) => item.retry
  }

  function WithAttempt(w: Wire, attempt: Attempt): Wire
    requires !w.Free?
  {
    match w
    case Sending(m, _) => Sending(m, attempt)
    case Draining(item, _) => Draining(item, attempt)
  }

  // ---- What each step needs ----

  ghost predicate Enabled(cfg: Config, v: Server, act: Act) {
    match act
    case Record(_, _, _, listing) => !v.app.closed ==> Lists(listing, NewMembers(v.app, act))
    case Down(_, listing) => !v.app.closed ==> Lists(listing, NewMembers(v.app, act))
    case Inactivate(_, listing) => !v.app.closed ==> Lists(listing, NewMembers(v.app, act))
    // The caller has read the traffic mode, which never changes once agreed (asptm.go:1211).
    case OverrideBy(_, listing) => v.app.mode == Override && (!v.app.closed ==> Lists(listing, NewMembers(v.app, act)))
    case Drop(_, listing) => !v.app.closed ==> Lists(listing, NewMembers(v.app, act))
    case Relist(listing) => Lists(listing, v.app.asps)
    case ModeSet(mode) => mode != NoMode
    case ModeAgreed(mode) => mode != NoMode
    case Shut => true
    case TimerFires(generation) => generation in v.timers
    case Offer(_, _, size) => size > 0
    case SenderResumes => v.waiting.Some? && v.wire.Free?
    case DrainPops => v.idle > 0 && v.wire.Free?
    case Choose => !v.wire.Free? && AttemptOf(v.wire).Unchosen?
    case WriteOk => !v.wire.Free? && AttemptOf(v.wire).Writing? && AttemptOf(v.wire).left != []
    case WriteFails => !v.wire.Free? && AttemptOf(v.wire).Writing? && AttemptOf(v.wire).left != []
    case Mark => !v.wire.Free? && AttemptOf(v.wire).Writing? && AttemptOf(v.wire).left == []
    case Ends => !v.wire.Free? && AttemptOf(v.wire).Written?
    case RetryTimer => true
    case Pays(index) => index < |v.owed|
  }

  // ---- The steps ----

  ghost function Choosing(v: Server): Server
    requires !v.wire.Free?
  {
    var m := MessageOf(v.wire);
    var first := m.id !in v.history.firsts;
    var firsts := if first then v.history.firsts + [m.id] else v.history.firsts;
    match Select(v.app, m, RetryOf(v.wire))
    case NoTargets => v.(wire := WithAttempt(v.wire, Written(true, RetryOf(v.wire))), history := v.history.(firsts := firsts))
    case Selected(targets, retry, epoch, marker) =>
      var owing := if v.wire.Draining? && RetryOf(v.wire).None? && retry then v.history.owing + set t | t in targets :: (m.id, t) else v.history.owing;
      v.(wire := WithAttempt(v.wire, Writing(targets, [], retry, epoch, marker)),
         history := v.history.(firsts := firsts, owing := owing))
  }

  ghost function Wrote(v: Server, ok: bool): Server
    requires !v.wire.Free? && AttemptOf(v.wire).Writing? && AttemptOf(v.wire).left != []
  {
    var m, w := MessageOf(v.wire), AttemptOf(v.wire);
    var target := w.left[0];
    var h := v.history;
    if ok then
      v.(wire := WithAttempt(v.wire, w.(left := w.left[1..])),
         history := h.(accepted := h.accepted + {(m.id, target)},
                       synced := if w.marker then h.synced + {(m.flow, target)} else h.synced,
                       owing := h.owing - {(m.id, target)}))
    else v.(wire := WithAttempt(v.wire, w.(left := w.left[1..], failed := w.failed + [target])))
  }

  ghost function Marked(cfg: Config, v: Server): Server
    requires !v.wire.Free? && AttemptOf(v.wire).Writing?
  {
    var m, w := MessageOf(v.wire), AttemptOf(v.wire);
    var app := if w.marker && w.failed == [] then CommitMarker(cfg.limits, v.app, m.flow, w.epoch) else v.app;
    v.(app := app,
       wire := WithAttempt(v.wire, Written(w.failed != [], if w.retry then Some(Retry(w.failed, w.epoch, w.marker)) else None)))
  }

  ghost function Ended(v: Server, b: Budget): (Server, Budget)
    requires !v.wire.Free? && AttemptOf(v.wire).Written?
  {
    match v.wire
    case Sending(m, _) => (Entered(v, EndSend(v.app, m)).(wire := Free), Release(b, Owed(1, m.size)))
    case Draining(item, attempt) =>
      if !attempt.err then
        (Entered(v, Finished(v.app, item.message.size)).(wire := Free, idle := v.idle + 1), Release(b, Owed(1, item.message.size)))
      else
        var next := item.(retry := attempt.next);
        (Entered(v, EndFailedDrain(v.app, next)).(wire := Free),
         if Restores(v.app, next) then b else Release(b, Owed(1, item.message.size)))
  }

  ghost function Step(cfg: Config, v: Server, b: Budget, act: Act): (Server, Budget)
    requires Enabled(cfg, v, act)
  {
    hide Forget, SetMode, AgreeMode, Close, Expire, BeginDistribute, ResumeSend, Pop, Membership, RetryFires, Choosing, Wrote, Marked, Ended, Lists;
    match act
    case ModeSet(mode) => (Entered(v, SetMode(cfg.policy, v.app, mode)), b)
    case ModeAgreed(mode) => (Entered(v, AgreeMode(v.app, mode)), b)
    case Shut => (Entered(v, Close(v.app).0).(owed := v.owed + [Close(v.app).1]), b)
    case TimerFires(generation) =>
      (Entered(v, Expire(v.app, generation).0).(owed := v.owed + [Expire(v.app, generation).1], timers := v.timers - {generation}), b)
    case Offer(flow, sls, size) =>
      var m := Message(v.nextId, flow, sls, size);
      var (app, budget, verdict) := BeginDistribute(cfg.limits, v.app, b, m);
      (Entered(v, app).(nextId := v.nextId + 1, waiting := if verdict == SlotTaken then Some(m) else v.waiting), budget)
    case SenderResumes =>
      var m := v.waiting.value;
      var (app, how) := ResumeSend(v.app, m);
      (Entered(v, app).(waiting := None, wire := if how == Deliver then Sending(m, Unchosen) else v.wire),
       if how == ResumedClosed || how == ResumedInactive then Release(b, Owed(1, m.size)) else b)
    case DrainPops =>
      var (app, popped) := Pop(v.app);
      (Entered(v, app).(idle := v.idle - 1, wire := if popped.Takes? then Draining(popped.item, Unchosen) else v.wire), b)
    case Choose => (Choosing(v), b)
    case WriteOk => (Wrote(v, true), b)
    case WriteFails => (Wrote(v, false), b)
    case Mark => (Marked(cfg, v), b)
    case Ends => Ended(v, b)
    case RetryTimer => (Entered(v, RetryFires(v.app)), b)
    case Pays(index) => (v.(owed := v.owed[..index] + v.owed[index + 1..]), Release(b, v.owed[index]))
    case _ => (Entered(v, Membership(cfg.policy, v.app, act)), b)
  }

  ghost function NewServer(): Server {
    Server(App(map[], [], AsDown, false, NoMode, false, 0, 0, [], 0, 0, false, false, false, 0, map[]),
           None, Free, 0, {}, [], 0, History([], {}, {}, {}, 0))
  }

  // ---- Whole systems ----

  datatype System = System(servers: seq<Server>, budget: Budget)

  ghost predicate SystemEnabled(cfg: seq<Config>, s: System, i: nat, act: Act) {
    i < |s.servers| && |cfg| == |s.servers| && Enabled(cfg[i], s.servers[i], act)
  }

  ghost function SystemStep(cfg: seq<Config>, s: System, i: nat, act: Act): System
    requires SystemEnabled(cfg, s, i, act)
  {
    var (v, b) := Step(cfg[i], s.servers[i], s.budget, act);
    System(s.servers[i := v], b)
  }

  ghost predicate IsRun(cfg: seq<Config>, states: seq<System>, steps: seq<(nat, Act)>) {
    && |states| == |steps| + 1
    && (forall i :: 0 <= i < |states[0].servers| ==> states[0].servers[i] == NewServer())
    && states[0].budget.messages == 0 && states[0].budget.bytes == 0
    && |cfg| == |states[0].servers| && (forall i :: 0 <= i < |cfg| ==> cfg[i].policy.required >= 1)
    && (forall n :: 0 <= n < |steps| ==>
          && SystemEnabled(cfg, states[n], steps[n].0, steps[n].1)
          && states[n + 1] == SystemStep(cfg, states[n], steps[n].0, steps[n].1))
  }

  lemma RunPrefix(cfg: seq<Config>, states: seq<System>, steps: seq<(nat, Act)>)
    requires IsRun(cfg, states, steps) && steps != []
    ensures |states| == |steps| + 1 && IsRun(cfg, states[..|steps|], steps[..|steps| - 1])
  {
    hide SystemEnabled, SystemStep;
  }
}
