/** One Application Server as a value, and what each critical section of as.go and
    distribution.go does to it. A socket write never happens inside one of these steps. */
module AsState {
  import opened Common

  type Asp = nat

  datatype AspState = AspDown | AspInactive | AspActive

  /** RFC 4666 section 4.3.2. */
  datatype AppState = AsDown | AsInactive | AsActive | AsPending

  /** The traffic mode in force; NoMode until one is agreed. */
  datatype Mode = NoMode | Override | Loadshare | Broadcast

  /** n and the smooth-start exception of section 4.3.2. */
  datatype Policy = Policy(required: nat, smoothStart: bool)

  type Flow = nat

  /** One DATA message; the id counts acceptances of this Application Server. */
  datatype Message = Message(id: nat, flow: Flow, sls: nat, size: nat)

  /** What a Broadcast attempt leaves for the next one: the targets whose copy failed. */
  datatype Retry = Retry(targets: seq<Asp>, epoch: nat, marker: bool)

  /** A retained message with the T(r) generation it belongs to. */
  datatype Item = Item(message: Message, generation: nat, retry: Option<Retry>)

  datatype Limits = Limits(messages: nat, bytes: nat, flows: nat)

  datatype Budget = Budget(messages: int, bytes: int, messageLimit: nat, byteLimit: nat)

  datatype App = App(
    asps: map<Asp, AspState>,
    /** The ASP-ACTIVE members in distribution order. */
    active: seq<Asp>,
    state: AppState,
    closed: bool,
    mode: Mode,
    /** T(r) is running. */
    armed: bool,
    recoveryGen: nat,
    expiredGen: nat,
    queue: seq<Item>,
    queueBytes: int,
    inFlight: nat,
    activeSending: bool,
    draining: bool,
    retryArmed: bool,
    epoch: nat,
    tagged: map<Flow, nat>)

  // ---- Counting members ----

  ghost function Members(asps: map<Asp, AspState>, st: AspState): set<Asp> {
    set a | a in asps && asps[a] == st
  }

  /** The distribution order lists each ASP-ACTIVE member once. */
  ghost predicate Lists(listing: seq<Asp>, asps: map<Asp, AspState>) {
    && (forall a :: a in listing <==> a in asps && asps[a] == AspActive)
    && (forall i, j :: 0 <= i < j < |listing| ==> listing[i] != listing[j])
  }

  // ---- The AS state machine (as.go:1593-1650) ----

  function NextState(policy: Policy, previous: AppState, active: nat, inactive: nat): AppState {
    if active >= policy.required then AsActive
    else if active > 0 && (previous == AsActive || previous == AsPending || policy.smoothStart) then AsActive
    else if active > 0 then AsInactive
    else if previous == AsActive then AsPending
    else if previous == AsPending then AsPending
    else if inactive > 0 then AsInactive
    else AsDown
  }

  function Restamped(queue: seq<Item>, generation: nat): (restamped: seq<Item>)
    ensures |restamped| == |queue|
    ensures forall i :: 0 <= i < |queue| ==> restamped[i] == queue[i].(generation := generation)
  {
    if queue == [] then [] else Restamped(queue[..|queue| - 1], generation) + [queue[|queue| - 1].(generation := generation)]
  }

  /** startRecoveryLocked (as.go:1793-1800). */
  function StartRecovery(a: App): App {
    a.(recoveryGen := a.recoveryGen + 1, queue := Restamped(a.queue, a.recoveryGen + 1), armed := true)
  }

  /** recomputeLockedFor: the state the members add up to, and the timers that follow it. */
  ghost function Recomputed(policy: Policy, a: App, listing: seq<Asp>): App {
    var next := NextState(policy, a.state, |Members(a.asps, AspActive)|, |Members(a.asps, AspInactive)|);
    var listed := a.(active := listing);
    if next == a.state then listed
    else
      var stopped := listed.(state := next, armed := false);
      var started := if next == AsPending then StartRecovery(stopped) else stopped;
      if next != AsActive then started.(retryArmed := false) else started
  }

  // ---- Membership changes ----

  predicate StartsDrain(a: App) {
    a.state == AsActive && a.queue != [] && !a.draining && !a.activeSending
  }

  function StartDrain(a: App): App {
    if StartsDrain(a) then a.(retryArmed := false, draining := true) else a
  }

  /** noteBroadcastActivationLocked (distribution.go:664-673). */
  function NoteActivation(a: App): App {
    if a.mode != Broadcast then a else a.(epoch := a.epoch + 1, tagged := map[])
  }

  function Joined(a: App, c: Asp, st: AspState): App {
    var joined := a.(asps := a.asps[c := st]);
    if st == AspActive && !(c in a.asps && a.asps[c] == AspActive) then NoteActivation(joined) else joined
  }

  /** recordASPState (as.go:1467-1497). */
  ghost function RecordState(policy: Policy, a: App, c: Asp, st: AspState, ifAbsent: bool, listing: seq<Asp>): App {
    if a.closed then a
    else
      var joined := if c in a.asps && ifAbsent then a else Joined(a, c, st);
      StartDrain(Recomputed(policy, joined, listing))
  }

  /** markASPDown (as.go:1276-1291). */
  ghost function MarkDown(policy: Policy, a: App, c: Asp, listing: seq<Asp>): App {
    if a.closed || c !in a.asps || a.asps[c] == AspDown then a
    else Recomputed(policy, a.(asps := a.asps[c := AspDown]), listing)
  }

  function MarkedInactive(asps: map<Asp, AspState>, cs: set<Asp>): map<Asp, AspState> {
    asps + map c | c in cs :: AspInactive
  }

  /** markASPsInactive (as.go:1296-1318). */
  ghost function MarkInactive(policy: Policy, a: App, cs: set<Asp>, listing: seq<Asp>): App {
    if a.closed || (forall c :: c in cs ==> c in a.asps && a.asps[c] == AspInactive) then a
    else Recomputed(policy, a.(asps := MarkedInactive(a.asps, cs)), listing)
  }

  /** The members after one challenger displaced every other active one. */
  function Overridden(asps: map<Asp, AspState>, challenger: Asp): map<Asp, AspState> {
    map c | c in asps.Keys + {challenger} ::
      if c == challenger then AspActive else if asps[c] == AspActive then AspInactive else asps[c]
  }

  /** activateOverride (as.go:1350-1383). */
  ghost function ActivateOverride(policy: Policy, a: App, challenger: Asp, listing: seq<Asp>): App {
    if a.closed then a
    else
      var overridden := Overridden(a.asps, challenger);
      var next := a.(asps := overridden);
      StartDrain(if overridden == a.asps then next else Recomputed(policy, next, listing))
  }

  /** remove (as.go:1386-1412). */
  ghost function Remove(policy: Policy, a: App, c: Asp, listing: seq<Asp>): App {
    if a.closed || c !in a.asps then a
    else Recomputed(policy, a.(asps := a.asps - {c}), listing)
  }

  /** What is to be released to the shared budget once the lock is given up. */
  datatype Owed = Owed(messages: nat, bytes: int)

  const NOTHING_OWED := Owed(0, 0)

  /** close (as.go:1320-1344). */
  function Close(a: App): (App, Owed) {
    if a.closed then (a, NOTHING_OWED)
    else (a.(closed := true, state := AsDown, armed := false, retryArmed := false,
             recoveryGen := a.recoveryGen + 1, expiredGen := a.recoveryGen + 1,
             queue := [], queueBytes := a.inFlight, draining := false, active := []),
          Owed(|a.queue|, a.queueBytes - a.inFlight))
  }

  /** recoveryExpired (as.go:1816-1847). */
  ghost function Expire(a: App, generation: nat): (App, Owed) {
    if generation != a.recoveryGen || a.state != AsPending then (a, NOTHING_OWED)
    else (a.(armed := false, state := if Members(a.asps, AspInactive) != {} then AsInactive else AsDown,
             expiredGen := generation, queue := [], queueBytes := a.inFlight, draining := false, retryArmed := false),
          Owed(|a.queue|, a.queueBytes - a.inFlight))
  }

  /** setTrafficModeLocked (as.go:1553-1563). */
  ghost function SetMode(policy: Policy, a: App, mode: Mode): App {
    if (mode == Override && policy.required != 1) || a.mode != NoMode then a
    else
      var set_ := a.(mode := mode);
      if mode == Broadcast && Members(a.asps, AspActive) != {} then NoteActivation(set_) else set_
  }

  /** The adoption of a mode by agreeTrafficModeForKeys (as.go:1144-1148). */
  function AgreeMode(a: App, mode: Mode): App {
    if a.closed || a.mode != NoMode then a else a.(mode := mode)
  }

  // ---- The shared budget (as.go:209-235) ----

  predicate CanClaim(b: Budget, size: nat) {
    b.messages < b.messageLimit && size <= b.byteLimit - b.bytes
  }

  function Claim(b: Budget, size: nat): Budget {
    b.(messages := b.messages + 1, bytes := b.bytes + size)
  }

  function Release(b: Budget, owed: Owed): Budget {
    if owed.messages == 0 then b else b.(messages := b.messages - owed.messages, bytes := b.bytes - owed.bytes)
  }

  /** The accounting panic of release. */
  predicate BudgetPanics(b: Budget) {
    b.messages < 0 || b.bytes < 0
  }

  // ---- Accepting DATA (distribution.go:381-420, 472-510) ----

  /** queuedDataRecoveryGenerationLocked. */
  function QueuedGeneration(a: App): nat {
    if a.state == AsActive && a.recoveryGen <= a.expiredGen then a.recoveryGen + 1 else a.recoveryGen
  }

  predicate MustQueue(a: App) {
    a.state == AsPending || a.draining || a.activeSending || (a.state == AsActive && a.queue != [])
  }

  predicate QueueFull(limits: Limits, a: App, b: Budget, size: nat) {
    || |a.queue| + (if a.inFlight > 0 then 1 else 0) >= limits.messages
    || size > limits.bytes - a.queueBytes
    || !CanClaim(b, size)
  }

  datatype Verdict = Closed | NoActive | Full | Queued | SlotTaken

  function Enqueued(a: App, m: Message): App {
    var generation := QueuedGeneration(a);
    StartDrain(a.(recoveryGen := generation, queue := a.queue + [Item(m, generation, None)], queueBytes := a.queueBytes + m.size))
  }

  function SlotOf(a: App, m: Message): App {
    a.(activeSending := true, inFlight := m.size, queueBytes := a.queueBytes + m.size)
  }

  /** The first critical section of distribute. */
  function BeginDistribute(limits: Limits, a: App, b: Budget, m: Message): (App, Budget, Verdict) {
    if a.closed then (a, b, Closed)
    else if MustQueue(a) then
      if QueueFull(limits, a, b, m.size) then (a, b, Full) else (Enqueued(a, m), Claim(b, m.size), Queued)
    else if a.state != AsActive then (a, b, NoActive)
    else if m.size > limits.bytes || !CanClaim(b, m.size) then (a, b, Full)
    else (SlotOf(a, m), Claim(b, m.size), SlotTaken)
  }

  /** finishDeliveryItemLocked (distribution.go:806-813) without the budget's part. */
  function Finished(a: App, size: nat): App {
    a.(inFlight := 0, queueBytes := a.queueBytes - size)
  }

  datatype Resumption = ResumedClosed | Requeued | ResumedInactive | Deliver

  /** The second critical section: the sender has the delivery barrier. */
  function ResumeSend(a: App, m: Message): (App, Resumption) {
    if a.closed then (Finished(a, m.size).(activeSending := false), ResumedClosed)
    else if a.state == AsPending || a.draining || (a.state == AsActive && a.queue != []) then
      var generation := QueuedGeneration(a);
      (StartDrain(a.(activeSending := false, inFlight := 0, recoveryGen := generation,
                     queue := [Item(m, generation, None)] + a.queue)), Requeued)
    else if a.state != AsActive then (Finished(a, m.size).(activeSending := false), ResumedInactive)
    else (a, Deliver)
  }

  /** The last critical section of distribute. */
  function EndSend(a: App, m: Message): App {
    StartDrain(Finished(a, m.size).(activeSending := false))
  }

  // ---- Draining (distribution.go:687-801) ----

  datatype Popped = Exits | Takes(item: Item)

  function Pop(a: App): (App, Popped) {
    if a.state != AsActive then (a.(draining := false), Exits)
    else if a.queue == [] then (a.(draining := false, retryArmed := false), Exits)
    else (a.(queue := a.queue[1..], inFlight := a.queue[0].message.size), Takes(a.queue[0]))
  }

  predicate Restores(a: App, item: Item) {
    !a.closed && (a.state == AsPending || a.state == AsActive) && item.generation > a.expiredGen
  }

  /** scheduleDrainRetryLocked. */
  function ScheduleRetry(a: App): App {
    if a.retryArmed || a.closed || a.state != AsActive || a.activeSending || a.queue == [] then a else a.(retryArmed := true)
  }

  /** After a failed attempt: the item goes back to the head, or is given up. */
  function EndFailedDrain(a: App, item: Item): App {
    if Restores(a, item) then
      var back := if a.state == AsPending then item.(generation := a.recoveryGen) else item;
      var restored := a.(queue := [back] + a.queue, inFlight := 0, draining := false);
      if a.state == AsActive then ScheduleRetry(restored) else restored
    else Finished(a, item.message.size).(draining := false)
  }

  predicate RetryDrains(a: App) {
    !a.closed && a.state == AsActive && !a.draining && !a.activeSending && a.queue != []
  }

  /** The retry timer's function. */
  function RetryFires(a: App): App {
    var fired := a.(retryArmed := false);
    if RetryDrains(a) then fired.(draining := true) else fired
  }

  // ---- One delivery attempt (distribution.go:524-593, 634-662) ----

  datatype Selection = NoTargets | Selected(targets: seq<Asp>, retry: bool, epoch: nat, marker: bool)

  function StillActive(targets: seq<Asp>, asps: map<Asp, AspState>): (kept: seq<Asp>)
    ensures forall t :: t in kept <==> t in targets && t in asps && asps[t] == AspActive
  {
    if targets == [] then []
    else
      var last := targets[|targets| - 1];
      assert targets == targets[..|targets| - 1] + [last];
      StillActive(targets[..|targets| - 1], asps) + if last in asps && asps[last] == AspActive then [last] else []
  }

  /** Targets and marker under the lock: an earlier Broadcast attempt's failed targets that
      are still active, or a first choice by the traffic mode. */
  function Select(a: App, m: Message, retry: Option<Retry>): Selection {
    if retry.Some? then
      Selected(StillActive(retry.value.targets, a.asps), true, retry.value.epoch, retry.value.marker)
    else if a.active == [] then NoTargets
    else
      var targets := match a.mode
                     case Broadcast => a.active
                     case Override => a.active[..1]
                     case _ => [a.active[m.sls % |a.active|]];
      var marker := a.mode == Broadcast && a.epoch != 0 && !(m.flow in a.tagged && a.tagged[m.flow] == a.epoch);
      Selected(targets, a.mode == Broadcast, a.epoch, marker)
  }

  /** The flow has had its marked message in the present epoch. */
  function CommitMarker(limits: Limits, a: App, flow: Flow, epoch: nat): App {
    if a.epoch != epoch then a
    else
      var kept := if flow !in a.tagged && |a.tagged| >= limits.flows then map[] else a.tagged;
      a.(tagged := kept[flow := epoch])
  }
}
