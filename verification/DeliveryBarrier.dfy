/** Withdrawal against admission at an SGP: ASP Down commits the state, marks the ASP down in
    every Application Server, waits for every delivery barrier and only then writes its Ack;
    a writer takes the barrier first and reads the binding again under it. Any number of
    direct writers, distributions and drains interleave with the monitor's late restatement
    of an older state and with the peer's next ASP Up and ASP Active. One association is
    followed; the others appear as what they do to it. */
module DeliveryBarrier {

  datatype AspState = AspDown | AspInactive | AspActive

  /** The association's place in one Application Server. */
  datatype Place = Absent | In(state: AspState)

  datatype Writer =
    /** A direct write waiting for the delivery barrier of its Application Server. */
    | Waiting(server: nat, contextless: bool)
    /** Admitted; the delivery barrier is held, and a contextless write still needs the
        association's own barrier. */
    | Admitted(server: nat, contextless: bool)
    /** A contextless write holding both barriers. */
    | Both(server: nat)
    /** A distribution or drain holding the delivery barrier, and whether the association is
        among the targets it has still to write. */
    | Distributing(server: nat, selected: bool)

  /** Where the handling of an ASP Down stands; the receive loop handles one message at a time. */
  datatype Down =
    | Up
    | Marking(unmarked: set<nat>, members: set<nat>)
    | Draining(unwaited: set<nat>)
    | Quiet
    | AckDue
    | Acked
    /** The peer has come up again with ASP Up and is not yet active. */
    | Risen

  datatype Mark = Activation | Data | DownAck

  datatype State = State(
    /** The association's committed state, under muState. */
    committed: AspState,
    places: seq<Place>,
    writers: map<nat, Writer>,
    down: Down,
    /** What has happened on the wire and at the peer's request, in order. */
    log: seq<Mark>)

  // ---- Barriers ----

  /** The writer holds the delivery barrier of the Application Server. */
  predicate Holds(w: Writer, i: nat) {
    w.server == i && !w.Waiting?
  }

  /** The writer may go on to write DATA to the association. */
  predicate MayWrite(w: Writer, i: nat) {
    Holds(w, i) && (w.Distributing? ==> w.selected)
  }

  ghost predicate BarrierFree(s: State, i: nat) {
    forall w {:trigger s.writers[w]} :: w in s.writers ==> !Holds(s.writers[w], i)
  }

  ghost predicate UnscopedFree(s: State) {
    forall w {:trigger s.writers[w]} :: w in s.writers ==> !s.writers[w].Both?
  }

  // ---- Steps ----

  datatype Act =
    /** The peer's ASP Up after a Down Ack is accepted (aspsm.go:56-128): the state is ASP-INACTIVE. */
    | AspUp
    /** The peer's next ASP Active is accepted. */
    | Activate
    /** While the peer is up its place in an Application Server may become anything, and
        anything but active between its ASP Up and its ASP Active. */
    | Place_(server: nat, to: AspState)
    /** Another ASP's Override displaces the association in one Application Server. */
    | Displace(server: nat)
    /** commitOverrideInactiveState of a displaced association. */
    | CommitDisplaced
    /** The monitor restates a published state in one Application Server, still guarded by the
        committed state; ASP-ACTIVE may be narrowed to ASP-INACTIVE. */
    | Restate(server: nat, published: AspState, recorded: AspState)
    | CommitDown
    | MarkDown(server: nat)
    | Marked
    | WaitFor(server: nat)
    | Waited
    | WaitUnscoped
    | WriteAck
    | DirectStart(writer: nat, server: nat, contextless: bool)
    /** The writer gets the barrier; `ok` is the rest of the admission decision. */
    | DirectAdmit(writer: nat, ok: bool)
    | DirectUnscoped(writer: nat)
    | DirectWrite(writer: nat)
    | Distribute(writer: nat, server: nat)
    | Choose(writer: nat)
    | DistributeWrite(writer: nat)
    | Release(writer: nat)

  ghost predicate Enabled(s: State, act: Act) {
    match act
    case AspUp => s.down.Acked?
    case Activate => s.down.Up? || s.down.Acked? || s.down.Risen?
    case Place_(i, to) => (s.down.Up? || (s.down.Risen? && to != AspActive)) && i < |s.places|
    case Displace(i) => i < |s.places| && s.places[i] == In(AspActive)
    case CommitDisplaced => s.committed != AspDown
    case Restate(i, published, recorded) =>
      i < |s.places| && s.committed == published && (recorded == published || (published == AspActive && recorded == AspInactive))
    case CommitDown => s.down.Up? || s.down.Acked? || s.down.Risen?
    case MarkDown(i) => s.down.Marking? && i in s.down.unmarked
    case Marked => s.down.Marking? && s.down.unmarked == {}
    case WaitFor(i) => s.down.Draining? && i in s.down.unwaited && BarrierFree(s, i)
    case Waited => s.down.Draining? && s.down.unwaited == {}
    case WaitUnscoped => s.down.Quiet? && UnscopedFree(s)
    case WriteAck => s.down.AckDue?
    case DirectStart(w, i, _) => w !in s.writers && i < |s.places|
    case DirectAdmit(w, _) => w in s.writers && s.writers[w].Waiting? && BarrierFree(s, s.writers[w].server)
    case DirectUnscoped(w) => w in s.writers && s.writers[w].Admitted? && s.writers[w].contextless && UnscopedFree(s)
    case DirectWrite(w) => w in s.writers && (s.writers[w].Both? || (s.writers[w].Admitted? && !s.writers[w].contextless))
    case Distribute(w, i) => w !in s.writers && i < |s.places| && BarrierFree(s, i)
    case Choose(w) => w in s.writers && s.writers[w].Distributing? && s.writers[w].server < |s.places|
    case DistributeWrite(w) => w in s.writers && s.writers[w].Distributing? && s.writers[w].selected
    case Release(w) => w in s.writers
  }

  function AllServers(s: State): set<nat> {
    set i: nat {:trigger PlaceOf(s, i)} | i < |s.places|
  }

  function PlaceOf(s: State, i: nat): Place {
    if i < |s.places| then s.places[i] else Absent
  }

  function Step(s: State, act: Act): State
    requires Enabled(s, act)
  {
    match act
    case AspUp => s.(committed := AspInactive, down := Risen)
    case Activate => s.(committed := AspActive, down := Up, log := s.log + [Activation])
    case Place_(i, to) => s.(places := s.places[i := In(to)])
    case Displace(i) => s.(places := s.places[i := In(AspInactive)])
    case CommitDisplaced => s.(committed := AspInactive)
    case Restate(i, _, recorded) => s.(places := s.places[i := In(recorded)])
    case CommitDown => s.(committed := AspDown, down := Marking(AllServers(s), {}))
    case MarkDown(i) =>
      if PlaceOf(s, i).Absent? then s.(down := Marking(s.down.unmarked - {i}, s.down.members))
      else if i < |s.places| then s.(places := s.places[i := In(AspDown)], down := Marking(s.down.unmarked - {i}, s.down.members + {i}))
      else s
    case Marked => s.(down := Draining(s.down.members))
    case WaitFor(i) => s.(down := Draining(s.down.unwaited - {i}))
    case Waited => s.(down := Quiet)
    case WaitUnscoped => s.(down := AckDue)
    case WriteAck => s.(down := Acked, log := s.log + [DownAck])
    case DirectStart(w, i, contextless) => s.(writers := s.writers[w := Waiting(i, contextless)])
    case DirectAdmit(w, ok) =>
      var writer := s.writers[w];
      if PlaceOf(s, writer.server) == In(AspActive) && ok
      then s.(writers := s.writers[w := Admitted(writer.server, writer.contextless)])
      else s.(writers := s.writers - {w})
    case DirectUnscoped(w) =>
      if s.committed == AspActive then s.(writers := s.writers[w := Both(s.writers[w].server)]) else s.(writers := s.writers - {w})
    case DirectWrite(w) => s.(writers := s.writers - {w}, log := s.log + [Data])
    case Distribute(w, i) => s.(writers := s.writers[w := Distributing(i, false)])
    case Choose(w) =>
      var i := s.writers[w].server;
      s.(writers := s.writers[w := Distributing(i, PlaceOf(s, i) == In(AspActive))])
    case DistributeWrite(w) => s.(writers := s.writers[w := Distributing(s.writers[w].server, false)], log := s.log + [Data])
    case Release(w) => s.(writers := s.writers - {w})
  }

  // ---- The invariant ----

  ghost predicate NobodyWrites(s: State, i: nat) {
    forall w {:trigger s.writers[w]} :: w in s.writers ==> !MayWrite(s.writers[w], i)
  }

  /** Not active there, and nobody who chose it while it was can still write. */
  ghost predicate Shut(s: State, i: nat) {
    PlaceOf(s, i) != In(AspActive) && NobodyWrites(s, i)
  }

  /** An Acked withdrawal with no activation since. */
  function SinceAck(log: seq<Mark>): bool {
    if log == [] then false
    else
      match log[|log| - 1]
      case Activation => false
      case DownAck => true
      case Data => SinceAck(log[..|log| - 1])
  }

  ghost predicate Withdrawal(s: State) {
    match s.down
    case Up => true
    case Marking(unmarked, members) =>
      forall i: nat {:trigger Shut(s, i)} {:trigger PlaceOf(s, i)} :: i !in unmarked ==>
        PlaceOf(s, i) != In(AspActive) && (i !in members ==> Shut(s, i))
    case Draining(unwaited) =>
      forall i: nat {:trigger Shut(s, i)} {:trigger PlaceOf(s, i)} ::
        PlaceOf(s, i) != In(AspActive) && (i !in unwaited ==> Shut(s, i))
    case _ => forall i: nat :: Shut(s, i)
  }

  ghost predicate Inv(s: State) {
    // Who was never there has never been chosen.
    && (forall i: nat {:trigger NobodyWrites(s, i)} :: PlaceOf(s, i).Absent? ==> NobodyWrites(s, i))
    && (!s.down.Up? ==> s.committed != AspActive)
    && Withdrawal(s)
    && (SinceAck(s.log) ==> !s.down.Up? && forall i: nat :: Shut(s, i))
  }

  lemma LogGrows(log: seq<Mark>, mark: Mark)
    ensures SinceAck(log + [mark]) == (if mark == Data then SinceAck(log) else mark == DownAck)
  {
    assert (log + [mark])[..|log|] == log;
  }

  /** What a step may do to one Application Server while the peer is not up. */
  lemma ShutStays(s: State, act: Act, i: nat)
    requires Enabled(s, act) && Inv(s) && !s.down.Up? && !act.Activate?
    ensures PlaceOf(s, i) != In(AspActive) ==> PlaceOf(Step(s, act), i) != In(AspActive)
    ensures Shut(s, i) ==> Shut(Step(s, act), i)
  {}

  lemma AbsentStays(s: State, act: Act, i: nat)
    requires Enabled(s, act) && Inv(s)
    ensures PlaceOf(Step(s, act), i).Absent? ==> PlaceOf(s, i).Absent? && NobodyWrites(Step(s, act), i)
  {
    if PlaceOf(Step(s, act), i).Absent? { assert NobodyWrites(s, i); }
  }

  lemma WithdrawalStep(s: State, act: Act)
    requires Enabled(s, act) && Inv(s)
    ensures Withdrawal(Step(s, act))
  {
    hide Shut, NobodyWrites;
    var t := Step(s, act);
    if !s.down.Up? && !act.Activate? && act != CommitDown {
      forall i: nat
        ensures PlaceOf(s, i) != In(AspActive) ==> PlaceOf(t, i) != In(AspActive)
        ensures Shut(s, i) ==> Shut(t, i)
      {
        ShutStays(s, act, i);
      }
      ProgressKeeps(s, act);
    } else if act == CommitDown {
      CommitKeeps(s);
    }
  }

  lemma CommitKeeps(s: State)
    requires Enabled(s, CommitDown) && Inv(s)
    ensures Withdrawal(Step(s, CommitDown))
  {
    var t := Step(s, CommitDown);
    forall i: nat | i !in AllServers(s) ensures PlaceOf(t, i) != In(AspActive) && Shut(t, i) {
      assert PlaceOf(s, i).Absent? && NobodyWrites(s, i);
    }
  }

  lemma ProgressKeeps(s: State, act: Act)
    requires Enabled(s, act) && Inv(s) && !s.down.Up? && !act.Activate? && act != CommitDown
    requires forall i: nat {:trigger Shut(s, i)} {:trigger PlaceOf(s, i)} ::
               && (PlaceOf(s, i) != In(AspActive) ==> PlaceOf(Step(s, act), i) != In(AspActive))
               && (Shut(s, i) ==> Shut(Step(s, act), i))
    ensures Withdrawal(Step(s, act))
  {
    match act
    case MarkDown(k) => MarkKeeps(s, k);
    case WaitFor(k) => WaitKeeps(s, k);
    case _ => OtherKeeps(s, act);
  }

  lemma MarkKeeps(s: State, k: nat)
    requires Enabled(s, MarkDown(k)) && Inv(s)
    ensures Withdrawal(Step(s, MarkDown(k)))
  {
    var t := Step(s, MarkDown(k));
    forall i: nat | i !in t.down.unmarked
      ensures PlaceOf(t, i) != In(AspActive) && (i !in t.down.members ==> Shut(t, i))
    {
      if i == k {
        if PlaceOf(s, k).Absent? { assert NobodyWrites(s, k) && Shut(t, k); }
      } else {
        assert i !in s.down.unmarked && PlaceOf(s, i) != In(AspActive);
        ShutStays(s, MarkDown(k), i);
      }
    }
  }

  lemma WaitKeeps(s: State, k: nat)
    requires Enabled(s, WaitFor(k)) && Inv(s)
    ensures Withdrawal(Step(s, WaitFor(k)))
  {
    var t := Step(s, WaitFor(k));
    forall i: nat ensures PlaceOf(t, i) != In(AspActive) && (i !in t.down.unwaited ==> Shut(t, i)) {
      assert PlaceOf(s, i) != In(AspActive);
      if i == k {
        assert NobodyWrites(s, k);
      } else if i !in s.down.unwaited {
        assert Shut(s, i);
      }
    }
  }

  lemma OtherKeeps(s: State, act: Act)
    requires Enabled(s, act) && Inv(s) && !s.down.Up? && !act.Activate? && act != CommitDown && !act.MarkDown? && !act.WaitFor?
    requires forall i: nat {:trigger Shut(s, i)} {:trigger PlaceOf(s, i)} ::
               && (PlaceOf(s, i) != In(AspActive) ==> PlaceOf(Step(s, act), i) != In(AspActive))
               && (Shut(s, i) ==> Shut(Step(s, act), i))
    ensures Withdrawal(Step(s, act))
  {
    hide Shut;
    var t := Step(s, act);
    forall i: nat ensures PlaceOf(t, i) == PlaceOf(t, i) && (Shut(s, i) ==> Shut(t, i))
                      && (PlaceOf(s, i) != In(AspActive) ==> PlaceOf(t, i) != In(AspActive)) {}
    if s.down.Marking? && s.down.unmarked == {} {
      forall i: nat ensures PlaceOf(s, i) != In(AspActive) && (i !in s.down.members ==> Shut(s, i)) {}
    }
  }

  lemma StepKeeps(s: State, act: Act)
    requires Enabled(s, act) && Inv(s)
    ensures Inv(Step(s, act))
    ensures act.DirectWrite? || act.DistributeWrite? ==> !SinceAck(s.log)
  {
    hide Withdrawal, SinceAck, Shut, NobodyWrites;
    var t := Step(s, act);
    WithdrawalStep(s, act);
    forall i: nat ensures PlaceOf(t, i).Absent? ==> NobodyWrites(t, i) { AbsentStays(s, act, i); }
    WriteNotAfterAck(s, act);
    CommittedKeeps(s, act);
    if SinceAck(t.log) { AckKeeps(s, act); }
  }

  lemma WriteNotAfterAck(s: State, act: Act)
    requires Enabled(s, act) && Inv(s)
    ensures act.DirectWrite? || act.DistributeWrite? ==> !SinceAck(s.log)
  {
    if act.DirectWrite? || act.DistributeWrite? {
      var w := s.writers[act.writer];
      assert MayWrite(w, w.server);
      assert !Shut(s, w.server);
    }
  }

  lemma CommittedKeeps(s: State, act: Act)
    requires Enabled(s, act) && (!s.down.Up? ==> s.committed != AspActive)
    ensures !Step(s, act).down.Up? ==> Step(s, act).committed != AspActive
  {}

  lemma AckKeeps(s: State, act: Act)
    requires Enabled(s, act) && Inv(s) && SinceAck(Step(s, act).log)
    ensures !Step(s, act).down.Up? && forall i: nat :: Shut(Step(s, act), i)
  {
    hide Shut, NobodyWrites, SinceAck, Step, PlaceOf;
    if act != WriteAck { AckBefore(s, act); }
    QuietOrAcked(s, act);
    forall i: nat ensures Shut(Step(s, act), i) { ShutStays(s, act, i); }
    StaysDown(s, act);
  }

  lemma QuietOrAcked(s: State, act: Act)
    requires Enabled(s, act) && Inv(s) && (act == WriteAck || SinceAck(s.log))
    ensures !s.down.Up? && forall i: nat :: Shut(s, i)
  {
    hide Shut, NobodyWrites, SinceAck, PlaceOf;
  }

  lemma AckBefore(s: State, act: Act)
    requires Enabled(s, act) && act != WriteAck && SinceAck(Step(s, act).log)
    ensures SinceAck(s.log) && !act.Activate?
  {
    hide SinceAck;
    LogGrows(s.log, Activation);
    LogGrows(s.log, Data);
  }

  lemma StaysDown(s: State, act: Act)
    requires Enabled(s, act) && !s.down.Up? && !act.Activate?
    ensures !Step(s, act).down.Up?
  {}

  // ---- Whole runs ----

  /** A new association belongs to any Application Servers, active in none. */
  ghost predicate Opening(s: State) {
    s.committed != AspActive && s.writers == map[] && s.down.Up? && s.log == []
    && forall i :: 0 <= i < |s.places| ==> s.places[i] != In(AspActive)
  }

  ghost predicate IsRun(states: seq<State>, acts: seq<Act>) {
    && |states| == |acts| + 1 && Opening(states[0])
    && forall n :: 0 <= n < |acts| ==> Enabled(states[n], acts[n]) && states[n + 1] == Step(states[n], acts[n])
  }

  ghost predicate DataOnlyWhenUp(log: seq<Mark>) {
    forall n :: 0 <= n < |log| && log[n] == Data ==> !SinceAck(log[..n])
  }

  lemma {:induction false} RunKeeps(states: seq<State>, acts: seq<Act>)
    requires IsRun(states, acts)
    ensures Inv(states[|acts|]) && DataOnlyWhenUp(states[|acts|].log)
  {
    if acts != [] {
      var n := |acts| - 1;
      RunKeeps(states[..n + 1], acts[..n]);
      assert Enabled(states[n], acts[n]);
      StepKeeps(states[n], acts[n]);
      LogStep(states[n], acts[n]);
    }
  }

  lemma LogStep(s: State, act: Act)
    requires Enabled(s, act) && DataOnlyWhenUp(s.log) && (act.DirectWrite? || act.DistributeWrite? ==> !SinceAck(s.log))
    ensures DataOnlyWhenUp(Step(s, act).log)
  {
    hide SinceAck;
    var log := Step(s, act).log;
    forall n | 0 <= n < |log| && log[n] == Data ensures !SinceAck(log[..n]) {
      assert log[..n] == s.log[..n];
      if n == |s.log| { assert s.log[..n] == s.log; }
    }
  }

  lemma {:induction false} AckStands(log: seq<Mark>, i: nat)
    requires i < |log| && log[i] == DownAck && forall k :: i < k < |log| ==> log[k] != Activation
    ensures SinceAck(log)
  {
    if i < |log| - 1 {
      AckStands(log[..|log| - 1], i);
    }
  }

  /** aspsm.go:344-362, as.go:1228-1291, 1427-1455, dataadmission.go:158-237. In every
      interleaving of direct writes, distributions, drains and late restatements, between an
      ASP Down Ack and a later DATA written to that association there is an activation. */
  lemma NoDataAfterDownAck(states: seq<State>, acts: seq<Act>, i: nat, j: nat)
    requires IsRun(states, acts)
    requires var log := states[|acts|].log; i < j < |log| && log[i] == DownAck && log[j] == Data
    ensures exists k :: i < k < j && states[|acts|].log[k] == Activation
  {
    RunKeeps(states, acts);
    var log := states[|acts|].log;
    if forall k :: i < k < j ==> log[k] != Activation {
      AckStands(log[..j], i);
      assert false;
    }
  }
}
