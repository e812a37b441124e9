/**
 One app's sessions, as micro-steps. Every step is one thing the gate does without being
 interleaved: an atomic counter change, one look at the cached app, one section under the lock,
 or one move of a background commit goroutine. A panic of the source is an outcome of a step.
 */
module SessionProtocol {
  import opened Wrappers
  import opened CliApps

  type SessionId = nat
  // A remote change is known by its index: two pointers are equal exactly when the indices are.
  type ChangeId = nat

  datatype Kind = Opening | Closing

  // Where the commit goroutine of a change stands.
  datatype Stage =
    | Applying    // ApplyChanges runs
    | Sending     // blocked sending its error
    | Returned    // nothing left to send, the deferred functions run
    | Unslotted   // left the slot, the channel is still open
    | Closed      // the channel is closed

  datatype Verdict = Pending | Succeeded | Erred

  // owner is the session that started the change; receiver is the one that got its error.
  datatype Change = Change(
    kind: Kind,
    owner: SessionId,
    stage: Stage,
    cancelled: bool,
    verdict: Verdict,
    receiver: Option<SessionId>)

  // The fields of the session object; cancel is the change that ctxCancel would cancel.
  datatype Shared = Shared(
    count: int,
    app: Option<CliApp>,
    openSlot: Option<ChangeId>,
    closeSlot: Option<ChangeId>,
    cancel: Option<ChangeId>,
    changes: seq<Change>)

  datatype Source = Cache | Channel(change: ChangeId)

  // Where the goroutine serving one shell stands.
  datatype Pc =
    | Added(active: int)           // counted, has not looked at the cached app
    | Entering                     // found no cached app, on its way into remoteOpen
    | AwaitOpen(change: ChangeId)
    | Woken(change: ChangeId, failed: bool)
    | Attached(app: Option<CliApp>, source: Source, failed: bool)  // open has returned
    | Leaving                      // counted down to zero, on its way into remoteClose
    | AwaitClose(change: ChangeId)
    | Gone

  datatype State = State(sh: Shared, pcs: map<SessionId, Pc>)

  datatype Event =
    | Add(s: SessionId)
    | Check(s: SessionId)
    | Enter(s: SessionId)
    | Read(s: SessionId)
    | Sub(s: SessionId)
    | Leave(s: SessionId)
    | Wake(s: SessionId)
    | ApplyOk(c: ChangeId, app: CliApp)
    | ApplyErr(c: ChangeId)
    | Deliver(c: ChangeId, s: SessionId)
    | CancelSelf(c: ChangeId)
    | Unslot(c: ChangeId)
    | CloseChan(c: ChangeId)

  // A panic carries the line of the source that raises it.
  datatype Section = Entered(sh: Shared, change: ChangeId) | PanicIn(line: nat)
  datatype Outcome = Next(st: State) | Panic(line: nat)

  const INIT_SHARED := Shared(0, None, None, None, None, [])
  const INIT := State(INIT_SHARED, map[])

  function NewChange(kind: Kind, s: SessionId): Change {
    Change(kind, s, Applying, false, Pending, None)
  }

  // Calling the cancel handle of a change; calling it again does nothing.
  function Cancelled(sh: Shared, c: ChangeId): Shared {
    if c < |sh.changes|
    then sh.(changes := sh.changes[c := sh.changes[c].(cancelled := true)])
    else sh
  }

  predicate InSlot(sh: Shared, c: ChangeId) {
    sh.openSlot == Some(c) || sh.closeSlot == Some(c)
  }

  // The locked section of remoteOpen, run by session s.
  function RemoteOpen(sh: Shared, s: SessionId): Section {
    if sh.openSlot.Some? then
      if sh.closeSlot.Some? then PanicIn(154) else Entered(sh, sh.openSlot.value)
    else if sh.closeSlot.Some? && sh.cancel.None? then
      PanicIn(162)
    else
      var sh1 := if sh.closeSlot.Some?
                 then Cancelled(sh, sh.cancel.value).(closeSlot := None, cancel := None)
                 else sh;
      var c := |sh1.changes|;
      Entered(sh1.(openSlot := Some(c), cancel := Some(c), changes := sh1.changes + [NewChange(Opening, s)]), c)
  }

  // The locked section of remoteClose, run by session s.
  function RemoteClose(sh: Shared, s: SessionId): Section {
    if sh.closeSlot.Some? then
      PanicIn(96)
    else if sh.openSlot.Some? && sh.cancel.None? then
      PanicIn(101)
    else
      var sh1 := if sh.openSlot.Some?
                 then Cancelled(sh, sh.cancel.value).(openSlot := None, cancel := None)
                 else sh;
      var c := |sh1.changes|;
      Entered(sh1.(app := None, closeSlot := Some(c), cancel := Some(c),
                   changes := sh1.changes + [NewChange(Closing, s)]), c)
  }

  // The locked part of commitChanges: only the change that still holds a slot empties it.
  function Unslotting(sh: Shared, c: ChangeId): Shared
    requires c < |sh.changes|
  {
    var sh1 := if InSlot(sh, c) then sh.(openSlot := None, closeSlot := None, cancel := None) else sh;
    sh1.(changes := sh1.changes[c := sh1.changes[c].(stage := Unslotted)])
  }

  function SetStage(st: State, c: ChangeId, ch: Change): State
    requires c < |st.sh.changes|
  {
    st.(sh := st.sh.(changes := st.sh.changes[c := ch]))
  }

  predicate Inside(pc: Pc) {
    pc.Added? || pc.Entering? || pc.AwaitOpen? || pc.Woken? || pc.Attached?
  }

  predicate WaitsOn(pc: Pc, c: ChangeId) {
    pc == AwaitOpen(c) || pc == AwaitClose(c)
  }

  // The pc of a waiter on channel c that has just received from it.
  function Received(pc: Pc, c: ChangeId, failed: bool): Pc {
    if pc.AwaitOpen? then Woken(c, failed) else Gone
  }

  predicate Enabled(st: State, ev: Event) {
    var sh, pcs := st.sh, st.pcs;
    match ev
    case Add(s) => s !in pcs
    case Check(s) => s in pcs && pcs[s].Added?
    case Enter(s) => s in pcs && pcs[s].Entering?
    case Read(s) => s in pcs && pcs[s].Woken?
    case Sub(s) => s in pcs && pcs[s].Attached?
    case Leave(s) => s in pcs && pcs[s].Leaving?
    case Wake(s) =>
      && s in pcs
      && (pcs[s].AwaitOpen? || pcs[s].AwaitClose?)
      && pcs[s].change < |sh.changes|
      && sh.changes[pcs[s].change].stage == Closed
    case ApplyOk(c, _) => c < |sh.changes| && sh.changes[c].stage == Applying
    case ApplyErr(c) => c < |sh.changes| && sh.changes[c].stage == Applying
    case Deliver(c, s) =>
      c < |sh.changes| && sh.changes[c].stage == Sending && s in pcs && WaitsOn(pcs[s], c)
    case CancelSelf(c) => c < |sh.changes| && sh.changes[c].stage == Returned && !sh.changes[c].cancelled
    case Unslot(c) => c < |sh.changes| && sh.changes[c].stage == Returned && sh.changes[c].cancelled
    case CloseChan(c) => c < |sh.changes| && sh.changes[c].stage == Unslotted
  }

  function AddStep(st: State, s: SessionId): Outcome {
    var active := st.sh.count + 1;
    if active < 1 then Panic(37)
    else Next(State(st.sh.(count := active), st.pcs[s := Added(active)]))
  }

  function CheckStep(st: State, s: SessionId): Outcome
    requires Enabled(st, Check(s))
  {
    var pc := if st.pcs[s].active > 1 && st.sh.app.Some? then Attached(st.sh.app, Cache, false) else Entering;
    Next(st.(pcs := st.pcs[s := pc]))
  }

  function EnterStep(st: State, s: SessionId): Outcome {
    match RemoteOpen(st.sh, s)
    case PanicIn(line) => Panic(line)
    case Entered(sh, c) => Next(State(sh, st.pcs[s := AwaitOpen(c)]))
  }

  function SubStep(st: State, s: SessionId): Outcome {
    var active := st.sh.count - 1;
    if active < 0 then Panic(53)
    else Next(State(st.sh.(count := active), st.pcs[s := if active > 0 then Gone else Leaving]))
  }

  function LeaveStep(st: State, s: SessionId): Outcome {
    match RemoteClose(st.sh, s)
    case PanicIn(line) => Panic(line)
    case Entered(sh, c) => Next(State(sh, st.pcs[s := AwaitClose(c)]))
  }

  function ApplyOkStep(st: State, c: ChangeId, app: CliApp): Outcome
    requires c < |st.sh.changes|
  {
    var ch := st.sh.changes[c];
    var done := SetStage(st, c, ch.(stage := Returned, verdict := Succeeded));
    if ch.kind == Closing then Next(done)
    else if st.sh.app.Some? then Panic(180)
    else Next(done.(sh := done.sh.(app := Some(app))))
  }

  // One micro-step. A step that is not enabled changes nothing.
  function Step(st: State, ev: Event): Outcome {
    if !Enabled(st, ev) then Next(st) else
    match ev
    case Add(s) => AddStep(st, s)
    case Check(s) => CheckStep(st, s)
    case Enter(s) => EnterStep(st, s)
    case Read(s) =>
      Next(st.(pcs := st.pcs[s := Attached(st.sh.app, Channel(st.pcs[s].change), st.pcs[s].failed)]))
    case Sub(s) => SubStep(st, s)
    case Leave(s) => LeaveStep(st, s)
    case Wake(s) => Next(st.(pcs := st.pcs[s := Received(st.pcs[s], st.pcs[s].change, false)]))
    case ApplyOk(c, app) => ApplyOkStep(st, c, app)
    case ApplyErr(c) => Next(SetStage(st, c, st.sh.changes[c].(stage := Sending, verdict := Erred)))
    case Deliver(c, s) =>
      var st1 := SetStage(st, c, st.sh.changes[c].(stage := Returned, receiver := Some(s)));
      Next(st1.(pcs := st1.pcs[s := Received(st1.pcs[s], c, true)]))
    case CancelSelf(c) => Next(st.(sh := Cancelled(st.sh, c)))
    case Unslot(c) => Next(st.(sh := Unslotting(st.sh, c)))
    case CloseChan(c) => Next(SetStage(st, c, st.sh.changes[c].(stage := Closed)))
  }

  // The whole of open up to the point where it answers or waits, and of close likewise.
  datatype Admitted =
    | Cached(sh: Shared, app: CliApp)
    | Waits(sh: Shared, change: ChangeId)
    | Left(sh: Shared)
    | Fails(line: nat)

  function OpenAdmission(sh: Shared, s: SessionId): Admitted {
    var active := sh.count + 1;
    var sh1 := sh.(count := active);
    if active < 1 then Fails(37)
    else if active > 1 && sh1.app.Some? then Cached(sh1, sh1.app.value)
    else match RemoteOpen(sh1, s)
         case PanicIn(line) => Fails(line)
         case Entered(sh2, c) => Waits(sh2, c)
  }

  function CloseAdmission(sh: Shared, s: SessionId): Admitted {
    var active := sh.count - 1;
    var sh1 := sh.(count := active);
    if active < 0 then Fails(53)
    else if active > 0 then Left(sh1)
    else match RemoteClose(sh1, s)
         case PanicIn(line) => Fails(line)
         case Entered(sh2, c) => Waits(sh2, c)
  }

  // A run stops at the first panic.
  function Run(st: State, evs: seq<Event>): Outcome
    decreases |evs|
  {
    if evs == [] then Next(st) else
    match Step(st, evs[0])
    case Panic(line) => Panic(line)
    case Next(st1) => Run(st1, evs[1..])
  }

  lemma {:induction false} RunConcat(st: State, a: seq<Event>, b: seq<Event>)
    ensures Run(st, a + b) == if Run(st, a).Panic? then Run(st, a) else Run(Run(st, a).st, b)
    decreases |a|
  {
    if a == [] {
      assert a + b == b;
    } else {
      assert (a + b)[1..] == a[1..] + b;
      if Step(st, a[0]).Next? {
        RunConcat(Step(st, a[0]).st, a[1..], b);
      }
    }
  }

  lemma RunCons(st: State, ev: Event, rest: seq<Event>)
    ensures Run(st, [ev] + rest) == if Step(st, ev).Panic? then Step(st, ev) else Run(Step(st, ev).st, rest)
  {
    assert ([ev] + rest)[1..] == rest;
  }

  lemma RunTwo(st: State, a: Event, b: Event)
    requires Step(st, a).Next?
    ensures Run(st, [a, b]) == Step(Step(st, a).st, b)
  {
    var st1 := Step(st, a).st;
    assert [a, b] == [a] + [b] && [b] == [b] + [];
    RunCons(st, a, [b]);
    RunCons(st1, b, []);
    assert Step(st1, b).Next? ==> Run(Step(st1, b).st, []) == Step(st1, b);
  }

  lemma RunThree(st: State, a: Event, b: Event, c: Event)
    requires Step(st, a).Next? && Step(Step(st, a).st, b).Next?
    ensures Run(st, [a, b, c]) == Step(Step(Step(st, a).st, b).st, c)
  {
    assert [a, b, c] == [a] + [b, c];
    RunCons(st, a, [b, c]);
    RunTwo(Step(st, a).st, b, c);
  }
}
