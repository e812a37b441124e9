/**
 Concrete runs. Three of them split an admission: two reach a panic, one leaves a session with an app
 that is no longer cached. The fourth keeps admissions atomic and leaves a session with neither an app
 nor an error.
 */
module SessionRuns {
  import opened Wrappers
  import opened CliApps
  import opened SessionProtocol
  import opened SessionInvariants
  import opened SessionSafety

  // The change after its commit goroutine has left the slot.
  function Retired(kind: Kind, owner: SessionId, verdict: Verdict, receiver: Option<SessionId>): Change {
    Change(kind, owner, Unslotted, true, verdict, receiver)
  }

  const FRESH := NewChange(Opening, 0)

  // One session alone: it opens, waits on change c, and c holds the slot.
  function AloneOpening(older: seq<Change>, pcs: map<SessionId, Pc>, s: SessionId): State {
    var c := |older|;
    State(Shared(1, None, Some(c), None, Some(c), older + [NewChange(Opening, s)]), pcs[s := AwaitOpen(c)])
  }

  function Idle(older: seq<Change>, pcs: map<SessionId, Pc>): State {
    State(Shared(0, None, None, None, None, older), pcs)
  }

  lemma OpenAlone(older: seq<Change>, pcs: map<SessionId, Pc>, s: SessionId)
    requires s !in pcs
    ensures Run(Idle(older, pcs), [Add(s), Check(s), Enter(s)]) == Next(AloneOpening(older, pcs, s))
  {
    var st := Idle(older, pcs);
    var st1 := Step(st, Add(s)).st;
    var st2 := Step(st1, Check(s)).st;
    RunThree(st, Add(s), Check(s), Enter(s));
    assert Step(st2, Enter(s)).st.pcs == AloneOpening(older, pcs, s).pcs;
  }

  // The open of change c fails and session s takes the error.
  lemma FailingCommit(sh: Shared, pcs: map<SessionId, Pc>, s: SessionId, c: ChangeId)
    requires c < |sh.changes| && sh.changes[c] == NewChange(Opening, s)
    requires sh.openSlot == Some(c) && sh.closeSlot.None? && s in pcs && pcs[s] == AwaitOpen(c)
    ensures Run(State(sh, pcs), [ApplyErr(c), Deliver(c, s), CancelSelf(c), Unslot(c)]) ==
            Next(State(sh.(openSlot := None, cancel := None,
                           changes := sh.changes[c := Retired(Opening, s, Erred, Some(s))]),
                       pcs[s := Woken(c, true)]))
  {
    var st := State(sh, pcs);
    var st1 := SetStage(st, c, Change(Opening, s, Sending, false, Erred, None));
    var st2 := State(sh.(changes := sh.changes[c := Change(Opening, s, Returned, false, Erred, Some(s))]), pcs[s := Woken(c, true)]);
    assert Step(st, ApplyErr(c)) == Next(st1);
    assert Step(st1, Deliver(c, s)) == Next(st2);
    RunTwo(st, ApplyErr(c), Deliver(c, s));
    LeavingSlot(st2, c, Change(Opening, s, Returned, false, Erred, Some(s)));
    RunConcat(st, [ApplyErr(c), Deliver(c, s)], [CancelSelf(c), Unslot(c)]);
    assert [ApplyErr(c), Deliver(c, s)] + [CancelSelf(c), Unslot(c)] == [ApplyErr(c), Deliver(c, s), CancelSelf(c), Unslot(c)];
    assert sh.changes[c := Retired(Opening, s, Erred, Some(s))] == st2.sh.changes[c := Retired(Opening, s, Erred, Some(s))];
  }

  lemma LeavingSlot(st: State, c: ChangeId, ch: Change)
    requires c < |st.sh.changes| && st.sh.changes[c] == ch && ch.stage == Returned && !ch.cancelled
    requires InSlot(st.sh, c)
    ensures Run(st, [CancelSelf(c), Unslot(c)]) ==
            Next(st.(sh := st.sh.(openSlot := None, closeSlot := None, cancel := None,
                                  changes := st.sh.changes[c := ch.(stage := Unslotted, cancelled := true)])))
  {
    RunTwo(st, CancelSelf(c), Unslot(c));
    assert st.sh.changes[c := ch.(cancelled := true)][c := ch.(stage := Unslotted, cancelled := true)]
        == st.sh.changes[c := ch.(stage := Unslotted, cancelled := true)];
  }

  // One session opens alone, its open fails, and it counts itself out without closing yet.
  function FailedSession(s: SessionId, c: ChangeId): seq<Event> {
    [Add(s), Check(s), Enter(s)] + [ApplyErr(c), Deliver(c, s), CancelSelf(c), Unslot(c)] + [Read(s), Sub(s)]
  }

  lemma FailedSessionRuns(older: seq<Change>, pcs: map<SessionId, Pc>, s: SessionId)
    requires s !in pcs
    ensures Run(Idle(older, pcs), FailedSession(s, |older|)) ==
            Next(Idle(older + [Retired(Opening, s, Erred, Some(s))], pcs[s := Leaving]))
  {
    var c := |older|;
    var open, fail, quit := [Add(s), Check(s), Enter(s)], [ApplyErr(c), Deliver(c, s), CancelSelf(c), Unslot(c)], [Read(s), Sub(s)];
    var st0, st1 := Idle(older, pcs), AloneOpening(older, pcs, s);
    OpenAlone(older, pcs, s);
    FailingCommit(st1.sh, st1.pcs, s, c);
    var done := older + [Retired(Opening, s, Erred, Some(s))];
    assert st1.sh.changes[c := Retired(Opening, s, Erred, Some(s))] == done;
    var st2 := State(Shared(1, None, None, None, None, done), st1.pcs[s := Woken(c, true)]);
    RunTwo(st2, Read(s), Sub(s));
    assert Step(Step(st2, Read(s)).st, Sub(s)).st.pcs == pcs[s := Leaving];
    RunConcat(st0, open, fail);
    RunConcat(st0, open + fail, quit);
  }

  // The decrement and remoteClose are not one step in the source: two sessions may both have
  // counted down to zero, and the second one finds the close of the first.
  lemma SplitCloseReachesLine96()
    ensures Run(INIT, FailedSession(0, 0) + FailedSession(1, 1) + [Leave(0), Leave(1)]) == Panic(96)
  {
    var f0, f1 := Retired(Opening, 0, Erred, Some(0)), Retired(Opening, 1, Erred, Some(1));
    FailedSessionRuns([], map[], 0);
    assert [] + [f0] == [f0];
    FailedSessionRuns([f0], map[0 := Leaving], 1);
    RunConcat(INIT, FailedSession(0, 0), FailedSession(1, 1));
    var st := Idle([f0] + [f1], map[0 := Leaving][1 := Leaving]);
    RunTwo(st, Leave(0), Leave(1));
    RunConcat(INIT, FailedSession(0, 0) + FailedSession(1, 1), [Leave(0), Leave(1)]);
  }

  const LATE_OPEN := [Add(0), Check(0), Enter(0)] + [Add(1), Check(1)]

  // Nor are the look at the cached app and remoteOpen: a session that found no app may enter
  // remoteOpen after an open has published one and left its slot.
  lemma SplitOpenReachesLine180(app: CliApp)
    ensures Run(INIT, LATE_OPEN + [ApplyOk(0, app), CancelSelf(0), Unslot(0)] + [Enter(1), ApplyOk(1, app)]) == Panic(180)
  {
    var st1 := AloneOpening([], map[], 0);
    OpenAlone([], map[], 0);
    var st2 := State(Shared(2, None, Some(0), None, Some(0), [FRESH]), map[0 := AwaitOpen(0), 1 := Entering]);
    assert [] + [FRESH] == [FRESH];
    RunTwo(st1, Add(1), Check(1));
    assert Run(st1, [Add(1), Check(1)]).st.pcs == st2.pcs;
    RunConcat(INIT, [Add(0), Check(0), Enter(0)], [Add(1), Check(1)]);
    assert Run(INIT, LATE_OPEN) == Next(st2);
    LateEntry(st2, app);
    RunConcat(INIT, LATE_OPEN, [ApplyOk(0, app), CancelSelf(0), Unslot(0)] + [Enter(1), ApplyOk(1, app)]);
    assert LATE_OPEN + [ApplyOk(0, app), CancelSelf(0), Unslot(0)] + [Enter(1), ApplyOk(1, app)]
        == LATE_OPEN + ([ApplyOk(0, app), CancelSelf(0), Unslot(0)] + [Enter(1), ApplyOk(1, app)]);
  }

  lemma LateEntry(st: State, app: CliApp)
    requires st == State(Shared(2, None, Some(0), None, Some(0), [FRESH]), map[0 := AwaitOpen(0), 1 := Entering])
    ensures Run(st, [ApplyOk(0, app), CancelSelf(0), Unslot(0)] + [Enter(1), ApplyOk(1, app)]) == Panic(180)
  {
    var applied := Change(Opening, 0, Returned, false, Succeeded, None);
    var st1 := st.(sh := st.sh.(app := Some(app), changes := [applied]));
    assert Step(st, ApplyOk(0, app)) == Next(st1);
    LeavingSlot(st1, 0, applied);
    var left := [CancelSelf(0), Unslot(0)];
    RunCons(st, ApplyOk(0, app), left);
    assert [ApplyOk(0, app)] + left == [ApplyOk(0, app), CancelSelf(0), Unslot(0)];
    var st2 := Run(st1, left).st;
    RunTwo(st2, Enter(1), ApplyOk(1, app));
    RunConcat(st, [ApplyOk(0, app), CancelSelf(0), Unslot(0)], [Enter(1), ApplyOk(1, app)]);
  }

  // Session 0 opens, and is attached to the app.
  const ATTACHED_OPEN := Change(Opening, 0, Closed, true, Succeeded, None)

  function AttachedAlone(app: CliApp): State {
    State(Shared(1, Some(app), None, None, None, [ATTACHED_OPEN]), map[0 := Attached(Some(app), Channel(0), false)])
  }

  function OpenEvents(app: CliApp): seq<Event> {
    [Add(0), Check(0), Enter(0)] + ([ApplyOk(0, app)] + [CancelSelf(0), Unslot(0)]) + [CloseChan(0), Wake(0), Read(0)]
  }

  // The change of the open has been committed but for the close of its channel.
  function Committed(app: CliApp): State {
    State(Shared(1, Some(app), None, None, None, [Retired(Opening, 0, Succeeded, None)]), map[0 := AwaitOpen(0)])
  }

  lemma OpenCommits(app: CliApp)
    ensures Run(AloneOpening([], map[], 0), [ApplyOk(0, app)] + [CancelSelf(0), Unslot(0)]) == Next(Committed(app))
  {
    var st1 := AloneOpening([], map[], 0);
    assert [] + [FRESH] == [FRESH];
    var applied := Change(Opening, 0, Returned, false, Succeeded, None);
    var st2 := st1.(sh := st1.sh.(app := Some(app), changes := [applied]));
    assert Step(st1, ApplyOk(0, app)) == Next(st2);
    LeavingSlot(st2, 0, applied);
    RunCons(st1, ApplyOk(0, app), [CancelSelf(0), Unslot(0)]);
  }

  lemma OpenWakes(app: CliApp)
    ensures Run(Committed(app), [CloseChan(0), Wake(0), Read(0)]) == Next(AttachedAlone(app))
  {
    RunThree(Committed(app), CloseChan(0), Wake(0), Read(0));
    assert Run(Committed(app), [CloseChan(0), Wake(0), Read(0)]).st.pcs == AttachedAlone(app).pcs;
  }

  lemma OpensAndAttaches(app: CliApp)
    ensures Run(INIT, OpenEvents(app)) == Next(AttachedAlone(app))
  {
    var open, commit, wake := [Add(0), Check(0), Enter(0)], [ApplyOk(0, app)] + [CancelSelf(0), Unslot(0)], [CloseChan(0), Wake(0), Read(0)];
    OpenAlone([], map[], 0);
    OpenCommits(app);
    OpenWakes(app);
    RunConcat(INIT, open, commit);
    RunConcat(INIT, open + commit, wake);
  }

  // Between the decrement of the last session and its remoteClose another session may be served from
  // the cache; it keeps an app that remoteClose then drops.
  lemma SplitCloseLosesAgreement(app: CliApp)
    ensures var o := Run(INIT, OpenEvents(app) + [Sub(0), Add(1), Add(2)] + [Check(2), Leave(0)]);
            && o.Next? && 2 in o.st.pcs && o.st.pcs[2] == Attached(Some(app), Cache, false)
            && o.st.sh.app.None? && !Agrees(o.st)
  {
    var st := AttachedAlone(app);
    OpensAndAttaches(app);
    RunThree(st, Sub(0), Add(1), Add(2));
    RunConcat(INIT, OpenEvents(app), [Sub(0), Add(1), Add(2)]);
    var st1 := Run(st, [Sub(0), Add(1), Add(2)]).st;
    RunTwo(st1, Check(2), Leave(0));
    RunConcat(INIT, OpenEvents(app) + [Sub(0), Add(1), Add(2)], [Check(2), Leave(0)]);
    var o := Run(st1, [Check(2), Leave(0)]);
    assert HoldsApp(o.st.pcs[2]);
  }

  function AsBackground(evs: seq<Event>): seq<Admission> {
    if evs == [] then [] else [Background(evs[0])] + AsBackground(evs[1..])
  }

  lemma FlattenBackground(evs: seq<Event>)
    requires forall ev :: ev in evs ==> IsBackground(ev)
    ensures Flatten(AsBackground(evs)) == evs
    decreases |evs|
  {
    if evs != [] {
      FlattenBackground(evs[1..]);
      assert AsBackground(evs)[1..] == AsBackground(evs[1..]);
      assert evs == [evs[0]] + evs[1..];
    }
  }

  const SECOND_WAITER: seq<Event> :=
    [ApplyErr(0), Deliver(0, 0), CancelSelf(0), Unslot(0)] + [CloseChan(0)] + [Wake(1), Read(1)]

  function TwoWaiting(): State {
    State(Shared(2, None, Some(0), None, Some(0), [FRESH]), map[0 := AwaitOpen(0), 1 := AwaitOpen(0)])
  }

  lemma TwoOpens()
    ensures Run(INIT, Micro(Opens(0)) + Micro(Opens(1))) == Next(TwoWaiting())
  {
    var st1 := AloneOpening([], map[], 0);
    OpenAlone([], map[], 0);
    RunConcat(INIT, Micro(Opens(0)), Micro(Opens(1)));
    RunThree(st1, Add(1), Check(1), Enter(1));
    assert Run(st1, Micro(Opens(1))).st.pcs == TwoWaiting().pcs;
  }

  // Even with atomic admissions: two sessions wait on one open, its error goes to the first, and
  // the second answers with neither an app nor an error.
  lemma SecondWaiterGetsNothing()
    ensures var o := Run(INIT, Flatten([Opens(0), Opens(1)] + AsBackground(SECOND_WAITER)));
            o.Next? && 1 in o.st.pcs && o.st.pcs[1] == Attached(None, Channel(0), false)
  {
    var steps := AsBackground(SECOND_WAITER);
    FlattenBackground(SECOND_WAITER);
    assert ([Opens(0), Opens(1)] + steps)[1..] == [Opens(1)] + steps;
    assert ([Opens(1)] + steps)[1..] == steps;
    var opens := Micro(Opens(0)) + Micro(Opens(1));
    assert Flatten([Opens(0), Opens(1)] + steps) == opens + SECOND_WAITER;
    TwoOpens();
    RunConcat(INIT, opens, SECOND_WAITER);
    SecondWaiter(TwoWaiting());
  }

  lemma SecondWaiter(st: State)
    requires st == TwoWaiting()
    ensures var o := Run(st, SECOND_WAITER);
            o.Next? && 1 in o.st.pcs && o.st.pcs[1] == Attached(None, Channel(0), false)
  {
    var fail := [ApplyErr(0), Deliver(0, 0), CancelSelf(0), Unslot(0)];
    FailingCommit(st.sh, st.pcs, 0, 0);
    RunConcat(st, fail, [CloseChan(0)] + [Wake(1), Read(1)]);
    assert SECOND_WAITER == fail + ([CloseChan(0)] + [Wake(1), Read(1)]);
    var st1 := Run(st, fail).st;
    RunCons(st1, CloseChan(0), [Wake(1), Read(1)]);
    var st2 := Step(st1, CloseChan(0)).st;
    RunTwo(st2, Wake(1), Read(1));
  }
}
