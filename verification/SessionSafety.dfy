/**
 Runs in which each admission - counting, looking at the cached app and the locked section - is one
 step, while commits and wake-ups interleave freely. No panic is reachable in them, and every session
 that holds an app holds the cached one. Split admissions lose both properties; three runs show it.
 */
module SessionSafety {
  import opened Wrappers
  import opened CliApps
  import opened SessionProtocol
  import opened SessionInvariants

  datatype Admission =
    | Opens(s: SessionId)      // a whole open, up to the return of remoteOpen
    | Closes(s: SessionId)     // a whole close, up to the return of remoteClose
    | Background(ev: Event)    // a commit, a wake-up or the read of the cached app after it

  predicate IsBackground(ev: Event) {
    !(ev.Add? || ev.Check? || ev.Enter? || ev.Sub? || ev.Leave?)
  }

  function Micro(a: Admission): seq<Event> {
    match a
    case Opens(s) => [Add(s), Check(s), Enter(s)]
    case Closes(s) => [Sub(s), Leave(s)]
    case Background(ev) => if IsBackground(ev) then [ev] else []
  }

  function Flatten(steps: seq<Admission>): seq<Event> {
    if steps == [] then [] else Micro(steps[0]) + Flatten(steps[1..])
  }

  // An open or close taken as one step.
  function AtomicOpen(st: State, s: SessionId): Outcome {
    match OpenAdmission(st.sh, s)
    case Cached(sh, app) => Next(State(sh, st.pcs[s := Attached(Some(app), Cache, false)]))
    case Waits(sh, c) => Next(State(sh, st.pcs[s := AwaitOpen(c)]))
    case Left(_) => Next(st)
    case Fails(line) => Panic(line)
  }

  function AtomicClose(st: State, s: SessionId): Outcome {
    match CloseAdmission(st.sh, s)
    case Left(sh) => Next(State(sh, st.pcs[s := Gone]))
    case Waits(sh, c) => Next(State(sh, st.pcs[s := AwaitClose(c)]))
    case Cached(_, _) => Next(st)
    case Fails(line) => Panic(line)
  }

  ghost predicate Served(pc: Pc, sh: Shared) {
    match pc
    case Attached(a, Cache, _) => a.Some? && a == sh.app
    case Attached(a, Channel(c), _) =>
      && (a.Some? ==> a == sh.app)
      && (c < |sh.changes| && sh.changes[c].verdict == Succeeded ==> a.Some?)
    case AwaitOpen(c) => c < |sh.changes| && sh.changes[c].verdict == Succeeded ==> sh.app.Some?
    case Woken(c, _) => c < |sh.changes| && sh.changes[c].verdict == Succeeded ==> sh.app.Some?
    case Added(_) => false
    case Entering => false
    case Leaving => false
    case _ => true
  }

  ghost predicate OpensOk(sh: Shared) {
    forall c :: 0 <= c < |sh.changes| && sh.changes[c].kind == Opening && sh.changes[c].stage == Applying ==>
                  sh.openSlot == Some(c) && sh.app.None?
  }

  // An open that succeeded and still holds the slot has published its app.
  ghost predicate SlotPublished(sh: Shared) {
    sh.openSlot.Some? && sh.openSlot.value < |sh.changes| && sh.changes[sh.openSlot.value].verdict == Succeeded ==>
      sh.app.Some?
  }

  ghost predicate AtomicInv(st: State) {
    && FineInv(st)
    && (st.sh.count == 0 ==> st.sh.app.None? && st.sh.openSlot.None?)
    && (st.sh.count > 0 ==> st.sh.closeSlot.None?)
    && OpensOk(st.sh)
    && SlotPublished(st.sh)
    && forall s :: s in st.pcs ==> Served(st.pcs[s], st.sh)
  }

  // The three micro-steps of an open, run without interruption, are the atomic open.
  lemma OpensRuns(st: State, s: SessionId)
    requires AtomicInv(st)
    ensures Run(st, Micro(Opens(s))) == if s in st.pcs then Next(st) else AtomicOpen(st, s)
  {
    if s in st.pcs {
      assert Served(st.pcs[s], st.sh);
      RunThree(st, Add(s), Check(s), Enter(s));
    } else {
      var st1 := Step(st, Add(s)).st;
      var st2 := Step(st1, Check(s)).st;
      RunThree(st, Add(s), Check(s), Enter(s));
      assert st2.pcs == st.pcs[s := st2.pcs[s]];
      var o := Run(st, Micro(Opens(s)));
      assert o.Next? ==> o.st.pcs == st.pcs[s := o.st.pcs[s]];
    }
  }

  lemma ClosesRuns(st: State, s: SessionId)
    requires AtomicInv(st)
    ensures Run(st, Micro(Closes(s))) ==
            if s in st.pcs && st.pcs[s].Attached? then AtomicClose(st, s) else Next(st)
  {
    assert [Sub(s), Leave(s)][1..] == [Leave(s)];
    if s in st.pcs {
      assert Served(st.pcs[s], st.sh);
    }
    var o := Step(st, Sub(s));
    if o.Next? {
      assert Run(st, [Sub(s), Leave(s)]) == Run(o.st, [Leave(s)]);
      assert Run(o.st, [Leave(s)]) == Step(o.st, Leave(s));
      var o2 := Step(o.st, Leave(s));
      assert o2.Next? && s in st.pcs ==> o2.st.pcs == st.pcs[s := o2.st.pcs[s]];
    }
  }

  // Two sessions inside make the count at least two.
  lemma TwoInside(st: State, s: SessionId, t: SessionId)
    requires CountOk(st) && s in st.pcs && t in st.pcs && s != t
    requires Inside(st.pcs[s]) && Inside(st.pcs[t])
    ensures st.sh.count >= 2
  {
    assert {s, t} <= InsideSet(st.pcs);
    assert InsideSet(st.pcs) == {s, t} + (InsideSet(st.pcs) - {s, t});
  }

  // An unapplied open keeps its owner waiting, so nobody can be the last session to close.
  lemma OwnerInside(st: State, s: SessionId, c: ChangeId)
    requires FineInv(st) && s in st.pcs && st.pcs[s].Attached?
    requires c < |st.sh.changes| && st.sh.changes[c].kind == Opening && st.sh.changes[c].stage == Applying
    ensures st.sh.count >= 2
  {
    assert DeliveryOk(st, c);
    TwoInside(st, s, st.sh.changes[c].owner);
  }

  lemma OpenKeeps(st: State, s: SessionId)
    requires AtomicInv(st) && s !in st.pcs
    ensures AtomicOpen(st, s).Next? && AtomicInv(AtomicOpen(st, s).st)
  {
    OpensRuns(st, s);
    RunKeeps(st, Micro(Opens(s)));
    var counted := st.sh.(count := st.sh.count + 1);
    forall c | 0 <= c < |counted.changes| ensures ChangeSlotOk(counted, c) {
      assert ChangeSlotOk(st.sh, c);
    }
    RemoteOpenSlots(counted, s);
    var next := AtomicOpen(st, s).st;
    assert OpensOk(next.sh);
    forall t | t in next.pcs ensures Served(next.pcs[t], next.sh) {
      if t != s {
        assert Served(st.pcs[t], st.sh);
        assert SessionOk(st, t);
      }
    }
  }

  lemma LastClose(st: State, s: SessionId)
    requires AtomicInv(st) && s in st.pcs && st.pcs[s].Attached? && st.sh.count == 1
    ensures AtomicClose(st, s).Next?
    ensures OpensOk(AtomicClose(st, s).st.sh)
    ensures forall t :: t in AtomicClose(st, s).st.pcs ==> Served(AtomicClose(st, s).st.pcs[t], AtomicClose(st, s).st.sh)
  {
    var next := AtomicClose(st, s).st;
    forall c | 0 <= c < |st.sh.changes| && st.sh.changes[c].kind == Opening
      ensures st.sh.changes[c].stage != Applying
    {
      if st.sh.changes[c].stage == Applying {
        OwnerInside(st, s, c);
      }
    }
    forall t | t in next.pcs ensures Served(next.pcs[t], next.sh) {
      if t != s {
        assert Served(st.pcs[t], st.sh);
        if Inside(st.pcs[t]) {
          TwoInside(st, s, t);
        }
      }
    }
  }

  lemma CloseKeeps(st: State, s: SessionId)
    requires AtomicInv(st) && s in st.pcs && st.pcs[s].Attached?
    ensures AtomicClose(st, s).Next? && AtomicInv(AtomicClose(st, s).st)
  {
    assert s in InsideSet(st.pcs);
    ClosesRuns(st, s);
    RunKeeps(st, Micro(Closes(s)));
    if st.sh.count == 1 {
      LastClose(st, s);
    } else {
      var next := AtomicClose(st, s).st;
      forall t | t in next.pcs ensures Served(next.pcs[t], next.sh) {
        if t != s {
          assert Served(st.pcs[t], st.sh);
        }
      }
    }
  }

  lemma BackgroundServes(st: State, ev: Event, t: SessionId)
    requires AtomicInv(st) && IsBackground(ev) && Enabled(st, ev) && Step(st, ev).Next?
    requires t in Step(st, ev).st.pcs
    ensures Served(Step(st, ev).st.pcs[t], Step(st, ev).st.sh)
  {
    Moves(st, ev);
    assert t in st.pcs && Served(st.pcs[t], st.sh) && SessionOk(st, t);
    if st.pcs[t].Attached? && st.pcs[t].source.Channel? {
      assert DeliveryOk(st, st.pcs[t].source.change);
    }
  }

  lemma BackgroundKeeps(st: State, ev: Event)
    requires AtomicInv(st) && IsBackground(ev)
    ensures Step(st, ev).Next? && AtomicInv(Step(st, ev).st)
  {
    if Step(st, ev).Panic? {
      PanicLines(st, ev);
    }
    FineKept(st, ev);
    if Enabled(st, ev) {
      var next := Step(st, ev).st;
      assert OpensOk(next.sh);
      forall t | t in next.pcs ensures Served(next.pcs[t], next.sh) {
        BackgroundServes(st, ev, t);
      }
    }
  }

  lemma AdmissionKeeps(st: State, a: Admission)
    requires AtomicInv(st)
    ensures Run(st, Micro(a)).Next? && AtomicInv(Run(st, Micro(a)).st)
  {
    match a
    case Opens(s) =>
      OpensRuns(st, s);
      if s !in st.pcs {
        OpenKeeps(st, s);
      }
    case Closes(s) =>
      ClosesRuns(st, s);
      if s in st.pcs && st.pcs[s].Attached? {
        CloseKeeps(st, s);
      }
    case Background(ev) =>
      if IsBackground(ev) {
        BackgroundKeeps(st, ev);
        assert [ev][1..] == [];
        assert Run(st, [ev]) == Run(Step(st, ev).st, []);
      }
  }

  lemma {:induction false} AtomicRunKeeps(st: State, steps: seq<Admission>)
    requires AtomicInv(st)
    ensures Run(st, Flatten(steps)).Next? && AtomicInv(Run(st, Flatten(steps)).st)
    decreases |steps|
  {
    if steps != [] {
      AdmissionKeeps(st, steps[0]);
      RunConcat(st, Micro(steps[0]), Flatten(steps[1..]));
      AtomicRunKeeps(Run(st, Micro(steps[0])).st, steps[1..]);
    }
  }

  // With atomic admissions no run of any length, with any number of sessions, panics; a close is
  // never outgoing while a session is counted, an unapplied open is the current one and finds no
  // cached app, and with no session counted nothing is cached.
  lemma NoPanic(steps: seq<Admission>)
    ensures Run(INIT, Flatten(steps)).Next?
    ensures var st := Run(INIT, Flatten(steps)).st;
            && (st.sh.count > 0 ==> st.sh.closeSlot.None?)
            && (st.sh.count == 0 ==> st.sh.app.None? && st.sh.openSlot.None?)
            && OpensOk(st.sh)
  {
    assert InsideSet(INIT.pcs) == {};
    AtomicRunKeeps(INIT, steps);
  }

  // Every session that holds an app holds the cached one, so all hold the same; a session served
  // from the cache, or woken by an open that succeeded, does hold one.
  lemma Agreement(steps: seq<Admission>, s: SessionId)
    requires Run(INIT, Flatten(steps)).Next?
    requires s in Run(INIT, Flatten(steps)).st.pcs && Run(INIT, Flatten(steps)).st.pcs[s].Attached?
    ensures var st := Run(INIT, Flatten(steps)).st;
            var pc := st.pcs[s];
            && (pc.app.Some? ==> pc.app == st.sh.app)
            && (pc.source == Cache ==> pc.app.Some? && !pc.failed)
            && (pc.source.Channel? ==> pc.source.change < |st.sh.changes|)
            && (pc.source.Channel? && st.sh.changes[pc.source.change].verdict == Succeeded ==>
                  pc.app.Some? && !pc.failed)
  {
    assert InsideSet(INIT.pcs) == {};
    AtomicRunKeeps(INIT, steps);
    var st := Run(INIT, Flatten(steps)).st;
    assert Served(st.pcs[s], st.sh) && SessionOk(st, s);
    if st.pcs[s].source.Channel? {
      assert DeliveryOk(st, st.pcs[s].source.change);
    }
  }

  // An open that answers without an app belongs to a failed change; it answers without an error
  // too exactly when the error of that change went to another session.
  lemma NilAppMeansFailedOpen(steps: seq<Admission>, s: SessionId)
    requires Run(INIT, Flatten(steps)).Next?
    requires var pcs := Run(INIT, Flatten(steps)).st.pcs;
             s in pcs && pcs[s].Attached? && pcs[s].app.None?
    ensures var st := Run(INIT, Flatten(steps)).st;
            var pc := st.pcs[s];
            && pc.source.Channel? && pc.source.change < |st.sh.changes|
            && st.sh.changes[pc.source.change].verdict == Erred
            && st.sh.changes[pc.source.change].receiver.Some?
            && (!pc.failed <==> st.sh.changes[pc.source.change].receiver != Some(s))
  {
    Agreement(steps, s);
    assert InsideSet(INIT.pcs) == {};
    AtomicRunKeeps(INIT, steps);
    var st := Run(INIT, Flatten(steps)).st;
    assert Served(st.pcs[s], st.sh) && SessionOk(st, s);
    assert DeliveryOk(st, st.pcs[s].source.change);
  }

  // Once woken, a session reads neither an app nor an error exactly if it was woken by the close of
  // its channel and nothing is cached; then its open failed and the error went to another session.
  lemma ReadsNothingIff(steps: seq<Admission>, s: SessionId)
    requires Run(INIT, Flatten(steps)).Next?
    requires s in Run(INIT, Flatten(steps)).st.pcs && Run(INIT, Flatten(steps)).st.pcs[s].Woken?
    ensures var st := Run(INIT, Flatten(steps)).st;
            var c, pc := st.pcs[s].change, Step(st, Read(s)).st.pcs[s];
            && (pc.app.None? && !pc.failed <==> !st.pcs[s].failed && st.sh.app.None?)
            && (pc.app.None? && !pc.failed ==>
                  && c < |st.sh.changes| && st.sh.changes[c].verdict == Erred
                  && st.sh.changes[c].receiver.Some? && st.sh.changes[c].receiver != Some(s))
  {
    assert InsideSet(INIT.pcs) == {};
    AtomicRunKeeps(INIT, steps);
    var st := Run(INIT, Flatten(steps)).st;
    assert Served(st.pcs[s], st.sh) && SessionOk(st, s);
    assert DeliveryOk(st, st.pcs[s].change);
  }

  // An open is served from the cache exactly if another session is counted and an app is cached; it
  // joins an outgoing open if there is one, and starts its own otherwise.
  lemma OpenCases(sh: Shared, s: SessionId)
    requires SlotsOk(sh) && sh.count >= 0
    ensures var o := OpenAdmission(sh, s);
            if sh.count > 0 && sh.app.Some? then o == Cached(sh.(count := sh.count + 1), sh.app.value)
            else && o.Waits? && o.sh.count == sh.count + 1 && o.sh.app == sh.app && o.sh.openSlot == Some(o.change)
                 && o.change == (if sh.openSlot.Some? then sh.openSlot.value else |sh.changes|)
                 && |o.sh.changes| == |sh.changes| + if sh.openSlot.Some? then 0 else 1
  {
  }

  // A close does no more than leave while others are counted; the last one drops the cached app and
  // starts a change of its own.
  lemma CloseCases(sh: Shared, s: SessionId)
    requires SlotsOk(sh) && sh.count > 0 && sh.closeSlot.None?
    ensures var o := CloseAdmission(sh, s);
            if sh.count > 1 then o == Left(sh.(count := sh.count - 1))
            else && o.Waits? && o.sh.count == 0 && o.sh.app.None? && o.sh.openSlot.None?
                 && o.sh.closeSlot == Some(o.change) && o.change == |sh.changes| && |o.sh.changes| == |sh.changes| + 1
  {
  }

  // --- split admissions -----------------------------------------------------------------------

  // Every open session that holds an app holds the cached one.
  ghost predicate Agrees(st: State) {
    forall s :: s in st.pcs && HoldsApp(st.pcs[s]) ==> st.pcs[s].app == st.sh.app
  }

  predicate HoldsApp(pc: Pc) {
    pc.Attached? && pc.app.Some?
  }

  // A session enters remoteClose while another one holds an app.
  ghost predicate ClosesUnder(st: State, ev: Event) {
    ev.Leave? && Enabled(st, ev) && exists s :: s in st.pcs && HoldsApp(st.pcs[s])
  }

  // Of all micro-steps exactly these end the agreement.
  lemma AgreementLostIff(st: State, ev: Event)
    requires Agrees(st) && Step(st, ev).Next?
    ensures !Agrees(Step(st, ev).st) <==> ClosesUnder(st, ev)
  {
    if Enabled(st, ev) {
      var next := Step(st, ev).st;
      Moves(st, ev);
      if ClosesUnder(st, ev) {
        var s :| s in st.pcs && HoldsApp(st.pcs[s]);
        assert next.pcs[s] == st.pcs[s] && next.sh.app.None?;
      }
    }
  }
}
