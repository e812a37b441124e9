/** What every interleaving of micro-steps keeps, however admission is split. */
module SessionInvariants {
  import opened Wrappers
  import opened SessionProtocol

  // At most one slot is full, ctxCancel belongs to the change in it, and every change outside
  // the slots has been cancelled.
  ghost predicate SlotsOk(sh: Shared) {
    && !(sh.openSlot.Some? && sh.closeSlot.Some?)
    && sh.cancel == (if sh.openSlot.Some? then sh.openSlot else sh.closeSlot)
    && (sh.openSlot.Some? ==> sh.openSlot.value < |sh.changes| && sh.changes[sh.openSlot.value].kind == Opening)
    && (sh.closeSlot.Some? ==> sh.closeSlot.value < |sh.changes| && sh.changes[sh.closeSlot.value].kind == Closing)
    && forall c :: 0 <= c < |sh.changes| ==> ChangeSlotOk(sh, c)
  }

  ghost predicate ChangeSlotOk(sh: Shared, c: ChangeId)
    requires c < |sh.changes|
  {
    var ch := sh.changes[c];
    if InSlot(sh, c) then
      ch.stage in {Applying, Sending, Returned} && (ch.stage != Returned ==> !ch.cancelled)
    else
      ch.cancelled
  }

  // A session that has received the error of c has moved past waiting on c.
  predicate PastError(pc: Pc, c: ChangeId) {
    || pc == Woken(c, true)
    || (pc.Attached? && pc.source == Channel(c) && pc.failed)
    || pc.Leaving?
    || (pc.AwaitClose? && pc.change != c)
    || pc.Gone?
  }

  // While a change applies or has an error to send, its owner waits on its channel; an error that
  // has been sent went to the receiver.
  ghost predicate DeliveryOk(st: State, c: ChangeId)
    requires c < |st.sh.changes|
  {
    var ch := st.sh.changes[c];
    && (ch.verdict == Pending <==> ch.stage == Applying)
    && (ch.stage == Sending ==> ch.verdict == Erred)
    && (ch.receiver.Some? <==> ch.verdict == Erred && ch.stage != Sending)
    && (ch.stage in {Applying, Sending} ==>
          ch.owner in st.pcs && st.pcs[ch.owner] == if ch.kind == Opening then AwaitOpen(c) else AwaitClose(c))
    && (ch.receiver.Some? ==> ch.receiver.value in st.pcs && PastError(st.pcs[ch.receiver.value], c))
  }

  predicate OfKind(sh: Shared, c: ChangeId, kind: Kind) {
    c < |sh.changes| && sh.changes[c].kind == kind
  }

  // What a session was told by channel c agrees with the change behind it.
  predicate Told(sh: Shared, s: SessionId, c: ChangeId, failed: bool) {
    && OfKind(sh, c, Opening)
    && (if failed then sh.changes[c].receiver == Some(s) else sh.changes[c].stage == Closed)
  }

  predicate SessionOk(st: State, s: SessionId)
    requires s in st.pcs
  {
    match st.pcs[s]
    case AwaitOpen(c) => OfKind(st.sh, c, Opening)
    case AwaitClose(c) => OfKind(st.sh, c, Closing)
    case Woken(c, failed) => Told(st.sh, s, c, failed)
    case Attached(_, Channel(c), failed) => Told(st.sh, s, c, failed)
    case Attached(a, Cache, failed) => a.Some? && !failed
    case _ => true
  }

  ghost function InsideSet(pcs: map<SessionId, Pc>): set<SessionId> {
    set s | s in pcs && Inside(pcs[s])
  }

  ghost predicate CountOk(st: State) {
    st.sh.count == |InsideSet(st.pcs)|
  }

  ghost predicate FineInv(st: State) {
    && SlotsOk(st.sh)
    && (forall c :: 0 <= c < |st.sh.changes| ==> DeliveryOk(st, c))
    && (forall s :: s in st.pcs ==> SessionOk(st, s))
    && CountOk(st)
  }

  lemma RemoteOpenSlots(sh: Shared, s: SessionId)
    requires SlotsOk(sh)
    ensures RemoteOpen(sh, s).Entered?
    ensures SlotsOk(RemoteOpen(sh, s).sh)
  {
    var next := RemoteOpen(sh, s).sh;
    forall c | 0 <= c < |next.changes| ensures ChangeSlotOk(next, c) {
      if c < |sh.changes| {
        assert ChangeSlotOk(sh, c);
      }
    }
  }

  // The locked section of remoteClose can only panic on an outgoing close.
  lemma RemoteCloseSlots(sh: Shared, s: SessionId)
    requires SlotsOk(sh)
    ensures RemoteClose(sh, s).PanicIn? <==> sh.closeSlot.Some?
    ensures RemoteClose(sh, s).PanicIn? ==> RemoteClose(sh, s).line == 96
    ensures RemoteClose(sh, s).Entered? ==> SlotsOk(RemoteClose(sh, s).sh)
  {
    if sh.closeSlot.None? {
      var next := RemoteClose(sh, s).sh;
      forall c | 0 <= c < |next.changes| ensures ChangeSlotOk(next, c) {
        if c < |sh.changes| {
          assert ChangeSlotOk(sh, c);
        }
      }
    }
  }

  // Only the count and the cached app differ.
  lemma SameSlots(a: Shared, b: Shared)
    requires SlotsOk(a)
    requires b == a.(count := b.count, app := b.app)
    ensures SlotsOk(b)
  {
    forall c | 0 <= c < |b.changes| ensures ChangeSlotOk(b, c) {
      assert ChangeSlotOk(a, c);
    }
  }

  // One change moves on; in a slot it stays uncancelled until its commit returns.
  lemma ChangeMoves(a: Shared, b: Shared, c: ChangeId, ch: Change)
    requires SlotsOk(a) && c < |a.changes|
    requires b == a.(app := b.app, changes := a.changes[c := ch])
    requires ch.kind == a.changes[c].kind
    requires InSlot(a, c) ==> ch.stage in {Applying, Sending, Returned} && (ch.stage != Returned ==> !ch.cancelled)
    requires !InSlot(a, c) ==> ch.cancelled
    ensures SlotsOk(b)
  {
    forall d | 0 <= d < |b.changes| ensures ChangeSlotOk(b, d) {
      assert ChangeSlotOk(a, d);
    }
  }

  lemma UnslotKeeps(sh: Shared, c: ChangeId)
    requires SlotsOk(sh) && c < |sh.changes| && sh.changes[c].cancelled
    ensures SlotsOk(Unslotting(sh, c))
  {
    var next := Unslotting(sh, c);
    forall d | 0 <= d < |next.changes| ensures ChangeSlotOk(next, d) {
      assert ChangeSlotOk(sh, d);
    }
  }

  lemma SlotsKept(st: State, ev: Event)
    requires SlotsOk(st.sh)
    requires Step(st, ev).Next?
    ensures SlotsOk(Step(st, ev).st.sh)
  {
    var next := Step(st, ev).st.sh;
    if Enabled(st, ev) {
      match ev
      case Enter(s) => RemoteOpenSlots(st.sh, s);
      case Leave(s) => RemoteCloseSlots(st.sh, s);
      case Unslot(c) => UnslotKeeps(st.sh, c);
      case ApplyOk(c, _) => assert ChangeSlotOk(st.sh, c); ChangeMoves(st.sh, next, c, next.changes[c]);
      case ApplyErr(c) => assert ChangeSlotOk(st.sh, c); ChangeMoves(st.sh, next, c, next.changes[c]);
      case Deliver(c, _) => assert ChangeSlotOk(st.sh, c); ChangeMoves(st.sh, next, c, next.changes[c]);
      case CancelSelf(c) => assert ChangeSlotOk(st.sh, c); ChangeMoves(st.sh, next, c, next.changes[c]);
      case CloseChan(c) => assert ChangeSlotOk(st.sh, c); ChangeMoves(st.sh, next, c, next.changes[c]);
      case _ => SameSlots(st.sh, next);
    }
  }

  lemma InsideUpdate(pcs: map<SessionId, Pc>, s: SessionId, pc: Pc)
    ensures InsideSet(pcs[s := pc]) == if Inside(pc) then InsideSet(pcs) + {s} else InsideSet(pcs) - {s}
  {
  }

  lemma SameSide(pcs: map<SessionId, Pc>, s: SessionId, pc: Pc)
    requires s in pcs && Inside(pcs[s]) == Inside(pc)
    ensures InsideSet(pcs[s := pc]) == InsideSet(pcs)
  {
  }

  // Which session an event moves, if any.
  function Mover(ev: Event): Option<SessionId> {
    match ev
    case Add(s) => Some(s)
    case Check(s) => Some(s)
    case Enter(s) => Some(s)
    case Read(s) => Some(s)
    case Sub(s) => Some(s)
    case Leave(s) => Some(s)
    case Wake(s) => Some(s)
    case Deliver(_, s) => Some(s)
    case _ => None
  }

  predicate MovesChange(ev: Event, c: ChangeId) {
    match ev
    case ApplyOk(d, _) => d == c
    case ApplyErr(d) => d == c
    case Deliver(d, _) => d == c
    case CancelSelf(d) => d == c
    case Unslot(d) => d == c
    case CloseChan(d) => d == c
    case _ => false
  }

  lemma Moves(st: State, ev: Event)
    requires Enabled(st, ev) && Step(st, ev).Next?
    ensures Mover(ev).None? ==> Step(st, ev).st.pcs == st.pcs
    ensures Mover(ev).Some? ==>
              && Mover(ev).value in Step(st, ev).st.pcs
              && Step(st, ev).st.pcs == st.pcs[Mover(ev).value := Step(st, ev).st.pcs[Mover(ev).value]]
  {
  }

  lemma CountKept(st: State, ev: Event)
    requires CountOk(st)
    requires Step(st, ev).Next?
    ensures CountOk(Step(st, ev).st)
  {
    if Enabled(st, ev) && Mover(ev).Some? {
      Moves(st, ev);
      var s := Mover(ev).value;
      var pc := Step(st, ev).st.pcs[s];
      if ev.Add? || ev.Sub? {
        InsideUpdate(st.pcs, s, pc);
      } else {
        SameSide(st.pcs, s, pc);
      }
    }
  }

  // A step only moves changes forward: kind and owner stay, a closed channel stays closed, and
  // an error that has been sent is never sent again.
  ghost predicate Grows(a: Shared, b: Shared) {
    && |a.changes| <= |b.changes|
    && forall c :: 0 <= c < |a.changes| ==> Follows(a.changes[c], b.changes[c])
  }

  predicate Follows(a: Change, b: Change) {
    && b.kind == a.kind && b.owner == a.owner
    && (a.cancelled ==> b.cancelled)
    && (a.stage == Closed ==> b.stage == Closed)
    && (a.verdict != Pending ==> b.verdict == a.verdict)
    && (a.stage != Sending ==> b.receiver == a.receiver)
  }

  lemma StepGrows(st: State, ev: Event)
    requires forall c :: 0 <= c < |st.sh.changes| ==> DeliveryOk(st, c)
    requires Step(st, ev).Next?
    ensures Grows(st.sh, Step(st, ev).st.sh)
  {
    var next := Step(st, ev).st.sh;
    forall c | 0 <= c < |st.sh.changes| ensures Follows(st.sh.changes[c], next.changes[c]) {
      assert DeliveryOk(st, c);
    }
  }

  lemma DeliveryKept(st: State, ev: Event, c: ChangeId)
    requires c < |st.sh.changes| && DeliveryOk(st, c)
    requires Step(st, ev).Next?
    ensures c < |Step(st, ev).st.sh.changes| && DeliveryOk(Step(st, ev).st, c)
  {
    if Enabled(st, ev) {
      Moves(st, ev);
      if MovesChange(ev, c) {
        DeliveryOwn(st, ev, c);
      } else {
        DeliveryOther(st, ev, c);
      }
    }
  }

  lemma DeliveryOwn(st: State, ev: Event, c: ChangeId)
    requires c < |st.sh.changes| && DeliveryOk(st, c)
    requires Enabled(st, ev) && Step(st, ev).Next? && MovesChange(ev, c)
    ensures c < |Step(st, ev).st.sh.changes| && DeliveryOk(Step(st, ev).st, c)
  {
  }

  // Steps of other changes and of sessions may cancel c but do nothing else to it.
  lemma DeliveryOther(st: State, ev: Event, c: ChangeId)
    requires c < |st.sh.changes| && DeliveryOk(st, c)
    requires Enabled(st, ev) && Step(st, ev).Next? && !MovesChange(ev, c)
    ensures c < |Step(st, ev).st.sh.changes| && DeliveryOk(Step(st, ev).st, c)
  {
    Moves(st, ev);
    var next := Step(st, ev).st;
    assert next.sh.changes[c] == st.sh.changes[c].(cancelled := next.sh.changes[c].cancelled);
    if Mover(ev).Some? && Mover(ev).value in st.pcs && PastError(st.pcs[Mover(ev).value], c) {
      ReceiverStays(st, ev, c);
    }
  }

  // A session that has the error of c never waits on c again.
  lemma ReceiverStays(st: State, ev: Event, c: ChangeId)
    requires c < |st.sh.changes| && Enabled(st, ev) && Step(st, ev).Next? && Mover(ev).Some?
    requires Mover(ev).value in st.pcs && PastError(st.pcs[Mover(ev).value], c)
    ensures PastError(Step(st, ev).st.pcs[Mover(ev).value], c)
  {
  }

  // A change added by a step belongs to the session that took it, which now waits on it.
  lemma DeliveryNew(st: State, ev: Event, c: ChangeId)
    requires |st.sh.changes| <= c
    requires Step(st, ev).Next? && c < |Step(st, ev).st.sh.changes|
    ensures DeliveryOk(Step(st, ev).st, c)
  {
  }

  // What a session at rest knows stays true while changes move forward.
  lemma SessionStays(a: State, b: State, s: SessionId)
    requires FineInv(a) && Grows(a.sh, b.sh)
    requires s in a.pcs && s in b.pcs && b.pcs[s] == a.pcs[s]
    ensures SessionOk(b, s)
  {
    assert SessionOk(a, s);
    match a.pcs[s]
    case Woken(c, _) => assert DeliveryOk(a, c) && Follows(a.sh.changes[c], b.sh.changes[c]);
    case Attached(_, Channel(c), _) => assert DeliveryOk(a, c) && Follows(a.sh.changes[c], b.sh.changes[c]);
    case AwaitOpen(c) => assert Follows(a.sh.changes[c], b.sh.changes[c]);
    case AwaitClose(c) => assert Follows(a.sh.changes[c], b.sh.changes[c]);
    case _ =>
  }

  lemma SessionMoves(st: State, ev: Event)
    requires FineInv(st) && Enabled(st, ev)
    requires Step(st, ev).Next? && Mover(ev).Some?
    ensures Mover(ev).value in Step(st, ev).st.pcs && SessionOk(Step(st, ev).st, Mover(ev).value)
  {
    var s := Mover(ev).value;
    match ev
    case Deliver(c, _) => assert DeliveryOk(st, c) && SessionOk(st, s);
    case Wake(_) => assert SessionOk(st, s);
    case Read(_) => assert SessionOk(st, s);
    case Enter(_) =>
    case Leave(_) =>
    case _ =>
  }

  // Every micro-step, of any session and in any interleaving, keeps the invariant.
  lemma FineKept(st: State, ev: Event)
    requires FineInv(st)
    requires Step(st, ev).Next?
    ensures FineInv(Step(st, ev).st)
  {
    var next := Step(st, ev).st;
    SlotsKept(st, ev);
    CountKept(st, ev);
    StepGrows(st, ev);
    forall c | 0 <= c < |next.sh.changes| ensures DeliveryOk(next, c) {
      if c < |st.sh.changes| {
        DeliveryKept(st, ev, c);
      } else {
        DeliveryNew(st, ev, c);
      }
    }
    if Enabled(st, ev) {
      Moves(st, ev);
      forall s | s in next.pcs ensures SessionOk(next, s) {
        if Mover(ev) == Some(s) {
          SessionMoves(st, ev);
        } else {
          SessionStays(st, next, s);
        }
      }
    }
  }

  lemma InsideCounts(st: State, s: SessionId)
    requires CountOk(st)
    ensures s in st.pcs && Inside(st.pcs[s]) ==> st.sh.count >= 1
  {
    assert s in st.pcs && Inside(st.pcs[s]) ==> s in InsideSet(st.pcs);
  }

  // A last session reaching remoteClose while a close is outgoing.
  ghost predicate ClosesTwice(st: State, ev: Event) {
    ev.Leave? && Enabled(st, ev) && st.sh.closeSlot.Some?
  }

  // An open succeeding while an app is cached.
  ghost predicate OpensTwice(st: State, ev: Event) {
    ev.ApplyOk? && Enabled(st, ev) && st.sh.changes[ev.c].kind == Opening && st.sh.app.Some?
  }

  // Exactly two of the five panics can be reached from a state of the invariant.
  lemma PanicLines(st: State, ev: Event)
    requires FineInv(st)
    ensures Step(st, ev) == Panic(96) <==> ClosesTwice(st, ev)
    ensures Step(st, ev) == Panic(180) <==> OpensTwice(st, ev)
    ensures Step(st, ev).Panic? ==> Step(st, ev).line in {96, 180}
  {
    match ev
    case Enter(s) => RemoteOpenSlots(st.sh, s);
    case Leave(s) => RemoteCloseSlots(st.sh, s);
    case Sub(s) => InsideCounts(st, s);
    case _ =>
  }

  lemma {:induction false} RunKeeps(st: State, evs: seq<Event>)
    requires FineInv(st)
    ensures Run(st, evs).Next? ==> FineInv(Run(st, evs).st)
    ensures Run(st, evs).Panic? ==> Run(st, evs).line in {96, 180}
    decreases |evs|
  {
    if evs != [] {
      if Step(st, evs[0]).Next? {
        FineKept(st, evs[0]);
        RunKeeps(Step(st, evs[0]).st, evs[1..]);
      } else {
        PanicLines(st, evs[0]);
      }
    }
  }

  // Whatever the interleaving: the counter is never negative (lines 37 and 53), the two slots are
  // never both full (line 154), a nil cancel handle is never called, and the invariant holds.
  lemma AnyInterleaving(evs: seq<Event>)
    ensures Run(INIT, evs).Next? ==> FineInv(Run(INIT, evs).st)
    ensures Run(INIT, evs).Panic? ==> Run(INIT, evs).line in {96, 180}
  {
    assert InsideSet(INIT.pcs) == {};
    RunKeeps(INIT, evs);
  }

  // A superseded change that finishes late leaves slots, cancel handle and every other change alone;
  // the cached app too, unless it is an open that succeeds.
  lemma LateFinishIsHarmless(st: State, ev: Event, c: ChangeId)
    requires SlotsOk(st.sh) && c < |st.sh.changes| && !InSlot(st.sh, c)
    requires MovesChange(ev, c) && Step(st, ev).Next?
    ensures var next := Step(st, ev).st.sh;
            && next.openSlot == st.sh.openSlot && next.closeSlot == st.sh.closeSlot
            && next.cancel == st.sh.cancel && next.count == st.sh.count
            && (!(ev.ApplyOk? && st.sh.changes[c].kind == Opening) ==> next.app == st.sh.app)
            && |next.changes| == |st.sh.changes|
            && next.changes[c].cancelled
            && forall d :: 0 <= d < |next.changes| && d != c ==> next.changes[d] == st.sh.changes[d]
  {
    assert ChangeSlotOk(st.sh, c);
  }

  ghost predicate GotErrorOf(st: State, s: SessionId, c: ChangeId) {
    s in st.pcs && (st.pcs[s] == Woken(c, true)
                    || (st.pcs[s].Attached? && st.pcs[s].source == Channel(c) && st.pcs[s].failed))
  }

  // An error ready to be sent has a waiter to take it; a sent error reached exactly one session,
  // and every other waiter of the channel was woken by the close.
  lemma ErrorReachesOne(st: State, c: ChangeId, s: SessionId, t: SessionId)
    requires FineInv(st) && c < |st.sh.changes|
    ensures st.sh.changes[c].stage == Sending ==> Enabled(st, Deliver(c, st.sh.changes[c].owner))
    ensures GotErrorOf(st, s, c) && GotErrorOf(st, t, c) ==> s == t
    ensures s in st.pcs && st.pcs[s] == Woken(c, false) ==>
              st.sh.changes[c].stage == Closed && st.sh.changes[c].receiver != Some(s)
  {
    assert DeliveryOk(st, c);
    assert s in st.pcs ==> SessionOk(st, s);
    assert t in st.pcs ==> SessionOk(st, t);
  }
}
