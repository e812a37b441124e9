/**
 Endless runs. When applying a change ends, nobody is stuck: every change closes its channel and
 every waiter is woken.
 */
module SessionProgress {
  import opened Wrappers
  import opened SessionProtocol
  import opened SessionInvariants

  // The outcome after the first n events of an endless run.
  ghost function StateAt(run: nat -> Event, n: nat): Outcome {
    if n == 0 then Next(INIT) else
    match StateAt(run, n - 1)
    case Panic(line) => Panic(line)
    case Next(st) => Step(st, run(n - 1))
  }

  ghost predicate Survives(run: nat -> Event) {
    forall n: nat :: StateAt(run, n).Next?
  }

  ghost function At(run: nat -> Event, n: nat): State
    requires Survives(run)
  {
    StateAt(run, n).st
  }

  lemma NextAt(run: nat -> Event, n: nat)
    requires Survives(run)
    ensures Step(At(run, n), run(n)) == Next(At(run, n + 1))
  {
    assert StateAt(run, n + 1).Next?;
  }

  ghost predicate Unfinished(st: State, c: ChangeId) {
    c < |st.sh.changes| && st.sh.changes[c].stage != Closed
  }

  ghost predicate Waiting(st: State, s: SessionId) {
    s in st.pcs && (st.pcs[s].AwaitOpen? || st.pcs[s].AwaitClose?)
  }

  ghost predicate Advances(st: State, ev: Event, c: ChangeId) {
    MovesChange(ev, c) && Enabled(st, ev)
  }

  ghost predicate CanAdvance(run: nat -> Event, n: nat, c: ChangeId)
    requires Survives(run)
  {
    exists ev :: Advances(At(run, n), ev, c)
  }

  ghost predicate AdvancesAfter(run: nat -> Event, n: nat, c: ChangeId)
    requires Survives(run)
  {
    exists m: nat :: n <= m && Advances(At(run, m), run(m), c)
  }

  ghost predicate WakesAfter(run: nat -> Event, n: nat, s: SessionId)
    requires Survives(run)
  {
    exists m: nat :: n <= m && run(m) == Wake(s)
  }

  // Weak fairness: a goroutine that could go on at every moment does so at one of them. For a
  // change that is being applied this says that applying ends.
  ghost predicate Fair(run: nat -> Event)
    requires Survives(run)
  {
    && (forall n: nat, c: ChangeId :: (forall m: nat :: n <= m ==> CanAdvance(run, m, c)) ==> AdvancesAfter(run, n, c))
    && (forall n: nat, s: SessionId ::
          (forall m: nat :: n <= m ==> Enabled(At(run, m), Wake(s))) ==> WakesAfter(run, n, s))
  }

  // A commit goroutine is never blocked: if it has an error to send, its owner takes it.
  lemma NeverBlocked(st: State, c: ChangeId) returns (ev: Event)
    requires FineInv(st) && Unfinished(st, c)
    ensures Advances(st, ev, c)
    ensures st.sh.changes[c].stage != Applying ==> !ev.ApplyOk? && !ev.ApplyErr?
  {
    var ch := st.sh.changes[c];
    assert DeliveryOk(st, c);
    match ch.stage
    case Applying => ev := ApplyErr(c);
    case Sending => ev := Deliver(c, ch.owner);
    case Returned => ev := if ch.cancelled then Unslot(c) else CancelSelf(c);
    case Unslotted => ev := CloseChan(c);
    case Closed =>
  }

  function Rank(ch: Change): nat {
    match ch.stage
    case Applying => 5
    case Sending => 4
    case Returned => if ch.cancelled then 2 else 3
    case Unslotted => 1
    case Closed => 0
  }

  lemma RankFalls(st: State, ev: Event, c: ChangeId)
    requires c < |st.sh.changes| && Step(st, ev).Next?
    ensures c < |Step(st, ev).st.sh.changes|
    ensures Rank(Step(st, ev).st.sh.changes[c]) <= Rank(st.sh.changes[c])
    ensures Advances(st, ev, c) ==> Rank(Step(st, ev).st.sh.changes[c]) < Rank(st.sh.changes[c])
  {
  }

  ghost function RankAt(run: nat -> Event, n: nat, c: ChangeId): nat
    requires Survives(run)
  {
    var changes := At(run, n).sh.changes;
    if c < |changes| then Rank(changes[c]) else 6
  }

  lemma RankStep(run: nat -> Event, n: nat, c: ChangeId)
    requires Survives(run) && c < |At(run, n).sh.changes|
    ensures c < |At(run, n + 1).sh.changes|
    ensures RankAt(run, n + 1, c) <= RankAt(run, n, c)
    ensures Advances(At(run, n), run(n), c) ==> RankAt(run, n + 1, c) < RankAt(run, n, c)
  {
    NextAt(run, n);
    RankFalls(At(run, n), run(n), c);
  }

  lemma {:induction false} RankNeverRises(run: nat -> Event, n: nat, m: nat, c: ChangeId)
    requires Survives(run) && n <= m && c < |At(run, n).sh.changes|
    ensures c < |At(run, m).sh.changes|
    ensures RankAt(run, m, c) <= RankAt(run, n, c)
    decreases m
  {
    if n < m {
      RankNeverRises(run, n, m - 1, c);
      RankStep(run, m - 1, c);
    }
  }

  lemma {:induction false} FineAt(run: nat -> Event, n: nat)
    requires Survives(run)
    ensures FineInv(At(run, n))
  {
    if n == 0 {
      assert InsideSet(INIT.pcs) == {};
    } else {
      FineAt(run, n - 1);
      NextAt(run, n - 1);
      FineKept(At(run, n - 1), run(n - 1));
    }
  }

  // Only its own steps finish a change.
  lemma StaysUnfinished(st: State, ev: Event, c: ChangeId)
    requires Unfinished(st, c) && Step(st, ev).Next? && !Advances(st, ev, c)
    ensures Unfinished(Step(st, ev).st, c)
  {
  }

  lemma {:induction false} UnfinishedUntil(run: nat -> Event, n: nat, m: nat, c: ChangeId)
    requires Survives(run) && n <= m && Unfinished(At(run, n), c) && !AdvancesAfter(run, n, c)
    ensures Unfinished(At(run, m), c)
    decreases m
  {
    if n < m {
      UnfinishedUntil(run, n, m - 1, c);
      NextAt(run, m - 1);
      StaysUnfinished(At(run, m - 1), run(m - 1), c);
    }
  }

  // A change that is not finished is never blocked, so its goroutine goes on.
  lemma GoesOn(run: nat -> Event, n: nat, c: ChangeId) returns (m: nat)
    requires Survives(run) && Fair(run) && Unfinished(At(run, n), c)
    ensures n <= m && Advances(At(run, m), run(m), c)
  {
    if !AdvancesAfter(run, n, c) {
      forall k: nat | n <= k ensures CanAdvance(run, k, c) {
        UnfinishedUntil(run, n, k, c);
        FineAt(run, k);
        var ev := NeverBlocked(At(run, k), c);
      }
    }
    m :| n <= m && Advances(At(run, m), run(m), c);
  }

  // Every change is committed: its channel is closed sooner or later.
  lemma {:induction false} EveryChangeCloses(run: nat -> Event, n: nat, c: ChangeId) returns (m: nat)
    requires Survives(run) && Fair(run) && c < |At(run, n).sh.changes|
    ensures n <= m && c < |At(run, m).sh.changes| && At(run, m).sh.changes[c].stage == Closed
    decreases RankAt(run, n, c)
  {
    m := n;
    if Unfinished(At(run, n), c) {
      var k := GoesOn(run, n, c);
      RankNeverRises(run, n, k, c);
      RankStep(run, k, c);
      m := EveryChangeCloses(run, k + 1, c);
    }
  }

  // A session keeps waiting on the same channel until it is woken.
  lemma StillWaiting(st: State, ev: Event, s: SessionId)
    requires Waiting(st, s) && Step(st, ev).Next?
    ensures s in Step(st, ev).st.pcs
    ensures Step(st, ev).st.pcs[s] == st.pcs[s] || !Waiting(Step(st, ev).st, s)
    ensures ev == Wake(s) && Enabled(st, ev) ==> !Waiting(Step(st, ev).st, s)
  {
  }

  lemma {:induction false} WaitsUntil(run: nat -> Event, n: nat, m: nat, s: SessionId) returns (k: nat)
    requires Survives(run) && n <= m && Waiting(At(run, n), s)
    ensures n <= k && (Waiting(At(run, k), s) ==> k == m && At(run, m).pcs[s] == At(run, n).pcs[s])
    decreases m
  {
    if n == m {
      k := n;
    } else {
      k := WaitsUntil(run, n, m - 1, s);
      if Waiting(At(run, k), s) {
        k := m;
        NextAt(run, m - 1);
        StillWaiting(At(run, m - 1), run(m - 1), s);
      }
    }
  }

  // Nothing but its own wake-up makes a session leave a closed channel.
  lemma StaysWakeable(st: State, ev: Event, s: SessionId)
    requires Enabled(st, Wake(s)) && Step(st, ev).Next? && ev != Wake(s)
    ensures Enabled(Step(st, ev).st, Wake(s))
  {
    if Enabled(st, ev) {
      Moves(st, ev);
    }
  }

  lemma {:induction false} WakeableUntil(run: nat -> Event, n: nat, m: nat, s: SessionId)
    requires Survives(run) && n <= m && Enabled(At(run, n), Wake(s)) && !WakesAfter(run, n, s)
    ensures Enabled(At(run, m), Wake(s))
    decreases m
  {
    if n < m {
      WakeableUntil(run, n, m - 1, s);
      NextAt(run, m - 1);
      StaysWakeable(At(run, m - 1), run(m - 1), s);
    }
  }

  // Once its channel is closed, a waiter is woken.
  lemma ClosedWakes(run: nat -> Event, n: nat, s: SessionId) returns (m: nat)
    requires Survives(run) && Fair(run) && Waiting(At(run, n), s) && Enabled(At(run, n), Wake(s))
    ensures n <= m && !Waiting(At(run, m), s)
  {
    if !WakesAfter(run, n, s) {
      forall k: nat | n <= k ensures Enabled(At(run, k), Wake(s)) {
        WakeableUntil(run, n, k, s);
      }
    }
    var c := At(run, n).pcs[s].change;
    var w: nat :| n <= w && run(w) == Wake(s);
    m := WaitsUntil(run, n, w, s);
    if Waiting(At(run, m), s) {
      RankNeverRises(run, n, w, c);
      NextAt(run, w);
      StillWaiting(At(run, w), Wake(s), s);
      m := w + 1;
    }
  }

  // Every session that waits, on an open or on its own close, is woken.
  lemma EveryWaiterWakes(run: nat -> Event, n: nat, s: SessionId) returns (m: nat)
    requires Survives(run) && Fair(run) && Waiting(At(run, n), s)
    ensures n <= m && !Waiting(At(run, m), s)
  {
    FineAt(run, n);
    assert SessionOk(At(run, n), s);
    var k := EveryChangeCloses(run, n, At(run, n).pcs[s].change);
    m := WaitsUntil(run, n, k, s);
    if Waiting(At(run, m), s) {
      m := ClosedWakes(run, k, s);
    }
  }
}
