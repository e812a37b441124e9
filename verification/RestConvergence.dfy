/**
 With TargetPhase held at Rest, every fair endless run brings the app to phase Rest, or deletes it
 when uninstall is set. A measure of phase, idle time left and Pods never rises, and in every other
 state one kind of event makes it fall.
 */
module RestConvergence {
  import opened Wrappers
  import opened CliApps
  import opened Reconciler
  import opened ReconcilerSafety
  import opened ReconcilerPhases
  import Descent

  // --- Pods -----------------------------------------------------------------------------------

  function PodWeight(pods: seq<Pod>): nat {
    if pods == [] then 0 else (if pods[0].terminating then 1 else 2) + PodWeight(pods[1..])
  }

  lemma {:induction false} WeightConcat(a: seq<Pod>, b: seq<Pod>)
    ensures PodWeight(a + b) == PodWeight(a) + PodWeight(b)
    decreases |a|
  {
    if a == [] {
      assert a + b == b;
    } else {
      assert (a + b)[1..] == a[1..] + b;
      WeightConcat(a[1..], b);
    }
  }

  lemma WeightSplit(pods: seq<Pod>, i: nat)
    requires i < |pods|
    ensures PodWeight(pods) == PodWeight(pods[..i]) + PodWeight([pods[i]]) + PodWeight(pods[i + 1..])
  {
    assert pods == pods[..i] + [pods[i]] + pods[i + 1..];
    WeightConcat(pods[..i] + [pods[i]], pods[i + 1..]);
    WeightConcat(pods[..i], [pods[i]]);
  }

  lemma {:induction false} ShrunkWeighsLess(a: seq<Pod>, b: seq<Pod>)
    requires Shrunk(a, b)
    ensures PodWeight(b) <= PodWeight(a)
    ensures PodWeight(b) == PodWeight(a) <==> a == b
    decreases |a|
  {
    if a != [] {
      assert Shrunk(a[1..], b[1..]);
      ShrunkWeighsLess(a[1..], b[1..]);
      assert a == [a[0]] + a[1..] && b == [b[0]] + b[1..];
    }
  }

  lemma UpdateWeight(pods: seq<Pod>, i: nat, p: Pod)
    requires i < |pods| && p.terminating == pods[i].terminating
    ensures PodWeight(pods[i := p]) == PodWeight(pods)
    ensures AnyTerminating(pods[i := p]) == AnyTerminating(pods)
  {
    var next := pods[i := p];
    WeightSplit(pods, i);
    WeightSplit(next, i);
    assert next[..i] == pods[..i] && next[i + 1..] == pods[i + 1..];
    if AnyTerminating(pods) {
      var q :| q in pods && q.terminating;
      var j :| 0 <= j < |pods| && pods[j] == q;
      assert next[j] in next && next[j].terminating;
    }
    if AnyTerminating(next) {
      var q :| q in next && q.terminating;
      var j :| 0 <= j < |next| && next[j] == q;
      assert pods[j] in pods && pods[j].terminating;
    }
  }

  lemma VanishWeight(pods: seq<Pod>, i: nat)
    requires i < |pods|
    ensures PodWeight(pods[..i] + pods[i + 1..]) < PodWeight(pods)
  {
    WeightSplit(pods, i);
    WeightConcat(pods[..i], pods[i + 1..]);
  }

  lemma DrainTargets(pods: seq<Pod>, p: Pod)
    requires p in pods && !p.terminating
    ensures p in Ready(pods) + Starting(pods)
  {
    SelectHas(pods, IsReady, p);
    SelectHas(pods, IsStarting, p);
  }

  // Once no Pod is terminating, a reconcile whose deletes succeed marks every Pod.
  lemma DrainMarksAll(pods: seq<Pod>)
    requires pods != [] && !AnyTerminating(pods)
    ensures PodWeight(Delete(pods, Names(Ready(pods) + Starting(pods)), {})) < PodWeight(pods)
  {
    var next := Delete(pods, Names(Ready(pods) + Starting(pods)), {});
    DeleteShrinks(pods, Names(Ready(pods) + Starting(pods)), {});
    ShrunkWeighsLess(pods, next);
    assert pods[0] in pods && !pods[0].terminating;
    DrainTargets(pods, pods[0]);
    assert next[0].terminating;
  }

  // --- the measure ----------------------------------------------------------------------------

  function IdleLeft(cfg: Config, cl: Cluster): nat
    requires cl.app.Some?
  {
    var left := cl.app.value.status.lastTransition + cfg.idle - cl.now;
    if left > 0 then left else 0
  }

  function PhaseWeight(cfg: Config, cl: Cluster): nat {
    if cl.app.None? then 0 else
    match cl.app.value.status.phase
    case Rest => 0
    case ShuttingDown => 1
    case WaitingForSessions => 2 + IdleLeft(cfg, cl)
    case Live => 3 + if cfg.idle > 0 then cfg.idle else 0
    case _ => 2
  }

  function Measure(cfg: Config, cl: Cluster): nat {
    PhaseWeight(cfg, cl) + PodWeight(cl.pods)
  }

  predicate WantsRest(cl: Cluster) {
    cl.app.Some? ==> ValidateApp(cl.app.value.spec).None? && cl.app.value.spec.target == Rest
  }

  // Edits keep the target at Rest and the spec valid; anything else may happen.
  predicate LeavesTarget(ev: Event) {
    ev.EditSpec? ==> ValidateApp(ev.spec).None? && ev.spec.target == Rest
  }

  predicate Final(cl: Cluster) {
    cl.app.None? || cl.app.value.status.phase == Rest
  }

  datatype Need = NeedNothing | NeedTick | NeedVanish | NeedReconcile

  // What the app is waiting for.
  function NeedOf(cfg: Config, cl: Cluster): Need {
    if Final(cl) then NeedNothing
    else if cl.app.value.status.phase == WaitingForSessions && !Expired(cfg, cl) then NeedTick
    else if cl.app.value.status.phase == ShuttingDown && AnyTerminating(cl.pods) then NeedVanish
    else NeedReconcile
  }

  predicate Good(ans: Answers) {
    ans.get && ans.list && ans.write1 == Done && ans.appDelete == Done && ans.undeletable == {}
  }

  ghost predicate Meets(cl: Cluster, need: Need, ev: Event) {
    match need
    case NeedNothing => false
    case NeedTick => ev.Tick? && ev.dt > 0
    case NeedVanish => ev.Vanish? && ev.i < |cl.pods| && cl.pods[ev.i].terminating
    case NeedReconcile => ev.Reconciling? && Good(ev.ans)
  }

  ghost predicate HoldsTarget(cfg: Config, cl: Cluster) {
    Safe(cfg, cl) && WantsRest(cl)
  }

  lemma TargetKept(cfg: Config, cl: Cluster, ev: Event)
    requires HoldsTarget(cfg, cl) && LeavesTarget(ev)
    ensures HoldsTarget(cfg, Step(cfg, cl, ev))
  {
    StepOk(cfg, cl, ev);
    if ev.Reconciling? && cl.app.Some? {
      ReconcileSpec(cfg, cl, ev.ans);
    }
  }

  // Under target Rest every edge of the phase graph leads to a lighter phase.
  lemma PhaseFalls(cfg: Config, cl: Cluster, ans: Answers)
    requires HoldsTarget(cfg, cl) && cl.app.Some?
    ensures var next := Step(cfg, cl, Reconciling(ans));
            && PhaseWeight(cfg, next) <= PhaseWeight(cfg, cl)
            && (PhaseWeight(cfg, next) == PhaseWeight(cfg, cl) && !Final(cl) ==>
                  && next.app.Some? && next.now == cl.now
                  && next.app.value.status.phase == cl.app.value.status.phase
                  && next.app.value.status.lastTransition == cl.app.value.status.lastTransition)
  {
    PhaseGraph(cfg, cl, ans);
    ReconcileSpec(cfg, cl, ans);
    TruncateBelow(cl.now);
    if cl.app.value.status.phase == Rest {
      SteadyRest(cfg, cl, ans);
    }
  }

  lemma PodsFall(cfg: Config, cl: Cluster, ans: Answers)
    requires WantsRest(cl) && cl.app.Some?
    ensures var next := Step(cfg, cl, Reconciling(ans));
            && PodWeight(next.pods) <= PodWeight(cl.pods)
            && (PodWeight(next.pods) == PodWeight(cl.pods) ==> next.pods == cl.pods)
  {
    PodEffect(cfg, cl, ans);
    ShrunkWeighsLess(cl.pods, Reconcile(cfg, cl, ans).cl.pods);
  }

  ghost predicate NotUp(cfg: Config, cl: Cluster, next: Cluster) {
    && Measure(cfg, next) <= Measure(cfg, cl)
    && (Measure(cfg, next) == Measure(cfg, cl) ==> NeedOf(cfg, next) == NeedOf(cfg, cl))
  }

  lemma ReconcileNeverRises(cfg: Config, cl: Cluster, ans: Answers)
    requires HoldsTarget(cfg, cl) && cl.app.Some? && !Final(cl)
    ensures NotUp(cfg, cl, Step(cfg, cl, Reconciling(ans)))
  {
    PhaseFalls(cfg, cl, ans);
    PodsFall(cfg, cl, ans);
  }

  lemma PodEventNeverRises(cfg: Config, cl: Cluster, ev: Event)
    requires ev.SetReady? || ev.MarkTerminating? || ev.Vanish?
    ensures var next := Step(cfg, cl, ev);
            && next.app == cl.app && next.now == cl.now && PodWeight(next.pods) <= PodWeight(cl.pods)
            && (PodWeight(next.pods) == PodWeight(cl.pods) ==> AnyTerminating(next.pods) == AnyTerminating(cl.pods))
  {
    if ev.i < |cl.pods| {
      match ev
      case SetReady(i, ready) => UpdateWeight(cl.pods, i, cl.pods[i].(ready := ready));
      case MarkTerminating(i) => ShrunkWeighsLess(cl.pods, cl.pods[i := cl.pods[i].(terminating := true)]);
      case Vanish(i) => VanishWeight(cl.pods, i);
    }
  }

  // No event makes the measure rise, and where it stays the app still waits for the same thing.
  lemma StepNeverRises(cfg: Config, cl: Cluster, ev: Event)
    requires HoldsTarget(cfg, cl) && LeavesTarget(ev) && !Final(cl)
    ensures NotUp(cfg, cl, Step(cfg, cl, ev))
  {
    match ev
    case Reconciling(ans) => ReconcileNeverRises(cfg, cl, ans);
    case EditSpec(_) =>
    case Tick(_) =>
    case _ => PodEventNeverRises(cfg, cl, ev);
  }

  // The step the app waits for makes the measure fall.
  lemma NeededStepFalls(cfg: Config, cl: Cluster, ev: Event)
    requires HoldsTarget(cfg, cl) && LeavesTarget(ev)
    requires Meets(cl, NeedOf(cfg, cl), ev)
    ensures Measure(cfg, Step(cfg, cl, ev)) < Measure(cfg, cl)
  {
    match ev
    case Vanish(i) => VanishWeight(cl.pods, i);
    case Reconciling(ans) =>
      if cl.app.value.status.phase == ShuttingDown {
        if cl.pods != [] {
          DrainMarksAll(cl.pods);
          DrainStep(cfg, cl, ans);
        } else {
          FinishStep(cfg, cl, ans);
        }
      } else {
        LeaveStep(cfg, cl, ans);
        PhaseFalls(cfg, cl, ans);
      }
    case _ =>
  }

  lemma DrainStep(cfg: Config, cl: Cluster, ans: Answers)
    requires WantsRest(cl) && cl.app.Some? && cl.app.value.status.phase == ShuttingDown && Good(ans)
    requires cl.pods != [] && !AnyTerminating(cl.pods)
    ensures Step(cfg, cl, Reconciling(ans)) == cl.(pods := Delete(cl.pods, Names(Ready(cl.pods) + Starting(cl.pods)), {}))
  {
  }

  lemma FinishStep(cfg: Config, cl: Cluster, ans: Answers)
    requires WantsRest(cl) && cl.app.Some? && cl.app.value.status.phase == ShuttingDown && Good(ans)
    requires cl.pods == []
    ensures Final(Step(cfg, cl, Reconciling(ans))) && Step(cfg, cl, Reconciling(ans)).pods == []
  {
  }

  lemma LeaveStep(cfg: Config, cl: Cluster, ans: Answers)
    requires WantsRest(cl) && NeedOf(cfg, cl) == NeedReconcile && Good(ans)
    requires cl.app.value.status.phase != ShuttingDown
    ensures var next := Step(cfg, cl, Reconciling(ans));
            next.app.Some? && next.app.value.status.phase != cl.app.value.status.phase && next.pods == cl.pods
  {
  }

  // --- being called again ---------------------------------------------------------------------

  // When a reconcile leaves the app short of its goal with nothing to bring it back. The error of
  // the failing call ends up in the status only; if it is there already, or cannot be stored,
  // nothing changes.
  predicate Stalls(cl: Cluster, ans: Answers)
    requires cl.app.Some?
  {
    && ans.get
    && match cl.app.value.status.phase
       case Building => BothRefused(ans)
       case ShuttingDown =>
         if !ans.list then ErrorStays(cl, ans, CANNOT_LIST)
         else && cl.pods == []
              && if cl.app.value.spec.uninstall
                 then ans.appDelete == Refused && ErrorStays(cl, ans, CANNOT_DELETE_APP)
                 else BothRefused(ans)
       case _ => false
  }

  lemma ShuttingDownStalls(cl: Cluster, ans: Answers)
    requires cl.app.Some? && OnSecond(cl.app.value.status.lastTransition)
    requires cl.app.value.status.phase == ShuttingDown && ans.get
    ensures var w := Conclude(ReconcileShuttingDown(Begin(cl, cl.app.value), ans), ans);
            !Final(w.cl) && !ComesBack(cl, w) <==> Stalls(cl, ans)
  {
    var w := Begin(cl, cl.app.value);
    var w1 := ReconcileShuttingDown(w, ans);
    if ans.list && cl.pods == [] && !cl.app.value.spec.uninstall {
      TransitChanges(w, Rest, ans);
    } else if w1.fault.Failed? && w1.cl.app.Some? {
      ConcludeChanges(w1, ans);
    }
  }

  lemma OthersStall(cfg: Config, cl: Cluster, ans: Answers)
    requires cl.app.Some? && ans.get && cl.app.value.spec.target == Rest
    requires cl.app.value.status.phase !in {Rest, ShuttingDown}
    ensures var w := Conclude(MakeAppRest(cfg, Begin(cl, cl.app.value), ans), ans);
            !Final(w.cl) && !ComesBack(cl, w) <==> Stalls(cl, ans)
  {
    var w := Begin(cl, cl.app.value);
    if cl.app.value.status.phase == Building {
      TransitChanges(w, ShuttingDown, ans);
    } else {
      AsksAgain(cfg, w, ans);
    }
  }

  // Live, WaitingForSessions, Recovering and a new app ask to be called again whatever happens.
  lemma AsksAgain(cfg: Config, w: Work, ans: Answers)
    requires w.mem.spec.target == Rest && w.mem.status.phase in {Live, WaitingForSessions, Recovering, Unset}
    ensures var w1 := Conclude(MakeAppRest(cfg, w, ans), ans);
            w1.result.requeue || w1.result.after > 0
  {
  }

  // With any answers a reconcile under target Rest is followed by another one, or has reached its
  // goal, or stalls; it stalls exactly then.
  lemma NoLostWakeUp(cfg: Config, cl: Cluster, ans: Answers)
    requires HoldsTarget(cfg, cl) && cl.app.Some?
    ensures var w := Reconcile(cfg, cl, ans);
            !Final(w.cl) && !ComesBack(cl, w) <==> Stalls(cl, ans)
  {
    if ans.get {
      var w := Begin(cl, cl.app.value);
      match cl.app.value.status.phase
      case Rest => SteadyRest(cfg, cl, ans);
      case ShuttingDown =>
        ShuttingDownStalls(cl, ans);
        assert MakeAppRest(cfg, w, ans) == ReconcileShuttingDown(w, ans);
      case _ => OthersStall(cfg, cl, ans);
    }
  }

  const LIST_FAILS := NO_POD.(list := false)

  // Shutting down, with the Pod left that it was live on.
  function ShuttingDownApp(cfg: Config, error: string): Cluster {
    var spec := AN_APP.(target := Live);
    var pod := Pod("app-x", Some(cfg.hash(spec)), Some(spec), false, true);
    Cluster(Some(CliApp("app", AN_APP, Status(ShuttingDown, 0, "app-x", error))), [pod], 0)
  }

  // The list of Pods fails twice: the first failure brings the app back by storing its error, the
  // second stores the same error and nothing more happens, though every write succeeds.
  lemma SecondFailureStalls(cfg: Config)
    ensures var cl, stuck := ShuttingDownApp(cfg, ""), ShuttingDownApp(cfg, CANNOT_LIST);
            && HoldsTarget(cfg, cl) && !Final(stuck)
            && Reconcile(cfg, cl, LIST_FAILS).cl == stuck && ComesBack(cl, Reconcile(cfg, cl, LIST_FAILS))
            && Reconcile(cfg, stuck, LIST_FAILS).cl == stuck && !ComesBack(stuck, Reconcile(cfg, stuck, LIST_FAILS))
  {
    FailingList(cfg, ShuttingDownApp(cfg, ""));
    FailingList(cfg, ShuttingDownApp(cfg, CANNOT_LIST));
  }

  lemma FailingList(cfg: Config, cl: Cluster)
    requires WantsRest(cl) && cl.app.Some? && cl.app.value.status.phase == ShuttingDown
    requires OnSecond(cl.app.value.status.lastTransition)
    ensures var w := Reconcile(cfg, cl, LIST_FAILS);
            && w.result == Result(false, 0)
            && w.cl == cl.(app := Some(WithStatus(cl.app.value, cl.app.value.status.(error := CANNOT_LIST))))
  {
  }

  // --- endless runs ---------------------------------------------------------------------------

  ghost function MeetsAt(cfg: Config, cl: Cluster, run: nat -> Event): (nat, Need) -> bool {
    (m: nat, need: Need) => Meets(At(cfg, cl, run, m), need, run(m))
  }

  ghost predicate FairAt(cfg: Config, cl: Cluster, run: nat -> Event, n: nat) {
    && Descent.MetAfter(MeetsAt(cfg, cl, run), n, NeedReconcile)
    && Descent.MetAfter(MeetsAt(cfg, cl, run), n, NeedTick)
    && (AnyTerminating(At(cfg, cl, run, n).pods) ==> Descent.MetAfter(MeetsAt(cfg, cl, run), n, NeedVanish))
  }

  // Reconciles that succeed and ticks never stop coming, and a terminating Pod is removed some day.
  ghost predicate Fair(cfg: Config, cl: Cluster, run: nat -> Event) {
    forall n: nat :: FairAt(cfg, cl, run, n)
  }

  lemma {:induction false} TargetHeld(cfg: Config, cl: Cluster, run: nat -> Event, n: nat)
    requires HoldsTarget(cfg, cl) && forall k: nat :: LeavesTarget(run(k))
    ensures HoldsTarget(cfg, At(cfg, cl, run, n))
  {
    if n > 0 {
      TargetHeld(cfg, cl, run, n - 1);
      TargetKept(cfg, At(cfg, cl, run, n - 1), run(n - 1));
    }
  }

  lemma FallsAt(cfg: Config, cl: Cluster, run: nat -> Event, n: nat)
    requires HoldsTarget(cfg, At(cfg, cl, run, n)) && LeavesTarget(run(n)) && !Final(At(cfg, cl, run, n))
    ensures var a, b := At(cfg, cl, run, n), At(cfg, cl, run, n + 1);
            && Measure(cfg, b) <= Measure(cfg, a)
            && (Measure(cfg, b) == Measure(cfg, a) ==>
                  NeedOf(cfg, b) == NeedOf(cfg, a) && !Meets(a, NeedOf(cfg, a), run(n)))
  {
    var a := At(cfg, cl, run, n);
    StepNeverRises(cfg, a, run(n));
    if Meets(a, NeedOf(cfg, a), run(n)) {
      NeededStepFalls(cfg, a, run(n));
    }
  }

  ghost function MeasureAt(cfg: Config, cl: Cluster, run: nat -> Event): nat -> nat {
    (n: nat) => Measure(cfg, At(cfg, cl, run, n))
  }

  ghost function NeedAt(cfg: Config, cl: Cluster, run: nat -> Event): nat -> Need {
    (n: nat) => NeedOf(cfg, At(cfg, cl, run, n))
  }

  lemma Descends(cfg: Config, cl: Cluster, run: nat -> Event, n: nat)
    requires HoldsTarget(cfg, At(cfg, cl, run, n)) && LeavesTarget(run(n))
    requires NeedAt(cfg, cl, run)(n) != NeedNothing
    ensures Descent.Falls(MeasureAt(cfg, cl, run), NeedAt(cfg, cl, run), MeetsAt(cfg, cl, run), n)
  {
    FallsAt(cfg, cl, run, n);
  }

  lemma NeedIsMet(cfg: Config, cl: Cluster, run: nat -> Event, n: nat)
    requires Fair(cfg, cl, run) && NeedAt(cfg, cl, run)(n) != NeedNothing
    ensures Descent.MetAfter(MeetsAt(cfg, cl, run), n, NeedAt(cfg, cl, run)(n))
  {
    assert FairAt(cfg, cl, run, n);
  }

  ghost predicate RestsAt(cfg: Config, cl: Cluster, run: nat -> Event, n: nat) {
    Final(At(cfg, cl, run, n)) && At(cfg, cl, run, n).pods == []
  }

  // Every fair run with the target held at Rest reaches phase Rest or deletes the app, and then no
  // Pod of the app is left.
  lemma ReachesRest(cfg: Config, cl: Cluster, run: nat -> Event) returns (m: nat)
    requires HoldsTarget(cfg, cl) && forall k: nat :: LeavesTarget(run(k))
    requires Fair(cfg, cl, run)
    ensures RestsAt(cfg, cl, run, m)
  {
    var measure, need, meets := MeasureAt(cfg, cl, run), NeedAt(cfg, cl, run), MeetsAt(cfg, cl, run);
    forall n: nat | need(n) != NeedNothing ensures Descent.Falls(measure, need, meets, n) {
      TargetHeld(cfg, cl, run, n);
      Descends(cfg, cl, run, n);
    }
    forall n: nat | need(n) != NeedNothing ensures Descent.MetAfter(meets, n, need(n)) {
      NeedIsMet(cfg, cl, run, n);
    }
    m := Descent.ReachesDone(measure, need, meets, NeedNothing, 0);
    AtTheEnd(cfg, cl, run, m);
  }

  lemma AtTheEnd(cfg: Config, cl: Cluster, run: nat -> Event, n: nat)
    requires HoldsTarget(cfg, cl) && forall k: nat :: LeavesTarget(run(k))
    requires NeedAt(cfg, cl, run)(n) == NeedNothing
    ensures RestsAt(cfg, cl, run, n)
  {
    TargetHeld(cfg, cl, run, n);
  }

  lemma FinalOnce(cfg: Config, cl: Cluster, ev: Event)
    requires HoldsTarget(cfg, cl) && LeavesTarget(ev) && Final(cl)
    ensures Final(Step(cfg, cl, ev))
  {
    if ev.Reconciling? && cl.app.Some? {
      SteadyRest(cfg, cl, ev.ans);
    }
  }

  lemma RestsOnce(cfg: Config, cl: Cluster, run: nat -> Event, n: nat)
    requires HoldsTarget(cfg, At(cfg, cl, run, n)) && LeavesTarget(run(n)) && RestsAt(cfg, cl, run, n)
    ensures RestsAt(cfg, cl, run, n + 1)
  {
    var c := At(cfg, cl, run, n);
    FinalOnce(cfg, c, run(n));
    StepOk(cfg, c, run(n));
    assert At(cfg, cl, run, n + 1) == Step(cfg, c, run(n));
  }

  // And while the target is held it stays there.
  lemma {:induction false} StaysAtRest(cfg: Config, cl: Cluster, run: nat -> Event, n: nat, m: nat)
    requires HoldsTarget(cfg, cl) && forall k: nat :: LeavesTarget(run(k))
    requires n <= m && RestsAt(cfg, cl, run, n)
    ensures RestsAt(cfg, cl, run, m)
    decreases m - n
  {
    if n < m {
      TargetHeld(cfg, cl, run, n);
      RestsOnce(cfg, cl, run, n);
      StaysAtRest(cfg, cl, run, n + 1, m);
    }
  }
}
