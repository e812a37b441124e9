/**
 Closing and reopening an app. While every reconcile under target Rest finds the app in Live, or idle
 for less than the idle duration, its Pod is never deleted, none is created, and phase Live always
 names it. The idle duration alone does not guarantee this: an app closed again before it is back in
 phase Live loses its Pod at once.
 */
module PodReuse {
  import opened Wrappers
  import opened CliApps
  import opened Reconciler
  import opened ReconcilerSafety
  import opened ReconcilerPhases
  import LiveConvergence
  import RestConvergence

  function Resting(spec: Spec): Spec { spec.(target := Rest) }

  // The Pod that spec started, ready.
  function ItsPod(cfg: Config, spec: Spec, name: string): Pod {
    Pod(name, Some(cfg.hash(spec)), Some(spec), false, true)
  }

  predicate Startable(spec: Spec) {
    ValidateApp(spec).None? && spec.target == Live && Runnable(spec) && !spec.uninstall
  }

  // The app as spec, but for the target, is in use or waits for sessions, with its Pod ready.
  ghost predicate Kept(cfg: Config, cl: Cluster, spec: Spec, name: string) {
    && Safe(cfg, cl) && Startable(spec) && cl.app.Some?
    && cl.app.value.spec in {spec, Resting(spec)}
    && cl.app.value.status.phase in {Live, WaitingForSessions, Recovering}
    && cl.app.value.status.podName == name
    && ItsPod(cfg, spec, name) in cl.pods
  }

  // Only the target is edited, and nobody else touches the Pod.
  predicate Cycling(cfg: Config, cl: Cluster, spec: Spec, name: string, ev: Event) {
    match ev
    case EditSpec(s) => s in {spec, Resting(spec)}
    case SetReady(i, ready) => i < |cl.pods| && cl.pods[i] == ItsPod(cfg, spec, name) ==> ready
    case MarkTerminating(i) => i < |cl.pods| ==> cl.pods[i] != ItsPod(cfg, spec, name)
    case Vanish(i) => i < |cl.pods| ==> cl.pods[i] != ItsPod(cfg, spec, name)
    case _ => true
  }

  // A close is seen while the app is Live or has not idled for the whole duration.
  predicate InTime(cfg: Config, cl: Cluster)
    requires cl.app.Some?
  {
    cl.app.value.spec.target == Rest ==>
      || cl.app.value.status.phase == Live
      || (cl.app.value.status.phase == WaitingForSessions && !Expired(cfg, cl))
  }

  lemma IndexOf(pods: seq<Pod>, p: Pod) returns (k: nat)
    requires p in pods
    ensures k < |pods| && pods[k] == p
  {
    k :| 0 <= k < |pods| && pods[k] == p;
  }

  lemma ItIsClaimed(cfg: Config, cl: Cluster, spec: Spec, name: string)
    requires Kept(cfg, cl, spec, name)
    ensures Claimed(cl.pods, spec) == Some(ItsPod(cfg, spec, name))
  {
    var k := IndexOf(cl.pods, ItsPod(cfg, spec, name));
    LiveConvergence.OnlyMatch(cfg, cl.pods, spec, k);
  }

  // Reopening claims the old Pod, because its dump was taken when the target was Live.
  lemma ReopenKeeps(cfg: Config, cl: Cluster, spec: Spec, name: string, ans: Answers)
    requires Kept(cfg, cl, spec, name) && cl.app.value.spec == spec
    ensures var next := Step(cfg, cl, Reconciling(ans));
            Kept(cfg, next, spec, name)
  {
    var next := Step(cfg, cl, Reconciling(ans));
    ItIsClaimed(cfg, cl, spec, name);
    var k := IndexOf(cl.pods, ItsPod(cfg, spec, name));
    ReconcileOk(cfg, cl, ans);
    ReconcileSpec(cfg, cl, ans);
    PhaseGraph(cfg, cl, ans);
    ClaimSurvives(cfg, cl, ans, k);
    assert next.pods[k] in next.pods;
  }

  lemma CloseKeeps(cfg: Config, cl: Cluster, spec: Spec, name: string, ans: Answers)
    requires Kept(cfg, cl, spec, name) && cl.app.value.spec == Resting(spec) && InTime(cfg, cl)
    ensures var next := Step(cfg, cl, Reconciling(ans));
            Kept(cfg, next, spec, name) && next.pods == cl.pods
  {
    ReconcileOk(cfg, cl, ans);
    ReconcileSpec(cfg, cl, ans);
    PhaseGraph(cfg, cl, ans);
    ClosePods(cfg, cl, ans);
  }

  lemma ClosePods(cfg: Config, cl: Cluster, ans: Answers)
    requires cl.app.Some? && cl.app.value.spec.target == Rest
    requires cl.app.value.status.phase in {Live, WaitingForSessions}
    ensures Reconcile(cfg, cl, ans).cl.pods == cl.pods
  {
    ConcludePods(Dispatch(cfg, Begin(cl, cl.app.value), ans), ans);
  }

  lemma PodEventKeeps(cfg: Config, cl: Cluster, spec: Spec, name: string, ev: Event)
    requires Kept(cfg, cl, spec, name) && Cycling(cfg, cl, spec, name, ev)
    requires ev.SetReady? || ev.MarkTerminating? || ev.Vanish?
    ensures Kept(cfg, Step(cfg, cl, ev), spec, name)
  {
    StepOk(cfg, cl, ev);
    var next := Step(cfg, cl, ev);
    var k := IndexOf(cl.pods, ItsPod(cfg, spec, name));
    if ev.Vanish? && ev.i < k {
      assert next.pods[k - 1] == cl.pods[k];
    } else {
      assert next.pods[k] == cl.pods[k];
    }
  }

  lemma CycleKeeps(cfg: Config, cl: Cluster, spec: Spec, name: string, ev: Event)
    requires Kept(cfg, cl, spec, name) && Cycling(cfg, cl, spec, name, ev)
    requires ev.Reconciling? ==> InTime(cfg, cl)
    ensures Kept(cfg, Step(cfg, cl, ev), spec, name)
  {
    match ev
    case Reconciling(ans) =>
      if cl.app.value.spec.target == Live {
        ReopenKeeps(cfg, cl, spec, name, ans);
      } else {
        CloseKeeps(cfg, cl, spec, name, ans);
      }
    case EditSpec(_) => StepOk(cfg, cl, ev);
    case Tick(_) => StepOk(cfg, cl, ev);
    case _ => PodEventKeeps(cfg, cl, spec, name, ev);
  }

  // Every event of the run is part of a cycle, and every close is seen in time.
  ghost predicate CyclesInTime(cfg: Config, cl: Cluster, spec: Spec, name: string, evs: seq<Event>)
    decreases |evs|
  {
    evs != [] ==>
      && Cycling(cfg, cl, spec, name, evs[0])
      && (evs[0].Reconciling? && cl.app.Some? ==> InTime(cfg, cl))
      && CyclesInTime(cfg, Step(cfg, cl, evs[0]), spec, name, evs[1..])
  }

  // In every state of the run the Pod is there and the app names it, and no reconcile creates one.
  ghost predicate Reused(cfg: Config, cl: Cluster, spec: Spec, name: string, evs: seq<Event>)
    decreases |evs|
  {
    && Kept(cfg, cl, spec, name)
    && (evs != [] ==>
          && (evs[0].Reconciling? ==> !Creates(cl, evs[0].ans))
          && Reused(cfg, Step(cfg, cl, evs[0]), spec, name, evs[1..]))
  }

  lemma NothingCreated(cfg: Config, cl: Cluster, spec: Spec, name: string, ans: Answers)
    requires Kept(cfg, cl, spec, name)
    ensures !Creates(cl, ans)
  {
    ItIsClaimed(cfg, cl, spec, name);
  }

  // Across any number of such cycles, with failing calls and events of other Pods interleaved, the
  // Pod is never deleted, no Pod is created, and the app always names it.
  lemma {:induction false} PodIsReused(cfg: Config, cl: Cluster, spec: Spec, name: string, evs: seq<Event>)
    requires Kept(cfg, cl, spec, name) && CyclesInTime(cfg, cl, spec, name, evs)
    ensures Reused(cfg, cl, spec, name, evs) && Kept(cfg, Run(cfg, cl, evs), spec, name)
    decreases |evs|
  {
    if evs != [] {
      if evs[0].Reconciling? {
        NothingCreated(cfg, cl, spec, name, evs[0].ans);
      }
      CycleKeeps(cfg, cl, spec, name, evs[0]);
      PodIsReused(cfg, Step(cfg, cl, evs[0]), spec, name, evs[1..]);
    }
  }

  // Closing keeps the Pod exactly when the close is seen in time: two reconciles in a row, both
  // answered as asked, keep it or start deleting it; the drain first waits for Pods already on
  // their way out.
  lemma CloseKeepsPodIff(cfg: Config, cl: Cluster, spec: Spec, name: string, a: Answers, b: Answers)
    requires Kept(cfg, cl, spec, name) && cl.app.value.spec == Resting(spec)
    requires RestConvergence.Good(a) && RestConvergence.Good(b)
    ensures var end := Step(cfg, Step(cfg, cl, Reconciling(a)), Reconciling(b));
            && (ItsPod(cfg, spec, name) in end.pods <==> InTime(cfg, cl) || AnyTerminating(cl.pods))
            && (!InTime(cfg, cl) ==> end.app.Some? && end.app.value.status.phase == ShuttingDown)
  {
    var mid := Step(cfg, cl, Reconciling(a));
    if InTime(cfg, cl) {
      CloseKeeps(cfg, cl, spec, name, a);
      ReconcileSpec(cfg, cl, a);
      PhaseGraph(cfg, cl, a);
      ClosePods(cfg, mid, b);
    } else {
      LateClose(cfg, cl, spec, name, a);
      if AnyTerminating(cl.pods) {
        DrainWaits(cfg, mid, b);
      } else {
        Drained(cfg, mid, ItsPod(cfg, spec, name), b);
      }
    }
  }

  lemma LateClose(cfg: Config, cl: Cluster, spec: Spec, name: string, a: Answers)
    requires Kept(cfg, cl, spec, name) && cl.app.value.spec == Resting(spec)
    requires RestConvergence.Good(a) && !InTime(cfg, cl)
    ensures var mid := Step(cfg, cl, Reconciling(a));
            && mid.pods == cl.pods && RestConvergence.WantsRest(mid)
            && mid.app.Some? && mid.app.value.status.phase == ShuttingDown
  {
    RestConvergence.LeaveStep(cfg, cl, a);
    PhaseGraph(cfg, cl, a);
    ReconcileSpec(cfg, cl, a);
  }

  lemma DrainWaits(cfg: Config, cl: Cluster, b: Answers)
    requires RestConvergence.WantsRest(cl) && cl.app.Some? && cl.app.value.status.phase == ShuttingDown
    requires RestConvergence.Good(b) && AnyTerminating(cl.pods)
    ensures Step(cfg, cl, Reconciling(b)) == cl
  {
  }

  lemma Drained(cfg: Config, cl: Cluster, p: Pod, b: Answers)
    requires RestConvergence.WantsRest(cl) && cl.app.Some? && cl.app.value.status.phase == ShuttingDown
    requires RestConvergence.Good(b) && p in cl.pods && !AnyTerminating(cl.pods)
    ensures p !in Step(cfg, cl, Reconciling(b)).pods
    ensures Step(cfg, cl, Reconciling(b)).app == cl.app
  {
    RestConvergence.DrainStep(cfg, cl, b);
    var targets := Names(Ready(cl.pods) + Starting(cl.pods));
    var next := Delete(cl.pods, targets, {});
    forall i | 0 <= i < |next| ensures next[i].terminating {
      assert cl.pods[i] in cl.pods;
      RestConvergence.DrainTargets(cl.pods, cl.pods[i]);
      assert cl.pods[i].name in targets;
    }
  }

  // The app is closed while Live, and a reconcile lets it wait for sessions.
  lemma CloseOnce(cfg: Config, cl: Cluster, spec: Spec, name: string, ans: Answers)
    requires Kept(cfg, cl, spec, name) && cl.app.value.status.phase == Live
    requires RestConvergence.Good(ans)
    ensures var c1 := Step(cfg, cl, EditSpec(Resting(spec)));
            var c2 := Step(cfg, c1, Reconciling(ans));
            && c1.app.Some? && InTime(cfg, c1)
            && Kept(cfg, c2, spec, name) && c2.app.value.status.phase == WaitingForSessions
            && c2.pods == cl.pods && c2.now == cl.now
  {
    var c1 := Step(cfg, cl, EditSpec(Resting(spec)));
    CycleKeeps(cfg, cl, spec, name, EditSpec(Resting(spec)));
    CloseKeeps(cfg, c1, spec, name, ans);
    RestConvergence.LeaveStep(cfg, c1, ans);
    PhaseGraph(cfg, c1, ans);
  }

  // It is reopened, and a reconcile starts to recover it.
  lemma ReopenOnce(cfg: Config, cl: Cluster, spec: Spec, name: string, ans: Answers)
    requires Kept(cfg, cl, spec, name) && cl.app.value.status.phase == WaitingForSessions
    requires RestConvergence.Good(ans)
    ensures var c1 := Step(cfg, cl, EditSpec(spec));
            var c2 := Step(cfg, c1, Reconciling(ans));
            && c1.app.Some? && InTime(cfg, c1)
            && Kept(cfg, c2, spec, name) && c2.app.value.status.phase == Recovering
            && c2.pods == cl.pods && c2.now == cl.now
  {
    var c1 := Step(cfg, cl, EditSpec(spec));
    CycleKeeps(cfg, cl, spec, name, EditSpec(spec));
    ReopenKeeps(cfg, c1, spec, name, ans);
    ReopenRecovers(cfg, c1, ans);
  }

  lemma ReopenRecovers(cfg: Config, cl: Cluster, ans: Answers)
    requires cl.app.Some? && ValidateApp(cl.app.value.spec).None? && cl.app.value.spec.target == Live
    requires Runnable(cl.app.value.spec) && cl.app.value.status.phase == WaitingForSessions
    requires ans.get && ans.write1 == Done
    ensures var next := Step(cfg, cl, Reconciling(ans));
            next.app.Some? && next.app.value.status.phase == Recovering && next.pods == cl.pods && next.now == cl.now
  {
  }

  // An edit and a reconcile, as the head of a run.
  lemma TwoEvents(cfg: Config, cl: Cluster, spec: Spec, name: string, s: Spec, ans: Answers, rest: seq<Event>)
    requires s in {spec, Resting(spec)}
    requires var c1 := Step(cfg, cl, EditSpec(s)); c1.app.Some? && InTime(cfg, c1)
    ensures var c2 := Step(cfg, Step(cfg, cl, EditSpec(s)), Reconciling(ans));
            && Run(cfg, cl, [EditSpec(s), Reconciling(ans)] + rest) == Run(cfg, c2, rest)
            && (CyclesInTime(cfg, c2, spec, name, rest) ==>
                  CyclesInTime(cfg, cl, spec, name, [EditSpec(s), Reconciling(ans)] + rest))
  {
    var evs := [EditSpec(s), Reconciling(ans)] + rest;
    var c1 := Step(cfg, cl, EditSpec(s));
    assert evs[1..] == [Reconciling(ans)] + rest && evs[1..][1..] == rest;
    assert Run(cfg, cl, evs) == Run(cfg, c1, evs[1..]);
  }

  // No time passes at all, and yet the Pod is lost: close, reopen, and close again before the app
  // is back in phase Live.
  lemma QuickReopenLosesPod(cfg: Config, cl: Cluster, spec: Spec, name: string, ans: Answers)
    requires Kept(cfg, cl, spec, name) && cl.app.value.status.phase == Live
    requires !AnyTerminating(cl.pods) && RestConvergence.Good(ans)
    ensures var evs := [EditSpec(Resting(spec)), Reconciling(ans)] + ([EditSpec(spec), Reconciling(ans)] + [EditSpec(Resting(spec))]);
            var end := Run(cfg, cl, evs);
            && CyclesInTime(cfg, cl, spec, name, evs) && end.now == cl.now
            && ItsPod(cfg, spec, name) !in Step(cfg, Step(cfg, end, Reconciling(ans)), Reconciling(ans)).pods
  {
    var last := [EditSpec(Resting(spec))];
    CloseOnce(cfg, cl, spec, name, ans);
    TwoEvents(cfg, cl, spec, name, Resting(spec), ans, [EditSpec(spec), Reconciling(ans)] + last);
    var c2 := Step(cfg, Step(cfg, cl, EditSpec(Resting(spec))), Reconciling(ans));
    ReopenOnce(cfg, c2, spec, name, ans);
    TwoEvents(cfg, c2, spec, name, spec, ans, last);
    var c4 := Step(cfg, Step(cfg, c2, EditSpec(spec)), Reconciling(ans));
    LastClose(cfg, c4, spec, name, ans);
  }

  lemma LastClose(cfg: Config, cl: Cluster, spec: Spec, name: string, ans: Answers)
    requires Kept(cfg, cl, spec, name) && cl.app.value.status.phase == Recovering
    requires !AnyTerminating(cl.pods) && RestConvergence.Good(ans)
    ensures CyclesInTime(cfg, cl, spec, name, [EditSpec(Resting(spec))])
    ensures var end := Run(cfg, cl, [EditSpec(Resting(spec))]);
            && end.now == cl.now
            && ItsPod(cfg, spec, name) !in Step(cfg, Step(cfg, end, Reconciling(ans)), Reconciling(ans)).pods
  {
    var evs := [EditSpec(Resting(spec))];
    var end := Step(cfg, cl, evs[0]);
    assert evs[1..] == [];
    assert Run(cfg, cl, evs) == Run(cfg, end, evs[1..]);
    CycleKeeps(cfg, cl, spec, name, evs[0]);
    CloseKeepsPodIff(cfg, end, spec, name, ans, ans);
  }
}
