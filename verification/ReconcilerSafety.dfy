/** What every run of the controller keeps, with spec edits, Pod events and failing calls interleaved. */
module ReconcilerSafety {
  import opened Wrappers
  import opened CliApps
  import opened Reconciler

  ghost predicate DistinctNames(pods: seq<Pod>) {
    forall i, j :: 0 <= i < j < |pods| ==> pods[i].name != pods[j].name
  }

  // No two live Pods carry the same dump.
  ghost predicate DistinctDumps(pods: seq<Pod>) {
    forall i, j :: 0 <= i < j < |pods| && !pods[i].terminating && !pods[j].terminating ==> pods[i].dump != pods[j].dump
  }

  // As startApp made it: both annotations, written together, from a spec that wants phase Live.
  predicate MadeByStart(cfg: Config, p: Pod) {
    && p.name != ""
    && p.dump.Some? && p.dump.value.target == Live
    && p.hash == Some(cfg.hash(p.dump.value))
  }

  ghost predicate PodsOk(cfg: Config, pods: seq<Pod>) {
    && DistinctNames(pods)
    && DistinctDumps(pods)
    && forall i :: 0 <= i < |pods| ==> MadeByStart(cfg, pods[i])
  }

  ghost predicate AppOk(cl: Cluster, s: Status) {
    && StatusOk(s)
    && (s.phase == Rest ==> cl.pods == [])
    && s.lastTransition <= cl.now
  }

  ghost predicate Safe(cfg: Config, cl: Cluster) {
    && PodsOk(cfg, cl.pods)
    && (cl.app.Some? ==> AppOk(cl, cl.app.value.status) && OnSecond(cl.app.value.status.lastTransition))
    && (cl.app.None? ==> cl.pods == [])
  }

  predicate OnSecond(t: int) { Truncate(t) == t }

  // b is a with some Pods marked terminating.
  ghost predicate Shrunk(a: seq<Pod>, b: seq<Pod>) {
    && |a| == |b|
    && forall i :: 0 <= i < |a| ==> b[i] == a[i] || b[i] == a[i].(terminating := true)
  }

  lemma DeleteShrinks(pods: seq<Pod>, doomed: set<string>, undeletable: set<string>)
    ensures Shrunk(pods, Delete(pods, doomed, undeletable))
  {
  }

  lemma ShrunkOk(cfg: Config, a: seq<Pod>, b: seq<Pod>)
    requires PodsOk(cfg, a) && Shrunk(a, b)
    ensures PodsOk(cfg, b)
  {
    forall i, j | 0 <= i < j < |b| ensures b[i].name != b[j].name {
      assert a[i].name != a[j].name;
    }
    forall i | 0 <= i < |b| ensures MadeByStart(cfg, b[i]) {
      assert MadeByStart(cfg, a[i]);
    }
  }

  lemma {:induction false} ClaimedIsFirst(pods: seq<Pod>, spec: Spec)
    ensures Claimed(pods, spec).None? <==> forall p :: p in pods ==> !Matches(p, spec)
    ensures Claimed(pods, spec).Some? ==>
              exists k :: 0 <= k < |pods| && pods[k] == Claimed(pods, spec).value && Matches(pods[k], spec)
                          && forall j :: 0 <= j < k ==> !Matches(pods[j], spec)
    decreases |pods|
  {
    if pods != [] {
      assert pods == [pods[0]] + pods[1..];
      ClaimedIsFirst(pods[1..], spec);
      if Matches(pods[0], spec) {
        assert pods[0] in pods;
      } else if Claimed(pods, spec).Some? {
        var k :| 0 <= k < |pods[1..]| && pods[1..][k] == Claimed(pods, spec).value && Matches(pods[1..][k], spec)
                 && forall j :: 0 <= j < k ==> !Matches(pods[1..][j], spec);
        forall j | 0 <= j < k + 1 ensures !Matches(pods[j], spec) {
          if j > 0 {
            assert pods[j] == pods[1..][j - 1];
          }
        }
        assert pods[k + 1] == Claimed(pods, spec).value;
      }
    }
  }

  lemma {:induction false} SelectHas(pods: seq<Pod>, test: Pod -> bool, p: Pod)
    ensures p in Select(pods, test) <==> p in pods && test(p)
    decreases |pods|
  {
    if pods != [] {
      SelectHas(pods[1..], test, p);
      assert pods == [pods[0]] + pods[1..];
    }
  }

  // A Pod is created only when no live Pod carries the dump, so dumps stay distinct.
  lemma InsertOk(cfg: Config, pods: seq<Pod>, p: Pod, at: nat)
    requires PodsOk(cfg, pods) && MadeByStart(cfg, p) && p.name !in Names(pods)
    requires forall q :: q in pods && !q.terminating ==> q.dump != p.dump
    ensures PodsOk(cfg, Insert(pods, p, at))
  {
    var k := if at <= |pods| then at else |pods|;
    var next := Insert(pods, p, at);
    assert forall i :: 0 <= i < |next| ==> next[i] == if i < k then pods[i] else if i == k then p else pods[i - 1];
    forall i, j | 0 <= i < j < |next|
      ensures next[i].name != next[j].name
      ensures !next[i].terminating && !next[j].terminating ==> next[i].dump != next[j].dump
    {
      if i == k {
        assert pods[j - 1] in pods;
      } else if j == k {
        assert pods[i] in pods;
      }
    }
  }

  // --- one reconcile --------------------------------------------------------------------------

  ghost predicate WorkOk(cfg: Config, w: Work) {
    && Safe(cfg, w.cl)
    && AppOk(w.cl, w.mem.status)
    && w.fault != Panicked
    && forall s :: s in w.stored ==> StatusOk(s)
  }

  lemma TruncateBelow(t: int)
    ensures Truncate(t) <= t < Truncate(t) + SECOND
    ensures OnSecond(Truncate(t))
  {
  }

  lemma WriteOk(cfg: Config, w: Work, a: Write)
    requires WorkOk(cfg, w)
    ensures WorkOk(cfg, WriteStatus(w, a))
    ensures WriteStatus(w, a).cl.pods == w.cl.pods
  {
    TruncateBelow(w.mem.status.lastTransition);
  }

  lemma TransitOk(cfg: Config, w: Work, phase: Phase, a: Write)
    requires WorkOk(cfg, w)
    requires phase == Live ==> w.mem.status.podName != "" && Runnable(w.mem.spec)
    requires phase == Rest ==> w.cl.pods == []
    ensures WorkOk(cfg, Transit(w, phase, a))
  {
    var s := w.mem.status.(phase := phase, lastTransition := w.cl.now);
    var s1 := if phase == Rest then s.(podName := "") else s;
    WriteOk(cfg, w.(mem := WithStatus(w.mem, s1)), a);
  }

  lemma ClaimOk(cfg: Config, w: Work, ans: Answers)
    requires WorkOk(cfg, w)
    ensures WorkOk(cfg, Claim(cfg, w, ans))
  {
    DeleteShrinks(w.cl.pods, OldNames(cfg, w.cl.pods, w.mem.spec), ans.undeletable);
    ShrunkOk(cfg, w.cl.pods, Claim(cfg, w, ans).cl.pods);
  }

  lemma StartOk(cfg: Config, w: Work, ans: Answers)
    requires WorkOk(cfg, w) && w.mem.spec.target == Live && w.mem.status.phase != Rest
    requires w.cl.app.Some? && w.cl.app.value.status.phase != Rest
    requires forall p :: p in w.cl.pods ==> !Matches(p, w.mem.spec)
    ensures WorkOk(cfg, StartPod(cfg, w, ans))
  {
    if ans.create.NewPod? && ans.create.name != "" && ans.create.name !in Names(w.cl.pods) {
      InsertOk(cfg, w.cl.pods, FreshPod(cfg, ans.create.name, w.mem.spec), ans.create.at);
    }
  }

  lemma RecoveringOk(cfg: Config, w: Work, ans: Answers)
    requires WorkOk(cfg, w) && w.mem.spec.target == Live && Runnable(w.mem.spec)
    requires w.mem.status.phase == Recovering && w.cl.app.Some? && w.cl.app.value.status.phase == Recovering
    ensures WorkOk(cfg, ReconcileRecovering(cfg, w, ans))
  {
    ClaimedIsFirst(w.cl.pods, w.mem.spec);
    var w1 := Claim(cfg, w, ans);
    ClaimOk(cfg, w, ans);
    var pod := Claimed(w.cl.pods, w.mem.spec);
    if ans.list {
      if pod.None? {
        DeleteShrinks(w.cl.pods, OldNames(cfg, w.cl.pods, w.mem.spec), ans.undeletable);
        forall p | p in w1.cl.pods ensures !Matches(p, w.mem.spec) {
          var i :| 0 <= i < |w1.cl.pods| && w1.cl.pods[i] == p;
          assert w.cl.pods[i] in w.cl.pods;
        }
        StartOk(cfg, w1, ans);
      } else if pod.value.ready {
        var k :| 0 <= k < |w.cl.pods| && w.cl.pods[k] == pod.value;
        assert MadeByStart(cfg, w.cl.pods[k]);
        TransitOk(cfg, WithPodName(w1, pod.value.name), Live, ans.write1);
      }
    }
  }

  lemma LiveOk(cfg: Config, w: Work, ans: Answers)
    requires WorkOk(cfg, w) && w.mem.status.phase == Live
    ensures WorkOk(cfg, ReconcileLive(cfg, w, ans))
  {
    ClaimedIsFirst(w.cl.pods, w.mem.spec);
    var w1 := Claim(cfg, w, ans);
    ClaimOk(cfg, w, ans);
    var pod := Claimed(w.cl.pods, w.mem.spec);
    if ans.list {
      if pod.Some? && pod.value.ready {
        var k :| 0 <= k < |w.cl.pods| && w.cl.pods[k] == pod.value;
        assert MadeByStart(cfg, w.cl.pods[k]);
        WriteOk(cfg, WithPodName(w1, pod.value.name), ans.write1);
      } else {
        // The copy names no Pod for a moment, but the transition leaves phase Live at once.
        var s := w1.mem.status.(podName := "", phase := Recovering, lastTransition := w1.cl.now);
        WriteOk(cfg, w1.(mem := WithStatus(w1.mem, s)), ans.write1);
      }
    }
  }

  lemma BuildingOk(cfg: Config, w: Work, ans: Answers)
    requires WorkOk(cfg, w) && w.mem.status.phase == Building
    ensures WorkOk(cfg, ReconcileBuilding(w, ans))
  {
    var spec := w.mem.spec.(image := BuiltImage(w.mem.name));
    if w.mem.spec.image != "" {
      TransitOk(cfg, w, Recovering, ans.write1);
    } else if ans.built && w.cl.app.Some? && ans.specWrite != Refused {
      var app := WithSpec(w.cl.app.value, spec);
      var w2 := w.(mem := WithStatus(WithSpec(w.mem, spec), app.status), cl := w.cl.(app := Some(app)));
      TransitOk(cfg, w2, Recovering, ans.write1);
    }
  }

  lemma MakeLiveOk(cfg: Config, w: Work, ans: Answers)
    requires WorkOk(cfg, w) && w.mem.spec.target == Live
    requires w.cl.app.Some? && w.cl.app.value.status.phase == w.mem.status.phase
    ensures WorkOk(cfg, MakeAppLive(cfg, w, ans))
  {
    if NeedsBuild(w.mem) {
      TransitOk(cfg, w, Building, ans.write1);
    } else {
      match w.mem.status.phase
      case Live => LiveOk(cfg, w, ans);
      case Recovering => RecoveringOk(cfg, w, ans);
      case Building => BuildingOk(cfg, w, ans);
      case _ => TransitOk(cfg, w, Recovering, ans.write1);
    }
  }

  lemma DrainOk(cfg: Config, w: Work, ans: Answers)
    requires WorkOk(cfg, w)
    ensures WorkOk(cfg, Drain(w, ans))
  {
    var targets := Ready(w.cl.pods) + Starting(w.cl.pods);
    DeleteShrinks(w.cl.pods, Names(targets), ans.undeletable);
    ShrunkOk(cfg, w.cl.pods, Delete(w.cl.pods, Names(targets), ans.undeletable));
  }

  lemma MakeRestOk(cfg: Config, w: Work, ans: Answers)
    requires WorkOk(cfg, w) && w.mem.spec.target == Rest && w.mem.status.phase != Rest
    ensures WorkOk(cfg, MakeAppRest(cfg, w, ans))
  {
    match w.mem.status.phase
    case Live =>
      var s := w.mem.status.(podName := "", phase := ShuttingDown, lastTransition := w.cl.now);
      WriteOk(cfg, w.(mem := WithStatus(w.mem, s), result := Result(true, 0)), ans.write1);
      TransitOk(cfg, w.(result := Result(true, cfg.idle)), WaitingForSessions, ans.write1);
    case ShuttingDown =>
      if ans.list && w.cl.pods == [] {
        TransitOk(cfg, w, Rest, ans.write1);
      } else {
        DrainOk(cfg, w.(result := w.result.(after := DEFAULT_REQUEUE)), ans);
      }
    case _ => TransitOk(cfg, w, ShuttingDown, ans.write1);
  }

  lemma DispatchOk(cfg: Config, w: Work, ans: Answers)
    requires WorkOk(cfg, w) && w.cl.app.Some? && w.cl.app.value.status.phase == w.mem.status.phase
    ensures WorkOk(cfg, Dispatch(cfg, w, ans))
  {
    if ValidateApp(w.mem.spec).None? {
      if w.mem.spec.target == Rest {
        if w.mem.status.phase != Rest {
          MakeRestOk(cfg, w, ans);
        }
      } else {
        MakeLiveOk(cfg, w, ans);
      }
    }
  }

  // No reconcile panics, from any of the seven phases and with any answers, and every status it
  // stores, the one of the deferred error write included, is well formed.
  lemma ReconcileOk(cfg: Config, cl: Cluster, ans: Answers)
    requires Safe(cfg, cl) && cl.app.Some?
    ensures var w := Reconcile(cfg, cl, ans);
            Safe(cfg, w.cl) && w.fault == Fine && forall s :: s in w.stored ==> StatusOk(s)
  {
    var w := Begin(cl, cl.app.value);
    assert WorkOk(cfg, w);
    if ans.get {
      DispatchOk(cfg, w, ans);
      var w1 := Dispatch(cfg, w, ans);
      if w1.fault.Failed? {
        WriteOk(cfg, w1.(mem := WithStatus(w1.mem, w1.mem.status.(error := w1.fault.message))), ans.write2);
      }
    }
  }

  // --- whole runs -----------------------------------------------------------------------------

  lemma VanishOk(cfg: Config, pods: seq<Pod>, i: nat)
    requires PodsOk(cfg, pods) && i < |pods|
    ensures PodsOk(cfg, pods[..i] + pods[i + 1..])
  {
    var next := pods[..i] + pods[i + 1..];
    assert forall k :: 0 <= k < |next| ==> next[k] == if k < i then pods[k] else pods[k + 1];
  }

  lemma StepOk(cfg: Config, cl: Cluster, ev: Event)
    requires Safe(cfg, cl)
    ensures Safe(cfg, Step(cfg, cl, ev))
  {
    match ev
    case Reconciling(ans) =>
      if cl.app.Some? {
        ReconcileOk(cfg, cl, ans);
      }
    case MarkTerminating(i) =>
      if i < |cl.pods| {
        ShrunkOk(cfg, cl.pods, cl.pods[i := cl.pods[i].(terminating := true)]);
      }
    case Vanish(i) =>
      if i < |cl.pods| {
        VanishOk(cfg, cl.pods, i);
      }
    case _ =>
  }

  // A cluster in which the app was just created.
  function Initial(name: string, spec: Spec, now: nat): Cluster {
    Cluster(Some(CliApp(name, spec, Status(Unset, 0, "", ""))), [], now)
  }

  // Every status stored in the course of a run.
  function AllStored(cfg: Config, cl: Cluster, evs: seq<Event>): seq<Status>
    decreases |evs|
  {
    if evs == [] then []
    else (if evs[0].Reconciling? && cl.app.Some? then Reconcile(cfg, cl, evs[0].ans).stored else [])
         + AllStored(cfg, Step(cfg, cl, evs[0]), evs[1..])
  }

  lemma {:induction false} RunOk(cfg: Config, cl: Cluster, evs: seq<Event>)
    requires Safe(cfg, cl)
    ensures Safe(cfg, Run(cfg, cl, evs))
    ensures forall s :: s in AllStored(cfg, cl, evs) ==> StatusOk(s)
    decreases |evs|
  {
    if evs != [] {
      StepOk(cfg, cl, evs[0]);
      if evs[0].Reconciling? && cl.app.Some? {
        ReconcileOk(cfg, cl, evs[0].ans);
      }
      RunOk(cfg, Step(cfg, cl, evs[0]), evs[1..]);
    }
  }

  // In every run: no two live Pods carry the same dump, whatever deletes fail and however the spec
  // is edited; phase Rest, like self-deletion, means that no Pod of the app is left.
  lemma EveryRunIsSafe(cfg: Config, name: string, spec: Spec, now: nat, evs: seq<Event>)
    ensures var cl := Run(cfg, Initial(name, spec, now), evs);
            && DistinctDumps(cl.pods)
            && (cl.app.None? || cl.app.value.status.phase == Rest ==> cl.pods == [])
            && (cl.app.Some? ==> StatusOk(cl.app.value.status))
    ensures forall s :: s in AllStored(cfg, Initial(name, spec, now), evs) ==> StatusOk(s)
  {
    RunOk(cfg, Initial(name, spec, now), evs);
  }

  // --- at most one live Pod -------------------------------------------------------------------

  ghost predicate OneLivePod(pods: seq<Pod>) {
    forall i, j :: 0 <= i < j < |pods| ==> pods[i].terminating || pods[j].terminating
  }

  ghost predicate DeletesSucceed(ev: Event) {
    ev.Reconciling? ==> ev.ans.undeletable == {}
  }

  lemma ShrunkOne(a: seq<Pod>, b: seq<Pod>)
    requires OneLivePod(a) && Shrunk(a, b)
    ensures OneLivePod(b)
  {
  }

  // With nothing to claim, every live Pod is recycled.
  lemma NothingClaimed(cfg: Config, pods: seq<Pod>, spec: Spec)
    requires Claimed(pods, spec).None?
    ensures forall p :: p in Delete(pods, OldNames(cfg, pods, spec), {}) ==> p.terminating
  {
    var next := Delete(pods, OldNames(cfg, pods, spec), {});
    forall i | 0 <= i < |next| ensures next[i].terminating {
      if !pods[i].terminating {
        assert pods[i] in pods && IsOld(cfg, pods, spec, pods[i]);
      }
    }
  }

  // When a reconcile that wants phase Live creates a Pod.
  predicate WouldCreate(pods: seq<Pod>, app: CliApp, ans: Answers) {
    && ans.list && app.spec.target == Live && Runnable(app.spec)
    && app.status.phase == Recovering && Claimed(pods, app.spec).None?
    && ans.create.NewPod? && ans.create.reply != Refused && ans.create.name != ""
    && ans.create.name !in Names(pods)
  }

  predicate Creates(cl: Cluster, ans: Answers)
    requires cl.app.Some?
  {
    ans.get && ValidateApp(cl.app.value.spec).None? && WouldCreate(cl.pods, cl.app.value, ans)
  }

  function Recycled(cfg: Config, cl: Cluster, ans: Answers): seq<Pod>
    requires cl.app.Some?
  {
    Delete(cl.pods, OldNames(cfg, cl.pods, cl.app.value.spec), ans.undeletable)
  }

  lemma DeleteNames(pods: seq<Pod>, doomed: set<string>, undeletable: set<string>)
    ensures Names(Delete(pods, doomed, undeletable)) == Names(pods)
  {
    var next := Delete(pods, doomed, undeletable);
    forall p | p in pods ensures p.name in Names(next) {
      var i :| 0 <= i < |pods| && pods[i] == p;
      assert next[i] in next && next[i].name == p.name;
    }
    forall p | p in next ensures p.name in Names(pods) {
      var i :| 0 <= i < |next| && next[i] == p;
      assert pods[i] in pods;
    }
  }

  lemma RecoveringPods(cfg: Config, w: Work, ans: Answers)
    requires w.mem.status.phase == Recovering && w.mem.spec.target == Live && Runnable(w.mem.spec)
    ensures var pods := ReconcileRecovering(cfg, w, ans).cl.pods;
            var kept := Claim(cfg, w, ans).cl.pods;
            if WouldCreate(w.cl.pods, w.mem, ans)
            then pods == Insert(kept, FreshPod(cfg, ans.create.name, w.mem.spec), ans.create.at)
            else pods == w.cl.pods || pods == kept
  {
    DeleteNames(w.cl.pods, OldNames(cfg, w.cl.pods, w.mem.spec), ans.undeletable);
  }

  lemma LivePods(cfg: Config, w: Work, ans: Answers)
    ensures var pods := MakeAppLive(cfg, w, ans).cl.pods;
            var kept := Claim(cfg, w, ans).cl.pods;
            if WouldCreate(w.cl.pods, w.mem, ans)
            then pods == Insert(kept, FreshPod(cfg, ans.create.name, w.mem.spec), ans.create.at)
            else pods == w.cl.pods || pods == kept
  {
    if w.mem.spec.target == Live && !NeedsBuild(w.mem) && w.mem.status.phase == Recovering {
      RecoveringPods(cfg, w, ans);
    }
  }

  lemma RestPods(cfg: Config, w: Work, ans: Answers)
    ensures var pods := MakeAppRest(cfg, w, ans).cl.pods;
            pods == w.cl.pods || pods == Drain(w, ans).cl.pods
  {
    match w.mem.status.phase
    case ShuttingDown => assert MakeAppRest(cfg, w, ans) == w.(fault := Panicked) || MakeAppRest(cfg, w, ans) == ReconcileShuttingDown(w, ans);
    case _ => assert MakeAppRest(cfg, w, ans).cl.pods == w.cl.pods;
  }

  lemma ConcludePods(w: Work, ans: Answers)
    ensures Conclude(w, ans).cl.pods == w.cl.pods
  {
  }

  // All a reconcile does to Pods: it deletes some, or it recycles and creates exactly one.
  lemma PodEffect(cfg: Config, cl: Cluster, ans: Answers)
    requires cl.app.Some?
    ensures var pods := Reconcile(cfg, cl, ans).cl.pods;
            if Creates(cl, ans)
            then pods == Insert(Recycled(cfg, cl, ans), FreshPod(cfg, ans.create.name, cl.app.value.spec), ans.create.at)
            else Shrunk(cl.pods, pods)
  {
    var app := cl.app.value;
    var w := Begin(cl, app);
    if ans.get {
      ConcludePods(Dispatch(cfg, w, ans), ans);
      if ValidateApp(app.spec).None? {
        if app.spec.target == Rest {
          RestPods(cfg, w, ans);
          DeleteShrinks(cl.pods, Names(Ready(cl.pods) + Starting(cl.pods)), ans.undeletable);
        } else {
          LivePods(cfg, w, ans);
          assert WouldCreate(cl.pods, w.mem, ans) == WouldCreate(cl.pods, app, ans);
          DeleteShrinks(cl.pods, OldNames(cfg, cl.pods, app.spec), ans.undeletable);
        }
      }
    }
  }

  lemma InsertOne(pods: seq<Pod>, p: Pod, at: nat)
    requires forall q :: q in pods ==> q.terminating
    ensures OneLivePod(Insert(pods, p, at))
  {
    var k := if at <= |pods| then at else |pods|;
    var next := Insert(pods, p, at);
    forall i | 0 <= i < |next| && i != k ensures next[i].terminating {
      assert next[i] == if i < k then pods[i] else pods[i - 1];
    }
  }

  // If deletes succeed there is never more than one live Pod in all.
  lemma OneLivePodKept(cfg: Config, cl: Cluster, ev: Event)
    requires OneLivePod(cl.pods) && DeletesSucceed(ev)
    ensures OneLivePod(Step(cfg, cl, ev).pods)
  {
    match ev
    case Reconciling(ans) =>
      if cl.app.Some? {
        PodEffect(cfg, cl, ans);
        if Creates(cl, ans) {
          NothingClaimed(cfg, cl.pods, cl.app.value.spec);
          InsertOne(Recycled(cfg, cl, ans), FreshPod(cfg, ans.create.name, cl.app.value.spec), ans.create.at);
        } else {
          ShrunkOne(cl.pods, Reconcile(cfg, cl, ans).cl.pods);
        }
      }
    case _ =>
  }

  lemma {:induction false} AtMostOneLivePod(cfg: Config, cl: Cluster, evs: seq<Event>)
    requires OneLivePod(cl.pods) && forall ev :: ev in evs ==> DeletesSucceed(ev)
    ensures OneLivePod(Run(cfg, cl, evs).pods)
    decreases |evs|
  {
    if evs != [] {
      OneLivePodKept(cfg, cl, evs[0]);
      AtMostOneLivePod(cfg, Step(cfg, cl, evs[0]), evs[1..]);
    }
  }
}
