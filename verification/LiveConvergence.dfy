/**
 With TargetPhase held at Live and matching Pods left alone, every fair endless run brings the app
 to phase Live on a ready Pod that carries the current spec, through an image build if need be, and
 keeps it there.
 */
module LiveConvergence {
  import opened Wrappers
  import opened CliApps
  import opened Reconciler
  import opened ReconcilerSafety
  import opened ReconcilerPhases
  import Descent
  import RestConvergence

  predicate WantsLive(cfg: Config, cl: Cluster) {
    && cl.app.Some?
    && ValidateApp(cl.app.value.spec).None? && cl.app.value.spec.target == Live
    && (Runnable(cl.app.value.spec) || cfg.hasBuilder)
  }

  ghost predicate HoldsTarget(cfg: Config, cl: Cluster) {
    Safe(cfg, cl) && WantsLive(cfg, cl)
  }

  // Nobody edits the spec; Pods that carry it do not become unready and are not taken away.
  predicate Gentle(cl: Cluster, ev: Event)
    requires cl.app.Some?
  {
    match ev
    case EditSpec(_) => false
    case SetReady(i, ready) => i < |cl.pods| && Matches(cl.pods[i], cl.app.value.spec) ==> ready
    case MarkTerminating(i) => i < |cl.pods| ==> !Matches(cl.pods[i], cl.app.value.spec)
    case Vanish(i) => i < |cl.pods| ==> !Matches(cl.pods[i], cl.app.value.spec)
    case _ => true
  }

  function Claim(cl: Cluster): Option<Pod>
    requires cl.app.Some?
  {
    Claimed(cl.pods, cl.app.value.spec)
  }

  // How far the app is from Live.
  function Distance(cl: Cluster): nat
    requires cl.app.Some?
  {
    var app := cl.app.value;
    if NeedsBuild(app) then 7
    else match app.status.phase
      case Building => if app.spec.image == "" then 6 else 5
      case Live => if ReadyClaim(cl).None? then 4 else if ReadyClaim(cl) == Some(app.status.podName) then 0 else 1
      case Recovering => if Claim(cl).None? then 3 else if Claim(cl).value.ready then 1 else 2
      case _ => 5
  }

  // Phase Live, on the ready Pod that carries the spec.
  predicate Final(cl: Cluster)
    requires cl.app.Some?
  {
    Distance(cl) == 0
  }

  lemma FinalMeansLive(cl: Cluster)
    requires cl.app.Some? && Final(cl)
    ensures cl.app.value.status.phase == Live
    ensures exists p :: p in cl.pods && p.ready && Matches(p, cl.app.value.spec) && p.name == cl.app.value.status.podName
  {
    ClaimedIsFirst(cl.pods, cl.app.value.spec);
  }

  // --- the claimed Pod ------------------------------------------------------------------------

  // At most one Pod matches, so it is the one claimed.
  lemma OnlyMatch(cfg: Config, pods: seq<Pod>, spec: Spec, k: nat)
    requires PodsOk(cfg, pods) && k < |pods| && Matches(pods[k], spec)
    ensures Claimed(pods, spec) == Some(pods[k])
  {
    ClaimedIsFirst(pods, spec);
    assert pods[k] in pods;
    var j :| 0 <= j < |pods| && pods[j] == Claimed(pods, spec).value && Matches(pods[j], spec);
    assert j == k;
  }

  lemma NoMatch(pods: seq<Pod>, spec: Spec)
    requires forall k :: 0 <= k < |pods| ==> !Matches(pods[k], spec)
    ensures Claimed(pods, spec).None?
  {
    ClaimedIsFirst(pods, spec);
  }

  lemma ClaimIndex(pods: seq<Pod>, spec: Spec) returns (k: nat)
    requires Claimed(pods, spec).Some?
    ensures k < |pods| && pods[k] == Claimed(pods, spec).value && Matches(pods[k], spec)
  {
    ClaimedIsFirst(pods, spec);
    k :| 0 <= k < |pods| && pods[k] == Claimed(pods, spec).value && Matches(pods[k], spec);
  }

  lemma NobodyMatches(pods: seq<Pod>, spec: Spec)
    requires Claimed(pods, spec).None?
    ensures forall k :: 0 <= k < |pods| ==> !Matches(pods[k], spec)
  {
    ClaimedIsFirst(pods, spec);
    forall k | 0 <= k < |pods| ensures !Matches(pods[k], spec) {
      assert pods[k] in pods;
    }
  }

  // A reconcile that creates no Pod leaves the claim as it is.
  lemma ClaimStable(cfg: Config, cl: Cluster, ans: Answers)
    requires HoldsTarget(cfg, cl) && !Creates(cl, ans)
    ensures Claimed(Reconcile(cfg, cl, ans).cl.pods, cl.app.value.spec) == Claim(cl)
  {
    var spec, next := cl.app.value.spec, Reconcile(cfg, cl, ans).cl.pods;
    PodEffect(cfg, cl, ans);
    ShrunkOk(cfg, cl.pods, next);
    if Claim(cl).Some? {
      var k := ClaimIndex(cl.pods, spec);
      ClaimSurvives(cfg, cl, ans, k);
      OnlyMatch(cfg, next, spec, k);
    } else {
      NobodyMatches(cl.pods, spec);
      NoMatch(next, spec);
    }
  }

  // A reconcile that creates a Pod can claim it next time.
  lemma CreatedIsClaimed(cfg: Config, cl: Cluster, ans: Answers)
    requires HoldsTarget(cfg, cl) && Creates(cl, ans)
    ensures Claimed(Reconcile(cfg, cl, ans).cl.pods, cl.app.value.spec) == Some(FreshPod(cfg, ans.create.name, cl.app.value.spec))
  {
    var spec, next := cl.app.value.spec, Reconcile(cfg, cl, ans).cl.pods;
    PodEffect(cfg, cl, ans);
    ReconcileOk(cfg, cl, ans);
    var kept := Recycled(cfg, cl, ans);
    var k := if ans.create.at <= |kept| then ans.create.at else |kept|;
    assert next[k] == FreshPod(cfg, ans.create.name, spec);
    OnlyMatch(cfg, next, spec, k);
  }

  // --- steps ----------------------------------------------------------------------------------

  lemma TargetKept(cfg: Config, cl: Cluster, ev: Event)
    requires HoldsTarget(cfg, cl) && Gentle(cl, ev)
    ensures HoldsTarget(cfg, Step(cfg, cl, ev))
  {
    StepOk(cfg, cl, ev);
    if ev.Reconciling? {
      ReconcileSpec(cfg, cl, ev.ans);
    }
  }

  // Phase Building is left for Recovering only with an image.
  lemma BuildingLeaves(cfg: Config, cl: Cluster, ans: Answers)
    requires HoldsTarget(cfg, cl) && cl.app.value.status.phase == Building
    ensures var next := Step(cfg, cl, Reconciling(ans));
            next.app.Some? && next.app.value.status.phase == Recovering ==> next.app.value.spec.image != ""
  {
  }

  lemma SpecSettled(cfg: Config, cl: Cluster, ans: Answers)
    requires HoldsTarget(cfg, cl)
    ensures var next := Step(cfg, cl, Reconciling(ans));
            && next.app.Some?
            && (next.app.value.spec != cl.app.value.spec ==>
                  cl.app.value.status.phase == Building && cl.app.value.spec.image == "" && next.app.value.spec.image != "")
  {
    ReconcileSpec(cfg, cl, ans);
  }

  lemma ReconcileNeverRises(cfg: Config, cl: Cluster, ans: Answers)
    requires HoldsTarget(cfg, cl)
    ensures Step(cfg, cl, Reconciling(ans)).app.Some?
    ensures Distance(Step(cfg, cl, Reconciling(ans))) <= Distance(cl)
  {
    PhaseGraph(cfg, cl, ans);
    SpecSettled(cfg, cl, ans);
    var next := Step(cfg, cl, Reconciling(ans));
    if cl.app.value.status.phase == Building {
      BuildingLeaves(cfg, cl, ans);
    } else if Creates(cl, ans) {
      CreatedIsClaimed(cfg, cl, ans);
    } else {
      ClaimStable(cfg, cl, ans);
    }
  }

  // Events of Pods that are gentle to matching ones.
  lemma PodsNeverRise(cfg: Config, cl: Cluster, ev: Event)
    requires HoldsTarget(cfg, cl) && Gentle(cl, ev) && !ev.Reconciling? && !ev.Tick?
    ensures var next := Step(cfg, cl, ev);
            && next.app == cl.app
            && (Claim(next) == Claim(cl)
                || (Claim(cl).Some? && Claim(next) == Some(Claim(cl).value.(ready := true))))
  {
    var spec, next := cl.app.value.spec, Step(cfg, cl, ev);
    StepOk(cfg, cl, ev);
    if ev.i < |cl.pods| {
      if Claim(cl).None? {
        NobodyMatches(cl.pods, spec);
        NoMatch(next.pods, spec);
      } else {
        var k := ClaimIndex(cl.pods, spec);
        OnlyMatch(cfg, next.pods, spec, if ev.Vanish? && ev.i < k then k - 1 else k);
      }
    }
  }

  lemma StepNeverRises(cfg: Config, cl: Cluster, ev: Event)
    requires HoldsTarget(cfg, cl) && Gentle(cl, ev)
    ensures Step(cfg, cl, ev).app.Some? && Distance(Step(cfg, cl, ev)) <= Distance(cl)
  {
    if ev.Reconciling? {
      ReconcileNeverRises(cfg, cl, ev.ans);
    } else if !ev.Tick? {
      PodsNeverRise(cfg, cl, ev);
    }
  }

  datatype Need = NeedNothing | NeedReady | NeedReconcile

  function NeedOf(cl: Cluster): Need
    requires cl.app.Some?
  {
    if Distance(cl) == 0 then NeedNothing else if Distance(cl) == 2 then NeedReady else NeedReconcile
  }

  // The API server answers as asked, the build is done, and a Pod can be created.
  predicate Good(cl: Cluster, ans: Answers) {
    && ans.get && ans.list && ans.write1 == Done && ans.specWrite == Done && ans.built
    && ans.create.NewPod? && ans.create.reply != Refused && ans.create.name != ""
    && ans.create.name !in Names(cl.pods)
  }

  ghost predicate Meets(cl: Cluster, need: Need, ev: Event)
    requires cl.app.Some?
  {
    match need
    case NeedNothing => false
    case NeedReady => ev.SetReady? && ev.ready && ev.i < |cl.pods| && Matches(cl.pods[ev.i], cl.app.value.spec)
    case NeedReconcile => ev.Reconciling? && Good(cl, ev.ans)
  }

  // The status that a work leaves in the store, with no fault to report.
  ghost predicate Stores(w: Work, phase: Phase, podName: Option<string>) {
    && w.fault == Fine && w.cl.app.Some? && w.cl.app.value.status.phase == phase
    && (podName.Some? ==> w.cl.app.value.status.podName == podName.value)
  }

  lemma GoodTransit(w: Work, phase: Phase)
    requires w.cl.app.Some? && (phase == Live ==> w.mem.status.podName != "" && Runnable(w.mem.spec))
    ensures Stores(Transit(w, phase, Done), phase, if phase == Rest then Some("") else Some(w.mem.status.podName))
  {
  }

  lemma GoodClaiming(cfg: Config, cl: Cluster, ans: Answers)
    requires HoldsTarget(cfg, cl) && Good(cl, ans) && !NeedsBuild(cl.app.value) && ReadyClaim(cl).Some?
    ensures var w := Begin(cl, cl.app.value);
            && (w.mem.status.phase == Live ==> Stores(ReconcileLive(cfg, w, ans), Live, ReadyClaim(cl)))
            && (w.mem.status.phase == Recovering ==> Stores(ReconcileRecovering(cfg, w, ans), Live, ReadyClaim(cl)))
  {
    var w := Begin(cl, cl.app.value);
    var k := ClaimIndex(cl.pods, cl.app.value.spec);
    assert MadeByStart(cfg, cl.pods[k]);
    if w.mem.status.phase == Recovering {
      GoodTransit(WithPodName(Reconciler.Claim(cfg, w, ans), ReadyClaim(cl).value), Live);
    }
  }

  lemma GoodWaiting(cfg: Config, cl: Cluster, ans: Answers)
    requires HoldsTarget(cfg, cl) && Good(cl, ans) && ReadyClaim(cl).None?
    ensures var w := Begin(cl, cl.app.value);
            && (w.mem.status.phase == Live ==> Stores(ReconcileLive(cfg, w, ans), Recovering, None))
            && (w.mem.status.phase == Recovering ==>
                  var w1 := ReconcileRecovering(cfg, w, ans);
                  w1.cl.app == cl.app && w1.fault != Panicked && w1.mem.status.phase == Recovering)
  {
    var w := Begin(cl, cl.app.value);
    GoodTransit(WithPodName(Reconciler.Claim(cfg, w, ans), ""), Recovering);
  }

  lemma GoodBuilding(cfg: Config, cl: Cluster, ans: Answers)
    requires HoldsTarget(cfg, cl) && Good(cl, ans) && cl.app.value.status.phase == Building
    ensures Stores(ReconcileBuilding(Begin(cl, cl.app.value), ans), Recovering, None)
  {
  }

  // With good answers a reconcile reaches its aim, and in phase Live names the claimed Pod.
  lemma GoodReconcile(cfg: Config, cl: Cluster, ans: Answers)
    requires HoldsTarget(cfg, cl) && Good(cl, ans)
    ensures var next := Step(cfg, cl, Reconciling(ans));
            && next.app.Some? && next.app.value.status.phase == Aim(cfg, cl)
            && (Aim(cfg, cl) == Live ==> Some(next.app.value.status.podName) == ReadyClaim(cl))
  {
    var w := Begin(cl, cl.app.value);
    var w1 := MakeAppLive(cfg, w, ans);
    assert Reconcile(cfg, cl, ans) == Conclude(w1, ans);
    if NeedsBuild(w.mem) {
      GoodTransit(w, Building);
    } else {
      match w.mem.status.phase
      case Building => GoodBuilding(cfg, cl, ans);
      case Live =>
        if ReadyClaim(cl).Some? {
          GoodClaiming(cfg, cl, ans);
        } else {
          GoodWaiting(cfg, cl, ans);
        }
      case Recovering =>
        if ReadyClaim(cl).Some? {
          GoodClaiming(cfg, cl, ans);
        } else {
          GoodWaiting(cfg, cl, ans);
        }
      case _ => GoodTransit(w, Recovering);
    }
  }

  lemma NeededStepFalls(cfg: Config, cl: Cluster, ev: Event)
    requires HoldsTarget(cfg, cl) && Gentle(cl, ev) && Meets(cl, NeedOf(cl), ev)
    ensures Step(cfg, cl, ev).app.Some? && Distance(Step(cfg, cl, ev)) < Distance(cl)
  {
    match ev
    case SetReady(i, _) =>
      OnlyMatch(cfg, cl.pods, cl.app.value.spec, i);
      StepOk(cfg, cl, ev);
      OnlyMatch(cfg, Step(cfg, cl, ev).pods, cl.app.value.spec, i);
    case Reconciling(ans) =>
      GoodReconcile(cfg, cl, ans);
      ReconcileNeverRises(cfg, cl, ans);
      SpecSettled(cfg, cl, ans);
      if cl.app.value.status.phase == Building {
        BuildingLeaves(cfg, cl, ans);
      } else if Creates(cl, ans) {
        CreatedIsClaimed(cfg, cl, ans);
      } else {
        ClaimStable(cfg, cl, ans);
      }
    case _ =>
  }

  // --- being called again ---------------------------------------------------------------------

  // No live Pod but the claimed one can be deleted, so recycling changes nothing.
  predicate NothingRecycled(cl: Cluster, ans: Answers)
    requires cl.app.Some?
  {
    forall p :: p in cl.pods && !p.terminating && Some(p) != Claim(cl) ==> p.name in ans.undeletable
  }

  predicate CannotCreate(cl: Cluster, ans: Answers) {
    ans.create.NoPod? || ans.create.reply == Refused || ans.create.name == "" || ans.create.name in Names(cl.pods)
  }

  // When a reconcile leaves the app short of phase Live, and not waiting for a Pod to become ready,
  // with nothing to bring it back.
  predicate Stalls(cl: Cluster, ans: Answers)
    requires cl.app.Some?
  {
    var app := cl.app.value;
    && ans.get
    && if NeedsBuild(app) then BothRefused(ans) else
       match app.status.phase
       case Building => app.spec.image != "" && BothRefused(ans)
       case Live =>
         && ReadyClaim(cl) != Some(app.status.podName)
         && if ans.list then BothRefused(ans) && NothingRecycled(cl, ans) else ErrorStays(cl, ans, CANNOT_FETCH)
       case Recovering =>
         && (Claim(cl).Some? ==> Claim(cl).value.ready)
         && (if !ans.list then ErrorStays(cl, ans, CANNOT_FETCH)
             else && NothingRecycled(cl, ans)
                  && if Claim(cl).Some? then BothRefused(ans)
                     else CannotCreate(cl, ans) && ErrorStays(cl, ans, CANNOT_CREATE))
       case _ => false
  }

  lemma RecycledIff(cfg: Config, cl: Cluster, ans: Answers)
    requires HoldsTarget(cfg, cl)
    ensures Reconciler.Claim(cfg, Begin(cl, cl.app.value), ans).cl.pods == cl.pods <==> NothingRecycled(cl, ans)
  {
    var spec := cl.app.value.spec;
    if Claim(cl).Some? {
      ClaimedHasHash(cfg, cl.pods, spec);
    }
    ClaimRefines(cfg, cl.pods, spec, ans.undeletable);
    var kept := Keep(cl.pods, Claim(cl), ans.undeletable);
    if kept == cl.pods {
      forall p | p in cl.pods && !p.terminating && Some(p) != Claim(cl) ensures p.name in ans.undeletable {
        var i :| 0 <= i < |cl.pods| && cl.pods[i] == p;
        assert kept[i] == p;
      }
    }
    if NothingRecycled(cl, ans) {
      forall i | 0 <= i < |cl.pods| ensures kept[i] == cl.pods[i] {
        assert cl.pods[i] in cl.pods;
      }
    }
  }

  // What a concluded work w1 of a reconcile of cl has to be for the app to stall.
  ghost predicate Stuck(cl: Cluster, w1: Work, ans: Answers) {
    Conclude(w1, ans).cl == cl && !Conclude(w1, ans).result.requeue && Conclude(w1, ans).result.after <= 0
  }

  lemma LiveStalls(cfg: Config, cl: Cluster, ans: Answers)
    requires HoldsTarget(cfg, cl) && !NeedsBuild(cl.app.value) && cl.app.value.status.phase == Live && ans.get
    ensures var w1 := ReconcileLive(cfg, Begin(cl, cl.app.value), ans);
            Stuck(cl, w1, ans) && Distance(cl) != 0 <==> Stalls(cl, ans)
  {
    var w := Begin(cl, cl.app.value);
    var kept := Reconciler.Claim(cfg, w, ans);
    RecycledIff(cfg, cl, ans);
    if !ans.list {
      ConcludeChanges(ReconcileLive(cfg, w, ans), ans);
    } else if ReadyClaim(cl).None? {
      TransitChanges(WithPodName(kept, ""), Recovering, ans);
    } else if ReadyClaim(cl) != Some(w.mem.status.podName) && ans.write1 != Done {
      ConcludeChanges(ReconcileLive(cfg, w, ans), ans);
    }
  }

  lemma RecoveringStalls(cfg: Config, cl: Cluster, ans: Answers)
    requires HoldsTarget(cfg, cl) && !NeedsBuild(cl.app.value) && cl.app.value.status.phase == Recovering && ans.get
    ensures var w1 := ReconcileRecovering(cfg, Begin(cl, cl.app.value), ans);
            Stuck(cl, w1, ans) && Distance(cl) != 2 <==> Stalls(cl, ans)
  {
    var w := Begin(cl, cl.app.value);
    var kept := Reconciler.Claim(cfg, w, ans);
    RecycledIff(cfg, cl, ans);
    DeleteNames(cl.pods, OldNames(cfg, cl.pods, w.mem.spec), ans.undeletable);
    var w1 := ReconcileRecovering(cfg, w, ans);
    if !ans.list {
      ConcludeChanges(w1, ans);
    } else if Claim(cl).None? {
      if CannotCreate(cl, ans) {
        ConcludeChanges(w1, ans);
      } else {
        assert |w1.cl.pods| > |cl.pods|;
        ConcludePods(w1, ans);
      }
    } else if Claim(cl).value.ready {
      ClaimedHasName(cfg, cl);
      TransitChanges(WithPodName(kept, Claim(cl).value.name), Live, ans);
    }
  }

  lemma ClaimedHasName(cfg: Config, cl: Cluster)
    requires HoldsTarget(cfg, cl) && Claim(cl).Some?
    ensures Claim(cl).value.name != ""
  {
    var k := ClaimIndex(cl.pods, cl.app.value.spec);
    assert MadeByStart(cfg, cl.pods[k]);
  }

  // The phases that claim no Pod.
  lemma OthersStall(cfg: Config, cl: Cluster, ans: Answers)
    requires HoldsTarget(cfg, cl) && ans.get
    requires NeedsBuild(cl.app.value) || cl.app.value.status.phase !in {Live, Recovering}
    ensures Stuck(cl, MakeAppLive(cfg, Begin(cl, cl.app.value), ans), ans) <==> Stalls(cl, ans)
  {
    var w := Begin(cl, cl.app.value);
    if NeedsBuild(w.mem) {
      TransitChanges(w, Building, ans);
    } else if w.mem.status.phase == Building {
      if w.mem.spec.image != "" {
        TransitChanges(w, Recovering, ans);
      } else {
        BuildingMoves(w, ans);
      }
    }
  }

  // Without an image phase Building asks to be called again or has stored one.
  lemma BuildingMoves(w: Work, ans: Answers)
    requires w.cl.app.Some? && w.cl.app.value.spec == w.mem.spec && w.mem.spec.image == ""
    ensures var w2 := Conclude(ReconcileBuilding(w, ans), ans);
            w2.result.after > 0 || (w2.cl.app.Some? && w2.cl.app.value.spec != w.mem.spec)
  {
  }

  // With any answers a reconcile under target Live is followed by another one, or has reached phase
  // Live, or waits for a Pod to become ready, or stalls; it stalls exactly then.
  lemma NoLostWakeUp(cfg: Config, cl: Cluster, ans: Answers)
    requires HoldsTarget(cfg, cl)
    ensures var w := Reconcile(cfg, cl, ans);
            && w.cl.app.Some?
            && (Distance(w.cl) !in {0, 2} && !ComesBack(cl, w) <==> Stalls(cl, ans))
  {
    SpecSettled(cfg, cl, ans);
    if ans.get {
      var w := Begin(cl, cl.app.value);
      assert Reconcile(cfg, cl, ans) == Conclude(MakeAppLive(cfg, w, ans), ans);
      if NeedsBuild(w.mem) || w.mem.status.phase !in {Live, Recovering} {
        OthersStall(cfg, cl, ans);
      } else if w.mem.status.phase == Live {
        LiveStalls(cfg, cl, ans);
      } else {
        RecoveringStalls(cfg, cl, ans);
      }
    }
  }

  function RecoveringApp(error: string): Cluster {
    Cluster(Some(CliApp("app", AN_APP.(target := Live), Status(Recovering, 0, "", error))), [], 0)
  }

  // Creating the Pod fails twice: the first failure stores its error, the second changes nothing, so
  // the app stalls in Recovering though every write succeeds.
  lemma SecondFailureStalls(cfg: Config)
    ensures var cl, stuck := RecoveringApp(""), RecoveringApp(CANNOT_CREATE);
            && HoldsTarget(cfg, cl) && Distance(stuck) == 3
            && Reconcile(cfg, cl, NO_POD).cl == stuck && ComesBack(cl, Reconcile(cfg, cl, NO_POD))
            && Reconcile(cfg, stuck, NO_POD).cl == stuck && !ComesBack(stuck, Reconcile(cfg, stuck, NO_POD))
  {
    NoPodCreated(cfg, RecoveringApp(""));
    NoPodCreated(cfg, RecoveringApp(CANNOT_CREATE));
  }

  lemma NoPodCreated(cfg: Config, cl: Cluster)
    requires HoldsTarget(cfg, cl) && !NeedsBuild(cl.app.value) && cl.app.value.status.phase == Recovering
    requires cl.pods == []
    ensures var w := Reconcile(cfg, cl, NO_POD);
            && w.result == Result(false, 0)
            && w.cl == cl.(app := Some(WithStatus(cl.app.value, cl.app.value.status.(error := CANNOT_CREATE))))
  {
  }

  // --- endless runs ---------------------------------------------------------------------------

  ghost predicate GentleAt(cfg: Config, cl: Cluster, run: nat -> Event, n: nat) {
    At(cfg, cl, run, n).app.Some? ==> Gentle(At(cfg, cl, run, n), run(n))
  }

  ghost predicate AllGentle(cfg: Config, cl: Cluster, run: nat -> Event) {
    forall n: nat :: GentleAt(cfg, cl, run, n)
  }

  lemma {:induction false} TargetHeld(cfg: Config, cl: Cluster, run: nat -> Event, n: nat)
    requires HoldsTarget(cfg, cl) && AllGentle(cfg, cl, run)
    ensures HoldsTarget(cfg, At(cfg, cl, run, n)) && Gentle(At(cfg, cl, run, n), run(n))
  {
    assert GentleAt(cfg, cl, run, n);
    if n > 0 {
      TargetHeld(cfg, cl, run, n - 1);
      TargetKept(cfg, At(cfg, cl, run, n - 1), run(n - 1));
    }
  }

  ghost function MeasureAt(cfg: Config, cl: Cluster, run: nat -> Event): nat -> nat {
    (n: nat) => var c := At(cfg, cl, run, n); if c.app.Some? then Distance(c) else 0
  }

  ghost function NeedAt(cfg: Config, cl: Cluster, run: nat -> Event): nat -> Need {
    (n: nat) => var c := At(cfg, cl, run, n); if c.app.Some? then NeedOf(c) else NeedNothing
  }

  ghost function MeetsAt(cfg: Config, cl: Cluster, run: nat -> Event): (nat, Need) -> bool {
    (m: nat, need: Need) => var c := At(cfg, cl, run, m); c.app.Some? && Meets(c, need, run(m))
  }

  ghost predicate FairAt(cfg: Config, cl: Cluster, run: nat -> Event, n: nat) {
    && Descent.MetAfter(MeetsAt(cfg, cl, run), n, NeedReconcile)
    && (NeedAt(cfg, cl, run)(n) == NeedReady ==> Descent.MetAfter(MeetsAt(cfg, cl, run), n, NeedReady))
  }

  // Reconciles that succeed never stop coming, and a Pod that is waited for becomes ready some day.
  ghost predicate Fair(cfg: Config, cl: Cluster, run: nat -> Event) {
    forall n: nat :: FairAt(cfg, cl, run, n)
  }

  lemma OneMore(cfg: Config, cl: Cluster, run: nat -> Event, n: nat)
    requires HoldsTarget(cfg, At(cfg, cl, run, n)) && Gentle(At(cfg, cl, run, n), run(n))
    ensures var a, b := At(cfg, cl, run, n), At(cfg, cl, run, n + 1);
            && b.app.Some? && Distance(b) <= Distance(a)
            && (Meets(a, NeedOf(a), run(n)) ==> Distance(b) < Distance(a))
  {
    var a := At(cfg, cl, run, n);
    StepNeverRises(cfg, a, run(n));
    if Meets(a, NeedOf(a), run(n)) {
      NeededStepFalls(cfg, a, run(n));
    }
  }

  lemma Descends(cfg: Config, cl: Cluster, run: nat -> Event, n: nat)
    requires HoldsTarget(cfg, cl) && AllGentle(cfg, cl, run)
    ensures Descent.Falls(MeasureAt(cfg, cl, run), NeedAt(cfg, cl, run), MeetsAt(cfg, cl, run), n)
  {
    TargetHeld(cfg, cl, run, n);
    OneMore(cfg, cl, run, n);
  }

  ghost predicate LiveAt(cfg: Config, cl: Cluster, run: nat -> Event, n: nat) {
    At(cfg, cl, run, n).app.Some? && Final(At(cfg, cl, run, n))
  }

  // Every fair and gentle run with the target held at Live reaches phase Live on a ready Pod that
  // carries the current spec.
  lemma ReachesLive(cfg: Config, cl: Cluster, run: nat -> Event) returns (m: nat)
    requires HoldsTarget(cfg, cl) && AllGentle(cfg, cl, run) && Fair(cfg, cl, run)
    ensures LiveAt(cfg, cl, run, m)
  {
    var measure, need, meets := MeasureAt(cfg, cl, run), NeedAt(cfg, cl, run), MeetsAt(cfg, cl, run);
    forall n: nat | need(n) != NeedNothing ensures Descent.Falls(measure, need, meets, n) {
      Descends(cfg, cl, run, n);
    }
    forall n: nat | need(n) != NeedNothing ensures Descent.MetAfter(meets, n, need(n)) {
      assert FairAt(cfg, cl, run, n);
    }
    m := Descent.ReachesDone(measure, need, meets, NeedNothing, 0);
    TargetHeld(cfg, cl, run, m);
  }

  lemma StaysOnce(cfg: Config, cl: Cluster, run: nat -> Event, n: nat)
    requires HoldsTarget(cfg, cl) && AllGentle(cfg, cl, run) && LiveAt(cfg, cl, run, n)
    ensures LiveAt(cfg, cl, run, n + 1)
  {
    TargetHeld(cfg, cl, run, n);
    OneMore(cfg, cl, run, n);
  }

  // And it stays there.
  lemma {:induction false} StaysLive(cfg: Config, cl: Cluster, run: nat -> Event, n: nat, m: nat)
    requires HoldsTarget(cfg, cl) && AllGentle(cfg, cl, run) && n <= m && LiveAt(cfg, cl, run, n)
    ensures LiveAt(cfg, cl, run, m)
    decreases m - n
  {
    if n < m {
      StaysOnce(cfg, cl, run, n);
      StaysLive(cfg, cl, run, n + 1, m);
    }
  }
}
