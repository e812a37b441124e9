/**
 The outcome of a reconcile as one decision table: what it stores, what becomes of spec, Pods and app,
 and when it asks to be called again. The table knows no order of calls and no copy in memory; that
 the reconcile is the table, for any answers, is the main result here.
 */
module Outcomes {
  import opened Wrappers
  import opened CliApps
  import opened Reconciler
  import opened ReconcilerSafety
  import opened ReconcilerPhases
  import RestConvergence
  import LiveConvergence

  // --- the table ------------------------------------------------------------------------------

  predicate Valid(app: CliApp) { ValidateApp(app.spec).None? }

  // The phases that look at Pods.
  predicate Claims(app: CliApp) {
    Valid(app) && app.spec.target == Live && !NeedsBuild(app) && app.status.phase in {Live, Recovering}
  }

  predicate Drains(app: CliApp) {
    Valid(app) && app.spec.target == Rest && app.status.phase == ShuttingDown
  }

  // Phase Building with a finished build whose image is not in the spec yet.
  predicate FillsImage(app: CliApp, ans: Answers) {
    && Valid(app) && app.spec.target == Live && app.status.phase == Building
    && app.spec.image == "" && ans.built
  }

  // No call before the first status write fails or waits.
  predicate ReachesWrite(app: CliApp, ans: Answers) {
    && ans.get
    && (Claims(app) || Drains(app) ==> ans.list)
    && (app.spec.target == Live && app.status.phase == Building && app.spec.image == "" ==>
          ans.built && ans.specWrite == Done)
  }

  // The status to store, but for its error: on an edge of the phase graph, or renaming the Pod.
  function Wanted(cfg: Config, cl: Cluster, ans: Answers): Option<Status>
    requires cl.app.Some?
  {
    var app, aim, claim := cl.app.value, Aim(cfg, cl), ReadyClaim(cl);
    var o := app.status;
    if !ReachesWrite(app, ans) then None
    else if aim != o.phase then Some(Status(aim, Truncate(cl.now), NameAfter(o, aim, claim), o.error))
    else if Claims(app) && o.phase == Live && claim.Some? && claim.value != o.podName then Some(o.(podName := claim.value))
    else None
  }

  // The Pod deleted last in a drain: the last one that is not ready, else the last ready one.
  function LastDrained(pods: seq<Pod>): Option<Pod> {
    if AnyTerminating(pods) then None
    else if Starting(pods) != [] then Some(Starting(pods)[|Starting(pods)| - 1])
    else if Ready(pods) != [] then Some(Ready(pods)[|Ready(pods)| - 1])
    else None
  }

  // The text of the call that fails where no status is to be stored.
  function Complaint(cfg: Config, cl: Cluster, ans: Answers): Option<string>
    requires cl.app.Some?
  {
    var app := cl.app.value;
    var last := LastDrained(cl.pods);
    if !ans.get then None
    else if !Valid(app) then ValidateApp(app.spec)
    else if app.spec.target == Live && NeedsBuild(app) && !cfg.hasBuilder then
      Some("unable to build image since no image builder installed")
    else if Claims(app) && !ans.list then Some(CANNOT_FETCH)
    else if Drains(app) && !ans.list then Some(CANNOT_LIST)
    else if FillsImage(app, ans) && ans.specWrite != Done then Some(CANNOT_UPDATE)
    else if Uninstalls(cl) && ans.appDelete != Done then Some(CANNOT_DELETE_APP)
    else if Drains(app) && last.Some? && last.value.name in ans.undeletable then Some(CANNOT_DELETE_POD)
    else if Claims(app) && app.status.phase == Recovering && Claimed(cl.pods, app.spec).None?
            && (LiveConvergence.CannotCreate(cl, ans) || ans.create.reply == Lost) then Some(CANNOT_CREATE)
    else None
  }

  predicate DeletesApp(cl: Cluster, ans: Answers)
    requires cl.app.Some?
  {
    ans.get && Uninstalls(cl) && ans.list && ans.appDelete != Refused
  }

  // The error a first write carries: none, but for the step that fills in an image, whose copy is
  // replaced by the stored one.
  function FirstError(app: CliApp, ans: Answers): string {
    if FillsImage(app, ans) then app.status.error else ""
  }

  // A first write, unless refused; and the same status with an error, unless the first was done.
  function TwoWrites(s: Status, ans: Answers): seq<Status> {
    (if ans.write1 == Refused then [] else [s])
    + (if ans.write1 == Done || ans.write2 == Refused then [] else [s.(error := CANNOT_UPDATE)])
  }

  // Every status stored, in order.
  function Stores(cfg: Config, cl: Cluster, ans: Answers): seq<Status>
    requires cl.app.Some?
  {
    var app, complaint := cl.app.value, Complaint(cfg, cl, ans);
    match Wanted(cfg, cl, ans)
    case Some(s) => TwoWrites(s.(error := FirstError(app, ans)), ans)
    case None =>
      if complaint.None? || ans.write2 == Refused || DeletesApp(cl, ans) then []
      else [app.status.(error := complaint.value)]
  }

  function Last(o: Status, stored: seq<Status>): Status {
    if stored == [] then o else stored[|stored| - 1]
  }

  function AppAfter(cfg: Config, cl: Cluster, ans: Answers): Option<CliApp>
    requires cl.app.Some?
  {
    var app := cl.app.value;
    var spec := if ans.get && FillsImage(app, ans) && ans.specWrite != Refused
                then app.spec.(image := "docker.io/warmmetal/" + app.name + ":v1") else app.spec;
    if DeletesApp(cl, ans) then None
    else Some(CliApp(app.name, spec, Last(app.status, Stores(cfg, cl, ans))))
  }

  function PodsAfter(cfg: Config, cl: Cluster, ans: Answers): seq<Pod>
    requires cl.app.Some?
  {
    var app := cl.app.value;
    var kept := Keep(cl.pods, Claimed(cl.pods, app.spec), ans.undeletable);
    if !ans.get || !ans.list then cl.pods
    else if Claims(app) then
      if Creates(cl, ans)
      then Insert(kept, Pod(ans.create.name, Some(cfg.hash(app.spec)), Some(app.spec), false, false), ans.create.at)
      else kept
    else if Drains(app) && !AnyTerminating(cl.pods) then Keep(cl.pods, None, ans.undeletable)
    else cl.pods
  }

  const AT_ONCE := Result(true, 0)
  const IN_5_SECONDS := Result(false, 5_000_000_000)
  const NOT_AGAIN := Result(false, 0)

  function ResultAfter(cfg: Config, cl: Cluster, ans: Answers): Result
    requires cl.app.Some?
  {
    var app := cl.app.value;
    var o := app.status;
    if !ans.get then AT_ONCE
    else if !Valid(app) then NOT_AGAIN
    else if app.spec.target == Rest then
      match o.phase
      case Live => if app.spec.uninstall then AT_ONCE else Result(true, cfg.idle)
      case WaitingForSessions =>
        if Expired(cfg, cl) then AT_ONCE else Result(false, o.lastTransition + cfg.idle - cl.now)
      case ShuttingDown => if ans.list && cl.pods != [] then IN_5_SECONDS else NOT_AGAIN
      case Building => if ans.write1 == Done then AT_ONCE else NOT_AGAIN
      case Rest => NOT_AGAIN
      case _ => AT_ONCE
    else if NeedsBuild(app) then (if cfg.hasBuilder && ans.write1 == Done then IN_5_SECONDS else NOT_AGAIN)
    else match o.phase
      case Building =>
        if app.spec.image == "" && !(ans.built && ans.specWrite == Done) then IN_5_SECONDS
        else if ans.write1 == Done then AT_ONCE else NOT_AGAIN
      case Live => NOT_AGAIN
      case Recovering => NOT_AGAIN
      case _ => AT_ONCE
  }

  // --- the two writes -------------------------------------------------------------------------

  ghost predicate Ends(w: Work, cfg: Config, cl: Cluster, ans: Answers)
    requires cl.app.Some?
  {
    && w.cl == Cluster(AppAfter(cfg, cl, ans), PodsAfter(cfg, cl, ans), cl.now)
    && w.stored == Stores(cfg, cl, ans) && w.result == ResultAfter(cfg, cl, ans) && w.fault == Fine
  }

  lemma ConcludeWrites(w: Work, ans: Answers)
    requires w.cl.app.Some? && w.stored == []
    ensures var s := w.mem.status.(lastTransition := Truncate(w.mem.status.lastTransition));
            var w1 := Conclude(WriteStatus(w, ans.write1), ans);
            && w1.stored == TwoWrites(s, ans)
            && w1.cl == w.cl.(app := Some(WithStatus(w.cl.app.value, Last(w.cl.app.value.status, TwoWrites(s, ans)))))
            && w1.result == w.result && w1.fault == Fine
            && (WriteStatus(w, ans.write1).fault == Fine <==> ans.write1 == Done)
  {
  }

  lemma ConcludeTransit(w: Work, phase: Phase, ans: Answers)
    requires w.cl.app.Some? && w.stored == []
    requires phase == Live ==> w.mem.status.podName != "" && Runnable(w.mem.spec)
    ensures var s := Status(phase, Truncate(w.cl.now), if phase == Rest then "" else w.mem.status.podName, w.mem.status.error);
            var w1 := Conclude(Transit(w, phase, ans.write1), ans);
            && w1.stored == TwoWrites(s, ans)
            && w1.cl == w.cl.(app := Some(WithStatus(w.cl.app.value, Last(w.cl.app.value.status, TwoWrites(s, ans)))))
            && w1.result == w.result && w1.fault == Fine
            && (Transit(w, phase, ans.write1).fault == Fine <==> ans.write1 == Done)
            && Transit(w, phase, ans.write1).fault != Panicked
  {
    var s := w.mem.status.(phase := phase, lastTransition := w.cl.now);
    var s1 := if phase == Rest then s.(podName := "") else s;
    ConcludeWrites(w.(mem := WithStatus(w.mem, s1)), ans);
  }

  // The requeue answer does not matter to the deferred write.
  lemma ConcludeResult(w: Work, ans: Answers, r: Result)
    ensures Conclude(w.(result := r), ans) == Conclude(w, ans).(result := r)
  {
  }

  lemma ConcludeComplaint(w: Work, ans: Answers)
    requires w.fault.Failed? && w.stored == []
    ensures var s := w.mem.status.(error := w.fault.message, lastTransition := Truncate(w.mem.status.lastTransition));
            var w1 := Conclude(w, ans);
            && w1.result == w.result && w1.fault == Fine
            && (if w.cl.app.None? || ans.write2 == Refused then w1.stored == [] && w1.cl == w.cl
                else w1.stored == [s] && w1.cl == w.cl.(app := Some(WithStatus(w.cl.app.value, s))))
  {
  }

  // --- target Rest ----------------------------------------------------------------------------

  // The stored time is on the second, as every stored time is.
  predicate AtSecond(cl: Cluster) {
    cl.app.Some? && OnSecond(cl.app.value.status.lastTransition)
  }

  lemma DrainKeepsNone(pods: seq<Pod>, undeletable: set<string>)
    requires DistinctNames(pods)
    ensures Delete(pods, Names(Ready(pods) + Starting(pods)), undeletable) == Keep(pods, None, undeletable)
  {
    var targets := Ready(pods) + Starting(pods);
    forall i | 0 <= i < |pods| ensures pods[i].name in Names(targets) <==> !pods[i].terminating {
      assert pods[i] in pods;
      if !pods[i].terminating {
        RestConvergence.DrainTargets(pods, pods[i]);
      } else if pods[i].name in Names(targets) {
        var q :| q in targets && q.name == pods[i].name;
        SelectHas(pods, IsReady, q);
        SelectHas(pods, IsStarting, q);
        NamedOnce(pods, q, pods[i]);
      }
    }
  }

  lemma DrainEnds(cfg: Config, cl: Cluster, ans: Answers)
    requires AtSecond(cl) && Drains(cl.app.value) && ans.get && ans.list && cl.pods != []
    requires Delete(cl.pods, Names(Ready(cl.pods) + Starting(cl.pods)), ans.undeletable) == Keep(cl.pods, None, ans.undeletable)
    ensures Ends(Conclude(ReconcileShuttingDown(Begin(cl, cl.app.value), ans), ans), cfg, cl, ans)
  {
    var w := Begin(cl, cl.app.value);
    var w1 := ReconcileShuttingDown(w, ans);
    if !AnyTerminating(cl.pods) {
      assert cl.pods[0] in cl.pods;
      RestConvergence.DrainTargets(cl.pods, cl.pods[0]);
      var targets := Ready(cl.pods) + Starting(cl.pods);
      assert LastDrained(cl.pods) == Some(targets[|targets| - 1]);
    }
    if w1.fault.Failed? {
      ConcludeComplaint(w1, ans);
    }
  }

  lemma NoPodsDrained(pods: seq<Pod>)
    requires pods == []
    ensures LastDrained(pods).None? && Keep(pods, None, {}) == []
  {
  }

  lemma ShuttingDownEnds(cfg: Config, cl: Cluster, ans: Answers)
    requires AtSecond(cl) && Drains(cl.app.value) && ans.get && DistinctNames(cl.pods)
    ensures Ends(Conclude(ReconcileShuttingDown(Begin(cl, cl.app.value), ans), ans), cfg, cl, ans)
  {
    var w := Begin(cl, cl.app.value);
    if !ans.list {
      ConcludeComplaint(ReconcileShuttingDown(w, ans), ans);
    } else if cl.pods != [] {
      DrainKeepsNone(cl.pods, ans.undeletable);
      DrainEnds(cfg, cl, ans);
    } else {
      NoPodsDrained(cl.pods);
      if !cl.app.value.spec.uninstall {
        ConcludeTransit(w, Rest, ans);
      } else if ans.appDelete != Done {
        ConcludeComplaint(DeleteApp(w, ans.appDelete), ans);
      }
    }
  }

  lemma ClosedEnds(cfg: Config, cl: Cluster, ans: Answers)
    requires AtSecond(cl) && Valid(cl.app.value) && cl.app.value.spec.target == Rest && ans.get
    requires cl.app.value.status.phase == Live
    ensures Ends(Conclude(MakeAppRest(cfg, Begin(cl, cl.app.value), ans), ans), cfg, cl, ans)
  {
    var w := Begin(cl, cl.app.value);
    if w.mem.spec.uninstall {
      ConcludeTransit(WithPodName(w.(result := AT_ONCE), ""), ShuttingDown, ans);
    } else {
      ConcludeTransit(w.(result := Result(true, cfg.idle)), WaitingForSessions, ans);
    }
  }

  lemma IdleEnds(cfg: Config, cl: Cluster, ans: Answers)
    requires AtSecond(cl) && Valid(cl.app.value) && cl.app.value.spec.target == Rest && ans.get
    requires cl.app.value.status.phase == WaitingForSessions
    ensures Ends(Conclude(MakeAppRest(cfg, Begin(cl, cl.app.value), ans), ans), cfg, cl, ans)
  {
    var w := Begin(cl, cl.app.value);
    if Expired(cfg, cl) {
      ConcludeTransit(w, ShuttingDown, ans);
      ConcludeResult(Transit(w, ShuttingDown, ans.write1), ans, AT_ONCE);
    }
  }

  lemma UnusedEnds(cfg: Config, cl: Cluster, ans: Answers)
    requires AtSecond(cl) && Valid(cl.app.value) && cl.app.value.spec.target == Rest && ans.get
    requires cl.app.value.status.phase in {Unset, Recovering, Building}
    ensures Ends(Conclude(MakeAppRest(cfg, Begin(cl, cl.app.value), ans), ans), cfg, cl, ans)
  {
    var w := Begin(cl, cl.app.value);
    ConcludeTransit(w, ShuttingDown, ans);
    if cl.app.value.status.phase == Building {
      ConcludeResult(Transit(w, ShuttingDown, ans.write1), ans, if ans.write1 == Done then AT_ONCE else NOT_AGAIN);
    } else {
      ConcludeResult(Transit(w, ShuttingDown, ans.write1), ans, AT_ONCE);
    }
  }

  // --- target Live ----------------------------------------------------------------------------

  // Claiming, as Safe has it: it keeps the claim, which has a name.
  predicate ClaimsWell(cfg: Config, cl: Cluster, ans: Answers)
    requires cl.app.Some?
  {
    var pods, spec := cl.pods, cl.app.value.spec;
    && Recycled(cfg, cl, ans) == Keep(pods, Claimed(pods, spec), ans.undeletable)
    && Names(Recycled(cfg, cl, ans)) == Names(pods)
    && (Claimed(pods, spec).Some? ==> Claimed(pods, spec).value.name != "")
  }

  lemma ClaimKeeps(cfg: Config, cl: Cluster, ans: Answers)
    requires Safe(cfg, cl) && cl.app.Some?
    ensures ClaimsWell(cfg, cl, ans)
  {
    if Claimed(cl.pods, cl.app.value.spec).Some? {
      ClaimedHasHash(cfg, cl.pods, cl.app.value.spec);
      var k := LiveConvergence.ClaimIndex(cl.pods, cl.app.value.spec);
      assert MadeByStart(cfg, cl.pods[k]);
    }
    ClaimRefines(cfg, cl.pods, cl.app.value.spec, ans.undeletable);
    DeleteNames(cl.pods, OldNames(cfg, cl.pods, cl.app.value.spec), ans.undeletable);
  }

  lemma UnlistedLiveEnds(cfg: Config, cl: Cluster, ans: Answers)
    requires AtSecond(cl) && Claims(cl.app.value) && cl.app.value.status.phase == Live && ans.get
    requires !ans.list
    ensures Ends(Conclude(ReconcileLive(cfg, Begin(cl, cl.app.value), ans), ans), cfg, cl, ans)
  {
    ConcludeComplaint(ReconcileLive(cfg, Begin(cl, cl.app.value), ans), ans);
  }

  lemma LostPodEnds(cfg: Config, cl: Cluster, ans: Answers)
    requires AtSecond(cl) && Claims(cl.app.value) && cl.app.value.status.phase == Live && ans.get
    requires ClaimsWell(cfg, cl, ans) && ans.list && ReadyClaim(cl).None?
    ensures Ends(Conclude(ReconcileLive(cfg, Begin(cl, cl.app.value), ans), ans), cfg, cl, ans)
  {
    ConcludeTransit(WithPodName(Reconciler.Claim(cfg, Begin(cl, cl.app.value), ans), ""), Recovering, ans);
  }

  lemma LiveOnPodEnds(cfg: Config, cl: Cluster, ans: Answers)
    requires AtSecond(cl) && Claims(cl.app.value) && cl.app.value.status.phase == Live && ans.get
    requires ClaimsWell(cfg, cl, ans) && ans.list && ReadyClaim(cl).Some?
    ensures Ends(Conclude(ReconcileLive(cfg, Begin(cl, cl.app.value), ans), ans), cfg, cl, ans)
  {
    var w := Begin(cl, cl.app.value);
    if ReadyClaim(cl).value != w.mem.status.podName {
      ConcludeWrites(WithPodName(Reconciler.Claim(cfg, w, ans), ReadyClaim(cl).value), ans);
    }
  }

  lemma NoClaimEnds(cfg: Config, cl: Cluster, ans: Answers)
    requires AtSecond(cl) && Claims(cl.app.value) && cl.app.value.status.phase == Recovering && ans.get
    requires ClaimsWell(cfg, cl, ans) && (!ans.list || Claimed(cl.pods, cl.app.value.spec).None?)
    ensures Ends(Conclude(ReconcileRecovering(cfg, Begin(cl, cl.app.value), ans), ans), cfg, cl, ans)
  {
    var w1 := ReconcileRecovering(cfg, Begin(cl, cl.app.value), ans);
    if w1.fault.Failed? {
      ConcludeComplaint(w1, ans);
    }
  }

  lemma ClaimEnds(cfg: Config, cl: Cluster, ans: Answers)
    requires AtSecond(cl) && Claims(cl.app.value) && cl.app.value.status.phase == Recovering && ans.get
    requires ClaimsWell(cfg, cl, ans) && ans.list && Claimed(cl.pods, cl.app.value.spec).Some?
    ensures Ends(Conclude(ReconcileRecovering(cfg, Begin(cl, cl.app.value), ans), ans), cfg, cl, ans)
  {
    if ReadyClaim(cl).Some? {
      ConcludeTransit(WithPodName(Reconciler.Claim(cfg, Begin(cl, cl.app.value), ans), ReadyClaim(cl).value), Live, ans);
    }
  }

  lemma ClaimingEnds(cfg: Config, cl: Cluster, ans: Answers)
    requires AtSecond(cl) && Claims(cl.app.value) && ans.get && ClaimsWell(cfg, cl, ans)
    ensures Ends(Conclude(MakeAppLive(cfg, Begin(cl, cl.app.value), ans), ans), cfg, cl, ans)
  {
    if cl.app.value.status.phase == Live {
      if !ans.list {
        UnlistedLiveEnds(cfg, cl, ans);
      } else if ReadyClaim(cl).None? {
        LostPodEnds(cfg, cl, ans);
      } else {
        LiveOnPodEnds(cfg, cl, ans);
      }
    } else if !ans.list || Claimed(cl.pods, cl.app.value.spec).None? {
      NoClaimEnds(cfg, cl, ans);
    } else {
      ClaimEnds(cfg, cl, ans);
    }
  }

  lemma BuiltPhaseEnds(cfg: Config, cl: Cluster, ans: Answers)
    requires AtSecond(cl) && Valid(cl.app.value) && cl.app.value.spec.target == Live && ans.get
    requires cl.app.value.status.phase == Building
    requires cl.app.value.spec.image != ""
    ensures Ends(Conclude(ReconcileBuilding(Begin(cl, cl.app.value), ans), ans), cfg, cl, ans)
  {
    LeaveEnds(Begin(cl, cl.app.value), ans);
  }

  lemma BuildingPhaseEnds(cfg: Config, cl: Cluster, ans: Answers)
    requires AtSecond(cl) && Valid(cl.app.value) && cl.app.value.spec.target == Live && ans.get
    requires cl.app.value.status.phase == Building && cl.app.value.spec.image == ""
    requires !(ans.built && ans.specWrite == Done)
    ensures Ends(Conclude(ReconcileBuilding(Begin(cl, cl.app.value), ans), ans), cfg, cl, ans)
  {
    if ans.built {
      ConcludeComplaint(ReconcileBuilding(Begin(cl, cl.app.value), ans), ans);
    }
  }

  lemma FilledPhaseEnds(cfg: Config, cl: Cluster, ans: Answers)
    requires AtSecond(cl) && Valid(cl.app.value) && cl.app.value.spec.target == Live && ans.get
    requires cl.app.value.status.phase == Building && cl.app.value.spec.image == ""
    requires ans.built && ans.specWrite == Done
    ensures Ends(Conclude(ReconcileBuilding(Begin(cl, cl.app.value), ans), ans), cfg, cl, ans)
  {
    var w := Begin(cl, cl.app.value);
    var app := WithSpec(cl.app.value, w.mem.spec.(image := BuiltImage(w.mem.name)));
    var filled := w.(mem := WithStatus(WithSpec(w.mem, app.spec), app.status), cl := w.cl.(app := Some(app)));
    assert ReconcileBuilding(w, ans) == LeaveBuilding(filled, ans);
    LeaveEnds(filled, ans);
  }

  lemma LeaveEnds(w: Work, ans: Answers)
    requires w.cl.app.Some? && w.stored == [] && w.result == NOT_AGAIN
    ensures var w1 := Conclude(Transit(w, Recovering, ans.write1), ans);
            Conclude(LeaveBuilding(w, ans), ans) == w1.(result := if ans.write1 == Done then AT_ONCE else NOT_AGAIN)
    ensures var s := Status(Recovering, Truncate(w.cl.now), w.mem.status.podName, w.mem.status.error);
            var w1 := Conclude(Transit(w, Recovering, ans.write1), ans);
            && w1.stored == TwoWrites(s, ans)
            && w1.cl == w.cl.(app := Some(WithStatus(w.cl.app.value, Last(w.cl.app.value.status, TwoWrites(s, ans)))))
            && w1.fault == Fine
  {
    ConcludeTransit(w, Recovering, ans);
  }

  lemma UnbuiltEnds(cfg: Config, cl: Cluster, ans: Answers)
    requires AtSecond(cl) && Valid(cl.app.value) && cl.app.value.spec.target == Live && ans.get
    requires NeedsBuild(cl.app.value) && cfg.hasBuilder
    ensures Ends(Conclude(EnterBuilding(cfg, Begin(cl, cl.app.value), ans), ans), cfg, cl, ans)
  {
    assert cl.app.value.spec.dockerfile != "";
    BuilderEnds(Begin(cl, cl.app.value), ans);
  }

  lemma NoBuilderEnds(cfg: Config, cl: Cluster, ans: Answers)
    requires AtSecond(cl) && Valid(cl.app.value) && cl.app.value.spec.target == Live && ans.get
    requires NeedsBuild(cl.app.value) && !cfg.hasBuilder
    ensures Ends(Conclude(EnterBuilding(cfg, Begin(cl, cl.app.value), ans), ans), cfg, cl, ans)
  {
    assert cl.app.value.spec.dockerfile != "";
    ConcludeComplaint(EnterBuilding(cfg, Begin(cl, cl.app.value), ans), ans);
  }

  lemma BuilderEnds(w: Work, ans: Answers)
    requires w.cl.app.Some? && w.stored == [] && w.result == NOT_AGAIN
    ensures var s := Status(Building, Truncate(w.cl.now), w.mem.status.podName, w.mem.status.error);
            var w1 := Transit(w, Building, ans.write1);
            var w2 := Conclude(if w1.fault == Fine then w1.(result := IN_5_SECONDS) else w1, ans);
            && w2.stored == TwoWrites(s, ans)
            && w2.cl == w.cl.(app := Some(WithStatus(w.cl.app.value, Last(w.cl.app.value.status, TwoWrites(s, ans)))))
            && w2.result == (if ans.write1 == Done then IN_5_SECONDS else NOT_AGAIN) && w2.fault == Fine
  {
    ConcludeTransit(w, Building, ans);
  }

  lemma ReopenedEnds(cfg: Config, cl: Cluster, ans: Answers)
    requires AtSecond(cl) && Valid(cl.app.value) && cl.app.value.spec.target == Live && ans.get
    requires !NeedsBuild(cl.app.value) && cl.app.value.status.phase !in {Live, Recovering, Building}
    ensures Ends(Conclude(MakeAppLive(cfg, Begin(cl, cl.app.value), ans), ans), cfg, cl, ans)
  {
    var w := Begin(cl, cl.app.value);
    ConcludeTransit(w, Recovering, ans);
    ConcludeResult(Transit(w, Recovering, ans.write1), ans, AT_ONCE);
  }

  lemma LiveEnds(cfg: Config, cl: Cluster, ans: Answers)
    requires Safe(cfg, cl) && AtSecond(cl) && Valid(cl.app.value) && cl.app.value.spec.target == Live && ans.get
    ensures Ends(Conclude(MakeAppLive(cfg, Begin(cl, cl.app.value), ans), ans), cfg, cl, ans)
  {
    var app := cl.app.value;
    ClaimKeeps(cfg, cl, ans);
    if NeedsBuild(app) {
      if cfg.hasBuilder {
        UnbuiltEnds(cfg, cl, ans);
      } else {
        NoBuilderEnds(cfg, cl, ans);
      }
    } else {
      match app.status.phase
      case Live => ClaimingEnds(cfg, cl, ans);
      case Recovering => ClaimingEnds(cfg, cl, ans);
      case Building =>
        if app.spec.image != "" {
          BuiltPhaseEnds(cfg, cl, ans);
        } else if ans.built && ans.specWrite == Done {
          FilledPhaseEnds(cfg, cl, ans);
        } else {
          BuildingPhaseEnds(cfg, cl, ans);
        }
      case _ => ReopenedEnds(cfg, cl, ans);
    }
  }

  // --- the reconcile is the table -------------------------------------------------------------

  lemma InvalidTable(cfg: Config, cl: Cluster, ans: Answers)
    requires cl.app.Some? && ans.get && !Valid(cl.app.value)
    ensures var o := cl.app.value.status;
            && Stores(cfg, cl, ans) ==
               (if ans.write2 == Refused then [] else [o.(error := ValidateApp(cl.app.value.spec).value)])
            && !DeletesApp(cl, ans) && PodsAfter(cfg, cl, ans) == cl.pods
            && ResultAfter(cfg, cl, ans) == NOT_AGAIN
  {
  }

  lemma InvalidEnds(cfg: Config, cl: Cluster, ans: Answers)
    requires AtSecond(cl) && (!ans.get || !Valid(cl.app.value))
    ensures Ends(Reconcile(cfg, cl, ans), cfg, cl, ans)
  {
    if ans.get {
      var w := Begin(cl, cl.app.value);
      var complaint := ValidateApp(w.mem.spec).value;
      InvalidTable(cfg, cl, ans);
      assert Dispatch(cfg, w, ans) == w.(fault := Failed(complaint));
      ConcludeComplaint(w.(fault := Failed(complaint)), ans);
    }
  }

  // Whatever the API server answers, a reconcile stores, deletes, creates and asks for exactly what
  // the table says.
  lemma ReconcileIsTable(cfg: Config, cl: Cluster, ans: Answers)
    requires Safe(cfg, cl) && cl.app.Some?
    ensures Ends(Reconcile(cfg, cl, ans), cfg, cl, ans)
  {
    var app := cl.app.value;
    var w := Begin(cl, app);
    if !ans.get || !Valid(app) {
      InvalidEnds(cfg, cl, ans);
    } else if app.spec.target == Rest {
      match app.status.phase
      case Rest => SteadyRest(cfg, cl, ans);
      case ShuttingDown =>
        ShuttingDownEnds(cfg, cl, ans);
        assert MakeAppRest(cfg, w, ans) == ReconcileShuttingDown(w, ans);
      case Live => ClosedEnds(cfg, cl, ans);
      case WaitingForSessions => IdleEnds(cfg, cl, ans);
      case _ => UnusedEnds(cfg, cl, ans);
    } else {
      LiveEnds(cfg, cl, ans);
    }
  }

  // --- what the table means -------------------------------------------------------------------

  // The call that failed, if any.
  function FailedCall(cfg: Config, cl: Cluster, ans: Answers): Option<string>
    requires cl.app.Some?
  {
    if Wanted(cfg, cl, ans).None? then Complaint(cfg, cl, ans)
    else if ans.write1 == Done then None
    else Some(CANNOT_UPDATE)
  }

  // With no call failing, every stored status is free of errors, old ones included; only the step
  // that fills in a built image brings an old error back.
  lemma SuccessClearsError(cfg: Config, cl: Cluster, ans: Answers)
    requires Safe(cfg, cl) && cl.app.Some? && FailedCall(cfg, cl, ans).None?
    ensures var w := Reconcile(cfg, cl, ans);
            forall s :: s in w.stored ==>
              (s.error == "" <==> !FillsImage(cl.app.value, ans) || cl.app.value.status.error == "")
  {
    ReconcileIsTable(cfg, cl, ans);
  }

  // A call that fails leaves exactly its own text, if that can be stored.
  lemma FailureLeavesItsText(cfg: Config, cl: Cluster, ans: Answers)
    requires Safe(cfg, cl) && cl.app.Some? && FailedCall(cfg, cl, ans).Some? && ans.write2 == Done
    ensures var w := Reconcile(cfg, cl, ans);
            w.cl.app.Some? ==> w.cl.app.value.status.error == FailedCall(cfg, cl, ans).value
  {
    ReconcileIsTable(cfg, cl, ans);
  }

  // Answers under which no call fails.
  predicate Succeeds(cl: Cluster, ans: Answers)
    requires cl.app.Some?
  {
    && ans.get && ans.list && ans.write1 == Done && ans.specWrite == Done && ans.appDelete == Done
    && ans.undeletable == {}
    && (cl.app.value.spec.target == Live ==> !LiveConvergence.CannotCreate(cl, ans) && ans.create.reply == Done)
  }

  lemma NothingFails(cfg: Config, cl: Cluster, ans: Answers)
    requires cl.app.Some? && Valid(cl.app.value) && Succeeds(cl, ans)
    requires cl.app.value.spec.target == Live && NeedsBuild(cl.app.value) ==> cfg.hasBuilder
    ensures FailedCall(cfg, cl, ans).None?
  {
  }

  // An app whose build has just finished, with an error of an earlier reconcile.
  const BUILT := AN_APP.(image := "", dockerfile := "FROM alpine", target := Live)
  const BUILT_APP := Cluster(Some(CliApp("app", BUILT, Status(Building, 0, "", CANNOT_UPDATE))), [], 0)

  // Filling in the image moves it on to Recovering with that error still there.
  lemma OldErrorComesBack(cfg: Config)
    ensures var w := Reconcile(cfg, BUILT_APP, NO_POD);
            && Safe(cfg, BUILT_APP) && FailedCall(cfg, BUILT_APP, NO_POD).None?
            && w.stored == [Status(Recovering, 0, "", CANNOT_UPDATE)]
  {
    ReconcileIsTable(cfg, BUILT_APP, NO_POD);
  }

  // --- the last Pod of a drain ----------------------------------------------------------------

  // The last Pod that is not ready, or the last of all if every one is ready.
  ghost predicate DrainsLast(pods: seq<Pod>, k: nat) {
    && k < |pods|
    && (if pods[k].ready then k == |pods| - 1 && forall j :: 0 <= j < |pods| ==> pods[j].ready
        else forall j :: k < j < |pods| ==> pods[j].ready)
  }

  lemma {:induction false} SelectLast(pods: seq<Pod>, test: Pod -> bool, k: nat)
    requires k < |pods| && test(pods[k]) && forall j :: k < j < |pods| ==> !test(pods[j])
    ensures Select(pods, test) != [] && Select(pods, test)[|Select(pods, test)| - 1] == pods[k]
    decreases |pods|
  {
    if k == 0 {
      SelectNone(pods[1..], test);
    } else {
      SelectLast(pods[1..], test, k - 1);
    }
  }

  lemma {:induction false} SelectNone(pods: seq<Pod>, test: Pod -> bool)
    requires forall j :: 0 <= j < |pods| ==> !test(pods[j])
    ensures Select(pods, test) == []
    decreases |pods|
  {
    if pods != [] {
      SelectNone(pods[1..], test);
    }
  }

  lemma LastDrainedIs(pods: seq<Pod>, k: nat)
    requires !AnyTerminating(pods) && DrainsLast(pods, k)
    ensures LastDrained(pods) == Some(pods[k])
  {
    assert forall j :: 0 <= j < |pods| ==> pods[j] in pods && !pods[j].terminating;
    if pods[k].ready {
      SelectNone(pods, IsStarting);
      SelectLast(pods, IsReady, k);
    } else {
      SelectLast(pods, IsStarting, k);
    }
  }

  lemma {:induction false} SomeDrainsLast(pods: seq<Pod>) returns (k: nat)
    requires pods != []
    ensures DrainsLast(pods, k)
    decreases |pods|
  {
    k := |pods| - 1;
    if pods[k].ready && |pods| > 1 {
      var shorter := pods[..k];
      var i := SomeDrainsLast(shorter);
      if !shorter[i].ready {
        k := i;
      }
    }
  }

  // A drain reports a refused delete exactly if the last Pod it deletes is the refused one; a
  // refusal before that goes unreported.
  lemma DrainReports(cfg: Config, cl: Cluster, ans: Answers) returns (k: nat)
    requires Safe(cfg, cl) && cl.app.Some? && Drains(cl.app.value) && ans.get && ans.list && ans.write2 == Done
    requires cl.pods != [] && !AnyTerminating(cl.pods)
    ensures DrainsLast(cl.pods, k)
    ensures var w := Reconcile(cfg, cl, ans);
            w.stored == if cl.pods[k].name in ans.undeletable
                        then [cl.app.value.status.(error := "unable to delete pod")] else []
  {
    k := SomeDrainsLast(cl.pods);
    LastDrainedIs(cl.pods, k);
    ReconcileIsTable(cfg, cl, ans);
  }

  // --- validation -----------------------------------------------------------------------------

  lemma ValidIff(spec: Spec)
    ensures ValidateApp(spec).None? <==>
              && (spec.image != "" || spec.dockerfile != "" || spec.fork.Some?)
              && spec.target in {Rest, Live}
              && spec.distro in {"", "alpine", "ubuntu"} && spec.shell in {"", "bash", "zsh"}
  {
  }

  // --- panics ---------------------------------------------------------------------------------

  // The panics of transitPhaseTo, which no run reaches.
  lemma TransitPanicsIff(w: Work, phase: Phase, a: Write)
    ensures Transit(w, phase, a).fault == Panicked <==>
              phase == Live && (w.mem.status.podName == "" || (w.mem.spec.image == "" && w.mem.spec.fork.None?))
  {
  }

  // Those of makeAppRest and makeAppLive: the wrong target, a steady Rest, or a ready Pod without a name.
  lemma HandlersPanicIff(cfg: Config, w: Work, ans: Answers)
    requires w.fault == Fine
    ensures MakeAppRest(cfg, w, ans).fault == Panicked <==> w.mem.spec.target != Rest || w.mem.status.phase == Rest
    ensures MakeAppLive(cfg, w, ans).fault == Panicked <==>
              w.mem.spec.target != Live
              || (!NeedsBuild(w.mem) && w.mem.status.phase == Recovering && ans.list
                  && Claimed(w.cl.pods, w.mem.spec).Some? && Claimed(w.cl.pods, w.mem.spec).value.ready
                  && Claimed(w.cl.pods, w.mem.spec).value.name == "")
  {
    RestPanicsIff(cfg, w, ans);
    LivePanicsIff(cfg, w, ans);
  }

  lemma RestPanicsIff(cfg: Config, w: Work, ans: Answers)
    requires w.fault == Fine
    ensures MakeAppRest(cfg, w, ans).fault == Panicked <==> w.mem.spec.target != Rest || w.mem.status.phase == Rest
  {
  }

  lemma LivePanicsIff(cfg: Config, w: Work, ans: Answers)
    requires w.fault == Fine
    ensures MakeAppLive(cfg, w, ans).fault == Panicked <==>
              w.mem.spec.target != Live
              || (!NeedsBuild(w.mem) && w.mem.status.phase == Recovering && ans.list
                  && Claimed(w.cl.pods, w.mem.spec).Some? && Claimed(w.cl.pods, w.mem.spec).value.ready
                  && Claimed(w.cl.pods, w.mem.spec).value.name == "")
  {
  }
}
