/**
 The phase graph of one reconcile: where it aims, that it ends either there or where it was, and
 that it gets there when the API server answers as asked.
 */
module ReconcilerPhases {
  import opened Wrappers
  import opened CliApps
  import opened Reconciler
  import opened ReconcilerSafety

  // --- claiming a Pod -------------------------------------------------------------------------

  // Every live Pod but the one to keep is deleted, except where the server refuses.
  function Keep(pods: seq<Pod>, keep: Option<Pod>, undeletable: set<string>): seq<Pod> {
    seq(|pods|, i requires 0 <= i < |pods| =>
      if !pods[i].terminating && Some(pods[i]) != keep && pods[i].name !in undeletable
      then pods[i].(terminating := true) else pods[i])
  }

  lemma NamedOnce(pods: seq<Pod>, p: Pod, q: Pod)
    requires DistinctNames(pods) && p in pods && q in pods && p.name == q.name
    ensures p == q
  {
    var i :| 0 <= i < |pods| && pods[i] == p;
    var j :| 0 <= j < |pods| && pods[j] == q;
    assert i == j;
  }

  // Although several Pods may match, and the list of old Pods matches two conditions and may name a
  // Pod twice, claiming comes down to: keep the first match, recycle every other live Pod.
  lemma ClaimRefines(cfg: Config, pods: seq<Pod>, spec: Spec, undeletable: set<string>)
    requires DistinctNames(pods)
    requires Claimed(pods, spec).Some? ==> Claimed(pods, spec).value.hash == Some(cfg.hash(spec))
    ensures Delete(pods, OldNames(cfg, pods, spec), undeletable) == Keep(pods, Claimed(pods, spec), undeletable)
  {
    var old' := OldNames(cfg, pods, spec);
    ClaimedIsFirst(pods, spec);
    forall i | 0 <= i < |pods| ensures pods[i].name in old' <==> !pods[i].terminating && Some(pods[i]) != Claimed(pods, spec) {
      assert pods[i] in pods;
      if pods[i].name in old' {
        var q :| q in pods && IsOld(cfg, pods, spec, q) && q.name == pods[i].name;
        NamedOnce(pods, q, pods[i]);
      } else {
        assert !IsOld(cfg, pods, spec, pods[i]);
      }
    }
  }

  // Of Pods that the controller made, the claimed one always has the current hash.
  lemma ClaimedHasHash(cfg: Config, pods: seq<Pod>, spec: Spec)
    requires PodsOk(cfg, pods) && Claimed(pods, spec).Some?
    ensures Claimed(pods, spec).value.hash == Some(cfg.hash(spec))
  {
    ClaimedIsFirst(pods, spec);
    var k :| 0 <= k < |pods| && pods[k] == Claimed(pods, spec).value && Matches(pods[k], spec);
    assert MadeByStart(cfg, pods[k]);
  }

  // Without the annotations written together the claim can destroy what it returns: the claimed
  // Pod is on the list of old Pods exactly when its hash annotation is not the current hash.
  lemma ClaimedIsRecycledIff(cfg: Config, pods: seq<Pod>, spec: Spec)
    requires DistinctNames(pods) && Claimed(pods, spec).Some?
    ensures var p := Claimed(pods, spec).value;
            p.name in OldNames(cfg, pods, spec) <==> p.hash != Some(cfg.hash(spec))
  {
    var p := Claimed(pods, spec).value;
    ClaimedIsFirst(pods, spec);
    assert p in pods;
    if p.name in OldNames(cfg, pods, spec) {
      var q :| q in pods && IsOld(cfg, pods, spec, q) && q.name == p.name;
      NamedOnce(pods, q, p);
    }
  }

  // --- the phase graph ------------------------------------------------------------------------

  predicate Expired(cfg: Config, cl: Cluster)
    requires cl.app.Some?
  {
    cl.now - cl.app.value.status.lastTransition >= cfg.idle
  }

  // The name of the Pod a reconcile would claim, if it is ready.
  function ReadyClaim(cl: Cluster): Option<string>
    requires cl.app.Some?
  {
    var pod := Claimed(cl.pods, cl.app.value.spec);
    if pod.Some? && pod.value.ready then Some(pod.value.name) else None
  }

  function AimLive(cfg: Config, cl: Cluster): Phase
    requires cl.app.Some?
  {
    var app := cl.app.value;
    if NeedsBuild(app) then (if app.spec.dockerfile != "" && cfg.hasBuilder then Building else app.status.phase)
    else if app.status.phase in {Live, Recovering} then (if ReadyClaim(cl).Some? then Live else Recovering)
    else Recovering
  }

  function AimRest(cfg: Config, cl: Cluster): Phase
    requires cl.app.Some?
  {
    var app := cl.app.value;
    match app.status.phase
    case Live => if app.spec.uninstall then ShuttingDown else WaitingForSessions
    case WaitingForSessions => if Expired(cfg, cl) then ShuttingDown else WaitingForSessions
    case ShuttingDown => if cl.pods == [] && !app.spec.uninstall then Rest else ShuttingDown
    case Rest => Rest
    case _ => ShuttingDown
  }

  // The phase a reconcile aims at.
  function Aim(cfg: Config, cl: Cluster): Phase
    requires cl.app.Some?
  {
    var app := cl.app.value;
    if ValidateApp(app.spec).Some? then app.status.phase
    else if app.spec.target == Live then AimLive(cfg, cl)
    else AimRest(cfg, cl)
  }

  // When a reconcile deletes the app itself.
  predicate Uninstalls(cl: Cluster)
    requires cl.app.Some?
  {
    var app := cl.app.value;
    && ValidateApp(app.spec).None? && app.spec.target == Rest && app.spec.uninstall
    && app.status.phase == ShuttingDown && cl.pods == []
  }

  // The Pod named after a transition. Phase Live is left for another one without it, but for the
  // wait for sessions and a new build.
  function NameAfter(o: Status, aim: Phase, claim: Option<string>): string {
    if aim == Live then (if claim.Some? then claim.value else "")
    else if aim == Rest || (o.phase == Live && aim in {Recovering, ShuttingDown}) then ""
    else o.podName
  }

  // s is the status o, or it is what a transition at time now makes of it.
  ghost predicate From(s: Status, o: Status, aim: Phase, now: int, claim: Option<string>) {
    || (&& s.phase == o.phase && s.lastTransition == o.lastTransition
        && (s.podName == o.podName || (o.phase == Live && claim == Some(s.podName))))
    || (&& s.phase == aim && aim != o.phase && Truncate(s.lastTransition) == Truncate(now)
        && s.podName == NameAfter(o, aim, claim) && (aim == Live ==> claim.Some?))
  }

  // The copy in memory and the store both hold such a status.
  ghost predicate Holds(w: Work, o: Status, aim: Phase, now: int, claim: Option<string>) {
    && w.cl.now == now && OnSecond(o.lastTransition)
    && From(w.mem.status, o, aim, now, claim)
    && (w.cl.app.Some? ==>
          && From(w.cl.app.value.status, o, aim, now, claim)
          && OnSecond(w.cl.app.value.status.lastTransition))
  }

  lemma WriteHolds(w: Work, a: Write, o: Status, aim: Phase, now: int, claim: Option<string>)
    requires Holds(w, o, aim, now, claim)
    ensures Holds(WriteStatus(w, a), o, aim, now, claim)
  {
  }

  lemma TransitHolds(w: Work, a: Write, o: Status, aim: Phase, now: int, claim: Option<string>)
    requires Holds(w, o, aim, now, claim) && aim != o.phase
    requires aim == Live ==> claim.Some?
    requires aim != Rest ==> w.mem.status.podName == NameAfter(o, aim, claim)
    ensures Holds(Transit(w, aim, a), o, aim, now, claim)
  {
    var s := w.mem.status.(phase := aim, lastTransition := now);
    var s1 := if aim == Rest then s.(podName := "") else s;
    WriteHolds(w.(mem := WithStatus(w.mem, s1)), a, o, aim, now, claim);
  }

  // A reconcile about to dispatch.
  ghost predicate AtStart(w: Work, cl: Cluster) {
    && cl.app.Some? && w == Begin(cl, cl.app.value)
    && OnSecond(cl.app.value.status.lastTransition)
  }

  lemma RestHolds(cfg: Config, cl: Cluster, w: Work, ans: Answers)
    requires AtStart(w, cl) && w.mem.spec.target == Rest && w.mem.status.phase != Rest
    ensures Holds(MakeAppRest(cfg, w, ans), cl.app.value.status, AimRest(cfg, cl), cl.now, ReadyClaim(cl))
  {
    var o, aim, claim := cl.app.value.status, AimRest(cfg, cl), ReadyClaim(cl);
    match w.mem.status.phase
    case Live =>
      if w.mem.spec.uninstall {
        var s := w.mem.status.(podName := "", phase := ShuttingDown, lastTransition := cl.now);
        WriteHolds(w.(mem := WithStatus(w.mem, s), result := Result(true, 0)), ans.write1, o, aim, cl.now, claim);
      } else {
        TransitHolds(w.(result := Result(true, cfg.idle)), ans.write1, o, aim, cl.now, claim);
      }
    case ShuttingDown =>
      if ans.list && cl.pods == [] && !w.mem.spec.uninstall {
        TransitHolds(w, ans.write1, o, aim, cl.now, claim);
      }
    case WaitingForSessions =>
      if Expired(cfg, cl) {
        TransitHolds(w, ans.write1, o, aim, cl.now, claim);
      }
    case _ => TransitHolds(w, ans.write1, o, aim, cl.now, claim);
  }

  lemma ClaimingHolds(cfg: Config, cl: Cluster, w: Work, ans: Answers)
    requires AtStart(w, cl) && !NeedsBuild(w.mem)
    ensures w.mem.status.phase == Live ==>
              Holds(ReconcileLive(cfg, w, ans), cl.app.value.status, AimLive(cfg, cl), cl.now, ReadyClaim(cl))
    ensures w.mem.status.phase == Recovering ==>
              Holds(ReconcileRecovering(cfg, w, ans), cl.app.value.status, AimLive(cfg, cl), cl.now, ReadyClaim(cl))
  {
    var o, aim, claim := cl.app.value.status, AimLive(cfg, cl), ReadyClaim(cl);
    var w1 := Claim(cfg, w, ans);
    if claim.Some? {
      if w.mem.status.phase == Live {
        WriteHolds(WithPodName(w1, claim.value), ans.write1, o, aim, cl.now, claim);
      } else if w.mem.status.phase == Recovering && claim.value != "" && Runnable(w.mem.spec) {
        var s := w1.mem.status.(podName := claim.value, phase := Live, lastTransition := cl.now);
        WriteHolds(w1.(mem := WithStatus(w1.mem, s)), ans.write1, o, aim, cl.now, claim);
      }
    } else if w.mem.status.phase == Live {
      var s := w1.mem.status.(podName := "", phase := Recovering, lastTransition := cl.now);
      WriteHolds(w1.(mem := WithStatus(w1.mem, s)), ans.write1, o, aim, cl.now, claim);
    }
  }

  lemma BuildingHolds(cfg: Config, cl: Cluster, w: Work, ans: Answers)
    requires AtStart(w, cl) && w.mem.status.phase == Building
    ensures Holds(ReconcileBuilding(w, ans), cl.app.value.status, Recovering, cl.now, ReadyClaim(cl))
  {
    var o, claim := cl.app.value.status, ReadyClaim(cl);
    var spec := w.mem.spec.(image := BuiltImage(w.mem.name));
    if w.mem.spec.image != "" {
      TransitHolds(w, ans.write1, o, Recovering, cl.now, claim);
    } else if ans.built && ans.specWrite == Done {
      var app := WithSpec(cl.app.value, spec);
      var w2 := w.(mem := WithStatus(WithSpec(w.mem, spec), app.status), cl := w.cl.(app := Some(app)));
      TransitHolds(w2, ans.write1, o, Recovering, cl.now, claim);
    }
  }

  lemma LiveHolds(cfg: Config, cl: Cluster, w: Work, ans: Answers)
    requires AtStart(w, cl) && w.mem.spec.target == Live
    ensures Holds(MakeAppLive(cfg, w, ans), cl.app.value.status, AimLive(cfg, cl), cl.now, ReadyClaim(cl))
  {
    var o, aim, claim := cl.app.value.status, AimLive(cfg, cl), ReadyClaim(cl);
    if NeedsBuild(w.mem) {
      if aim == Building {
        TransitHolds(w, ans.write1, o, aim, cl.now, claim);
      }
    } else {
      match w.mem.status.phase
      case Live => ClaimingHolds(cfg, cl, w, ans);
      case Recovering => ClaimingHolds(cfg, cl, w, ans);
      case Building => BuildingHolds(cfg, cl, w, ans);
      case _ => TransitHolds(w, ans.write1, o, aim, cl.now, claim);
    }
  }

  // A reconcile leaves the stored status where it was or moves it along one edge of the phase
  // graph, to its aim; on the way to Live it names the ready Pod it claimed.
  lemma PhaseGraph(cfg: Config, cl: Cluster, ans: Answers)
    requires cl.app.Some? && OnSecond(cl.app.value.status.lastTransition)
    ensures var w := Reconcile(cfg, cl, ans);
            && w.cl.now == cl.now
            && (w.cl.app.Some? ==>
                  && From(w.cl.app.value.status, cl.app.value.status, Aim(cfg, cl), cl.now, ReadyClaim(cl))
                  && OnSecond(w.cl.app.value.status.lastTransition))
  {
    var w := Begin(cl, cl.app.value);
    var o, claim := cl.app.value.status, ReadyClaim(cl);
    if ans.get {
      var aim := Aim(cfg, cl);
      if ValidateApp(w.mem.spec).None? {
        if w.mem.spec.target == Live {
          LiveHolds(cfg, cl, w, ans);
        } else if w.mem.status.phase != Rest {
          RestHolds(cfg, cl, w, ans);
        }
      }
      var w1 := Dispatch(cfg, w, ans);
      assert Holds(w1, o, aim, cl.now, claim);
      if w1.fault.Failed? {
        WriteHolds(w1.(mem := WithStatus(w1.mem, w1.mem.status.(error := w1.fault.message))), ans.write2, o, aim, cl.now, claim);
      }
    }
  }

  // An app at rest in the examples below, and answers as asked but for the creation of a Pod.
  const AN_APP := Spec(None, "alpine", "", [], [], [], "", "", Rest, false)
  const NO_POD := Answers(true, true, Done, Done, Done, Done, {}, true, NoPod)

  // The new status no longer names the Pod of a Live phase that was lost or uninstalled.
  lemma LeavingLiveDropsPod(cfg: Config, cl: Cluster, ans: Answers)
    requires cl.app.Some? && OnSecond(cl.app.value.status.lastTransition) && cl.app.value.status.phase == Live
    ensures var w := Reconcile(cfg, cl, ans);
            w.cl.app.Some? && w.cl.app.value.status.phase in {Recovering, ShuttingDown} ==>
              w.cl.app.value.status.podName == ""
  {
    PhaseGraph(cfg, cl, ans);
  }

  // --- what one reconcile leaves alone --------------------------------------------------------

  ghost predicate SpecEffect(w: Work, cl: Cluster)
    requires cl.app.Some?
  {
    var app := cl.app.value;
    && (w.cl.app.None? ==> Uninstalls(cl))
    && (w.cl.app.Some? ==> w.cl.app.value.name == app.name)
    && (w.cl.app.Some? ==>
          || w.cl.app.value.spec == app.spec
          || (&& app.spec.image == "" && app.status.phase == Building && app.spec.target == Live
              && w.cl.app.value.spec == app.spec.(image := BuiltImage(app.name))))
  }

  // w1 holds the same app object but for its status.
  predicate SameSpec(w: Work, w1: Work) {
    && (w.cl.app.Some? <==> w1.cl.app.Some?)
    && (w.cl.app.Some? ==>
          w1.cl.app.value.spec == w.cl.app.value.spec && w1.cl.app.value.name == w.cl.app.value.name)
  }

  lemma WriteSpec(w: Work, a: Write)
    ensures SameSpec(w, WriteStatus(w, a))
  {
  }

  lemma TransitSpec(w: Work, phase: Phase, a: Write)
    ensures SameSpec(w, Transit(w, phase, a))
  {
  }

  lemma ClaimingSpec(cfg: Config, w: Work, ans: Answers)
    ensures SameSpec(w, ReconcileLive(cfg, w, ans))
    ensures SameSpec(w, ReconcileRecovering(cfg, w, ans))
  {
    var w1 := Claim(cfg, w, ans);
    var pod := Claimed(w.cl.pods, w.mem.spec);
    TransitSpec(WithPodName(w1, ""), Recovering, ans.write1);
    if pod.Some? {
      WriteSpec(WithPodName(w1, pod.value.name), ans.write1);
      TransitSpec(WithPodName(w1, pod.value.name), Live, ans.write1);
    }
  }

  lemma BuildingSpec(cl: Cluster, w: Work, ans: Answers)
    requires cl.app.Some? && w == Begin(cl, cl.app.value)
    requires w.mem.status.phase == Building && w.mem.spec.target == Live
    ensures SpecEffect(ReconcileBuilding(w, ans), cl) && ReconcileBuilding(w, ans).cl.app.Some?
  {
    var spec := w.mem.spec.(image := BuiltImage(w.mem.name));
    if w.mem.spec.image != "" {
      TransitSpec(w, Recovering, ans.write1);
    } else if ans.built && ans.specWrite == Done {
      var app := WithSpec(cl.app.value, spec);
      TransitSpec(w.(mem := WithStatus(WithSpec(w.mem, spec), app.status), cl := w.cl.(app := Some(app))), Recovering, ans.write1);
    }
  }

  lemma MakeLiveSpec(cfg: Config, cl: Cluster, w: Work, ans: Answers)
    requires cl.app.Some? && w == Begin(cl, cl.app.value) && w.mem.spec.target == Live
    ensures SpecEffect(MakeAppLive(cfg, w, ans), cl) && MakeAppLive(cfg, w, ans).cl.app.Some?
  {
    if NeedsBuild(w.mem) {
      TransitSpec(w, Building, ans.write1);
    } else {
      match w.mem.status.phase
      case Live => ClaimingSpec(cfg, w, ans);
      case Recovering => ClaimingSpec(cfg, w, ans);
      case Building => BuildingSpec(cl, w, ans);
      case _ => TransitSpec(w, Recovering, ans.write1);
    }
  }

  lemma MakeRestSpec(cfg: Config, cl: Cluster, w: Work, ans: Answers)
    requires cl.app.Some? && w == Begin(cl, cl.app.value) && w.mem.spec.target == Rest
    requires ValidateApp(w.mem.spec).None?
    ensures SpecEffect(MakeAppRest(cfg, w, ans), cl)
  {
    match w.mem.status.phase
    case ShuttingDown => TransitSpec(w, Rest, ans.write1);
    case Live =>
      TransitSpec(WithPodName(w.(result := Result(true, 0)), ""), ShuttingDown, ans.write1);
      TransitSpec(w.(result := Result(true, cfg.idle)), WaitingForSessions, ans.write1);
    case _ => TransitSpec(w, ShuttingDown, ans.write1);
  }

  // A reconcile never edits the spec, except to fill in a built image; it deletes the app only
  // from ShuttingDown, on an empty Pod list, when uninstall is asked for.
  lemma ReconcileSpec(cfg: Config, cl: Cluster, ans: Answers)
    requires cl.app.Some?
    ensures SpecEffect(Reconcile(cfg, cl, ans), cl)
  {
    var w := Begin(cl, cl.app.value);
    var w1 := Dispatch(cfg, w, ans);
    if ValidateApp(w.mem.spec).None? {
      if w.mem.spec.target == Live {
        MakeLiveSpec(cfg, cl, w, ans);
      } else if w.mem.status.phase != Rest {
        MakeRestSpec(cfg, cl, w, ans);
      }
    }
    assert SpecEffect(w1, cl);
    if w1.fault.Failed? {
      WriteSpec(w1.(mem := WithStatus(w1.mem, w1.mem.status.(error := w1.fault.message))), ans.write2);
    }
  }

  // A reconcile of an app at rest writes nothing.
  lemma SteadyRest(cfg: Config, cl: Cluster, ans: Answers)
    requires cl.app.Some? && ValidateApp(cl.app.value.spec).None?
    requires cl.app.value.spec.target == Rest && cl.app.value.status.phase == Rest
    ensures Reconcile(cfg, cl, ans).cl == cl && Reconcile(cfg, cl, ans).stored == []
  {
  }

  // Phase Rest is entered only from ShuttingDown and only once no Pod is left; a Pod is created
  // only in phase Recovering.
  lemma RestEntry(cfg: Config, cl: Cluster, ans: Answers)
    requires Safe(cfg, cl) && cl.app.Some?
    ensures var w := Reconcile(cfg, cl, ans);
            && (w.cl.app.Some? && w.cl.app.value.status.phase == Rest && cl.app.value.status.phase != Rest ==>
                  cl.app.value.status.phase == ShuttingDown && cl.pods == [] && w.cl.pods == [])
            && (|w.cl.pods| > |cl.pods| ==> cl.app.value.status.phase == Recovering && cl.app.value.spec.target == Live)
  {
    PhaseGraph(cfg, cl, ans);
    PodEffect(cfg, cl, ans);
  }

  // The claimed Pod is not deleted by the reconcile that claims it.
  lemma ClaimSurvives(cfg: Config, cl: Cluster, ans: Answers, k: nat)
    requires Safe(cfg, cl) && cl.app.Some? && cl.app.value.spec.target == Live
    requires k < |cl.pods| && Claimed(cl.pods, cl.app.value.spec) == Some(cl.pods[k])
    ensures var pods := Reconcile(cfg, cl, ans).cl.pods;
            |pods| == |cl.pods| && pods[k] == cl.pods[k]
  {
    var w := Begin(cl, cl.app.value);
    if ans.get && ValidateApp(w.mem.spec).None? {
      LivePods(cfg, w, ans);
      ClaimedHasHash(cfg, cl.pods, w.mem.spec);
      ClaimRefines(cfg, cl.pods, w.mem.spec, ans.undeletable);
      ConcludePods(MakeAppLive(cfg, w, ans), ans);
    }
  }

  // On entry to phase Live the status names a live, ready Pod that carries the current spec.
  lemma LiveEntry(cfg: Config, cl: Cluster, ans: Answers)
    requires Safe(cfg, cl) && cl.app.Some?
    ensures var w := Reconcile(cfg, cl, ans);
            w.cl.app.Some? && w.cl.app.value.status.phase == Live && cl.app.value.status.phase != Live ==>
              exists p :: p in w.cl.pods && p.name == w.cl.app.value.status.podName
                          && p.ready && !p.terminating && p.dump == Some(w.cl.app.value.spec)
  {
    var w := Reconcile(cfg, cl, ans);
    PhaseGraph(cfg, cl, ans);
    if w.cl.app.Some? && w.cl.app.value.status.phase == Live && cl.app.value.status.phase != Live {
      assert ReadyClaim(cl) == Some(w.cl.app.value.status.podName) && cl.app.value.spec.target == Live;
      ReconcileSpec(cfg, cl, ans);
      var p := ReadyClaimSurvives(cfg, cl, ans);
      assert w.cl.app.value.spec == cl.app.value.spec;
    }
  }

  lemma ReadyClaimSurvives(cfg: Config, cl: Cluster, ans: Answers) returns (p: Pod)
    requires Safe(cfg, cl) && cl.app.Some? && cl.app.value.spec.target == Live && ReadyClaim(cl).Some?
    ensures p in Reconcile(cfg, cl, ans).cl.pods && p.name == ReadyClaim(cl).value
    ensures p.ready && Matches(p, cl.app.value.spec)
  {
    ClaimedIsFirst(cl.pods, cl.app.value.spec);
    p := Claimed(cl.pods, cl.app.value.spec).value;
    var k :| 0 <= k < |cl.pods| && cl.pods[k] == p && Matches(p, cl.app.value.spec);
    ClaimSurvives(cfg, cl, ans, k);
    assert Reconcile(cfg, cl, ans).cl.pods[k] in Reconcile(cfg, cl, ans).cl.pods;
  }

  // --- being called again ---------------------------------------------------------------------

  // The controller asks to be called again, or the reconcile changed the app or a Pod, of which the
  // API server tells it. A write that leaves everything as it was brings nothing back.
  predicate ComesBack(cl: Cluster, w: Work) {
    w.result.requeue || w.result.after > 0 || w.cl != cl
  }

  // The deferred write of an error is lost on the store.
  predicate ErrorStays(cl: Cluster, ans: Answers, message: string)
    requires cl.app.Some?
  {
    ans.write2 == Refused || cl.app.value.status.error == message
  }

  predicate BothRefused(ans: Answers) { ans.write1 == Refused && ans.write2 == Refused }

  // The deferred write of an error changes the cluster unless it is refused or the same status is
  // stored already.
  lemma ConcludeChanges(w: Work, ans: Answers)
    requires w.cl.app.Some? && w.fault.Failed?
    ensures var w1 := Conclude(w, ans);
            && w1.result == w.result && w1.cl.pods == w.cl.pods && w1.cl.now == w.cl.now
            && (w1.cl == w.cl <==>
                  || ans.write2 == Refused
                  || w.cl.app.value.status ==
                     w.mem.status.(error := w.fault.message, lastTransition := Truncate(w.mem.status.lastTransition)))
  {
  }

  // A transition to another phase leaves the app as it was only if both writes are refused.
  lemma TransitChanges(w: Work, phase: Phase, ans: Answers)
    requires w.cl.app.Some? && w.cl.app.value.status.phase != phase
    requires phase == Live ==> w.mem.status.podName != "" && Runnable(w.mem.spec)
    ensures var w1 := Transit(w, phase, ans.write1);
            && w1.result == w.result && w1.fault != Panicked && w1.cl.app.Some?
            && w1.cl.pods == w.cl.pods && Conclude(w1, ans).cl.pods == w.cl.pods
            && Conclude(w1, ans).result == w.result && Conclude(w1, ans).cl.now == w.cl.now
            && (w1.fault == Fine <==> ans.write1 == Done)
            && (Conclude(w1, ans).cl.app == w.cl.app <==> BothRefused(ans))
  {
    var w1 := Transit(w, phase, ans.write1);
    if w1.fault.Failed? {
      ConcludeChanges(w1, ans);
    }
  }

  // --- the idle timer -------------------------------------------------------------------------

  // Before the idle duration has passed a reconcile changes nothing and asks to come back when it
  // has; after that it shuts the app down if its write succeeds. Nothing else leaves
  // WaitingForSessions for ShuttingDown.
  lemma IdleTimer(cfg: Config, cl: Cluster, ans: Answers)
    requires Safe(cfg, cl) && cl.app.Some? && ValidateApp(cl.app.value.spec).None?
    requires cl.app.value.status.phase == WaitingForSessions
    ensures var w, due := Reconcile(cfg, cl, ans), cl.app.value.status.lastTransition + cfg.idle;
            cl.app.value.spec.target == Rest && cl.now < due ==>
              w.cl == cl && w.stored == [] && (ans.get ==> 0 < w.result.after <= cfg.idle && cl.now + w.result.after == due)
    ensures var w, due := Reconcile(cfg, cl, ans), cl.app.value.status.lastTransition + cfg.idle;
            cl.app.value.spec.target == Rest && cl.now >= due && ans.get && ans.write1 == Done ==>
              w.cl.app.Some? && w.cl.app.value.status.phase == ShuttingDown
    ensures var w, due := Reconcile(cfg, cl, ans), cl.app.value.status.lastTransition + cfg.idle;
            w.cl.app.Some? && w.cl.app.value.status.phase == ShuttingDown ==>
              cl.app.value.spec.target == Rest && cl.now >= due
  {
    PhaseGraph(cfg, cl, ans);
  }

  ghost predicate InPhase(cl: Cluster, phase: Phase) {
    cl.app.Some? && cl.app.value.status.phase == phase
  }

  // Every state of the run is in the phase.
  ghost predicate StaysIn(cfg: Config, cl: Cluster, evs: seq<Event>, phase: Phase)
    decreases |evs|
  {
    InPhase(cl, phase) && (evs != [] ==> StaysIn(cfg, Step(cfg, cl, evs[0]), evs[1..], phase))
  }

  lemma {:induction false} TimerKept(cfg: Config, cl: Cluster, evs: seq<Event>)
    requires Safe(cfg, cl) && StaysIn(cfg, cl, evs, WaitingForSessions)
    ensures InPhase(Run(cfg, cl, evs), WaitingForSessions) && Safe(cfg, Run(cfg, cl, evs))
    ensures Run(cfg, cl, evs).app.value.status.lastTransition == cl.app.value.status.lastTransition
    decreases |evs|
  {
    if evs != [] {
      if evs[0].Reconciling? {
        PhaseGraph(cfg, cl, evs[0].ans);
      }
      StepOk(cfg, cl, evs[0]);
      TimerKept(cfg, Step(cfg, cl, evs[0]), evs[1..]);
    }
  }

  // Whatever else happens, an app that a reconcile put into WaitingForSessions and that a later one
  // moves on to ShuttingDown has been idle for the whole duration, less the second lost in storing
  // the time of the transition.
  lemma NoEarlyShutdown(cfg: Config, cl: Cluster, first: Answers, evs: seq<Event>, last: Answers)
    requires Safe(cfg, cl) && cl.app.Some? && cl.app.value.status.phase != WaitingForSessions
    requires StaysIn(cfg, Step(cfg, cl, Reconciling(first)), evs, WaitingForSessions)
    requires var before := Run(cfg, Step(cfg, cl, Reconciling(first)), evs);
             before.app.Some? && ValidateApp(before.app.value.spec).None?
             && InPhase(Step(cfg, before, Reconciling(last)), ShuttingDown)
    ensures var end := Run(cfg, Step(cfg, cl, Reconciling(first)), evs).now;
            end >= Truncate(cl.now) + cfg.idle && end > cl.now + cfg.idle - SECOND
  {
    PhaseGraph(cfg, cl, first);
    StepOk(cfg, cl, Reconciling(first));
    var entered := Step(cfg, cl, Reconciling(first));
    TimerKept(cfg, entered, evs);
    var before := Run(cfg, entered, evs);
    IdleTimer(cfg, before, last);
    TruncateBelow(cl.now);
  }

  // With the target at Rest and the write done, the reconcile after the wait shuts the app down
  // exactly from the second of its entry plus the idle duration on.
  lemma ShutsDownIff(cfg: Config, cl: Cluster, first: Answers, evs: seq<Event>, last: Answers)
    requires Safe(cfg, cl) && cl.app.Some? && cl.app.value.status.phase != WaitingForSessions
    requires StaysIn(cfg, Step(cfg, cl, Reconciling(first)), evs, WaitingForSessions)
    requires RestsAtEnd(Run(cfg, Step(cfg, cl, Reconciling(first)), evs)) && last.get && last.write1 == Done
    ensures var before := Run(cfg, Step(cfg, cl, Reconciling(first)), evs);
            InPhase(Step(cfg, before, Reconciling(last)), ShuttingDown) <==> before.now >= Truncate(cl.now) + cfg.idle
  {
    PhaseGraph(cfg, cl, first);
    StepOk(cfg, cl, Reconciling(first));
    var entered := Step(cfg, cl, Reconciling(first));
    TimerKept(cfg, entered, evs);
    IdleTimer(cfg, Run(cfg, entered, evs), last);
  }

  predicate RestsAtEnd(cl: Cluster) {
    cl.app.Some? && ValidateApp(cl.app.value.spec).None? && cl.app.value.spec.target == Rest
  }

  // An app in phase Live whose target has just become Rest, at 10.9 seconds.
  const CLOSED_LATE := Cluster(Some(CliApp("app", AN_APP, Status(Live, 0, "app-x", ""))), [], 10_900_000_000)

  const IDLING := CLOSED_LATE.(app := Some(CliApp("app", AN_APP, Status(WaitingForSessions, 10 * SECOND, "app-x", ""))))

  lemma BeginsToIdle(cfg: Config)
    requires cfg.idle == 5 * SECOND
    ensures Step(cfg, CLOSED_LATE, Reconciling(NO_POD)) == IDLING
  {
  }

  lemma StopsIdling(cfg: Config, cl: Cluster)
    requires cfg.idle == 5 * SECOND && cl == IDLING.(now := 15 * SECOND)
    ensures InPhase(Step(cfg, cl, Reconciling(NO_POD)), ShuttingDown)
  {
  }

  // It is shut down at 15.0 seconds, 4.1 seconds after it began to idle, though the idle duration is 5.
  lemma EarlyShutdown(cfg: Config)
    requires cfg.idle == 5 * SECOND
    ensures var entered := Step(cfg, CLOSED_LATE, Reconciling(NO_POD));
            var before := Run(cfg, entered, [Tick(4_100_000_000)]);
            && Safe(cfg, CLOSED_LATE) && StaysIn(cfg, entered, [Tick(4_100_000_000)], WaitingForSessions)
            && InPhase(Step(cfg, before, Reconciling(NO_POD)), ShuttingDown)
            && before.now - CLOSED_LATE.now < cfg.idle
  {
    var evs := [Tick(4_100_000_000)];
    BeginsToIdle(cfg);
    assert evs[1..] == [];
    var before := Step(cfg, IDLING, evs[0]);
    assert Run(cfg, IDLING, evs) == Run(cfg, before, []) == before;
    StopsIdling(cfg, before);
  }
}
