/**
 The controller as it works: on a copy of the app that it updates in place, on Pods that it lists,
 sorts and deletes one by one, and on a store that changes only when a write goes through. Each
 method does exactly what Reconciler says.
 */
module Controllers {
  import opened Wrappers
  import opened CliApps
  import opened Reconciler
  import opened ReconcilerSafety
  import opened ReconcilerPhases
  import PodAssembly

  // The object read at the start of a reconcile.
  class AppObject {
    const name: string
    var spec: Spec
    var status: Status

    constructor (app: CliApp)
      ensures Value() == app
    {
      name, spec, status := app.name, app.spec, app.status;
    }

    function Value(): CliApp
      reads this
    {
      CliApp(name, spec, status)
    }
  }

  // --- sorting Pods ---------------------------------------------------------------------------

  function Terminating(pods: seq<Pod>): seq<Pod> { Select(pods, IsTerminating) }

  lemma {:induction false} SelectSnoc(pods: seq<Pod>, test: Pod -> bool, p: Pod)
    ensures Select(pods + [p], test) == Select(pods, test) + (if test(p) then [p] else [])
    decreases |pods|
  {
    if pods == [] {
      assert [p][1..] == [];
    } else {
      assert (pods + [p])[1..] == pods[1..] + [p] && (pods + [p])[0] == pods[0];
      SelectSnoc(pods[1..], test, p);
    }
  }

  lemma {:induction false} SelectCounts(pods: seq<Pod>, p: Pod, test: Pod -> bool)
    ensures multiset(Select(pods, test))[p] == if test(p) then multiset(pods)[p] else 0
    decreases |pods|
  {
    if pods != [] {
      SelectCounts(pods[1..], p, test);
      assert pods == [pods[0]] + pods[1..];
    }
  }

  // The three groups are a partition: nothing is lost and nothing appears twice.
  lemma GroupsPartition(pods: seq<Pod>)
    ensures multiset(Terminating(pods)) + multiset(Ready(pods)) + multiset(Starting(pods)) == multiset(pods)
  {
    forall p: Pod
      ensures (multiset(Terminating(pods)) + multiset(Ready(pods)) + multiset(Starting(pods)))[p] == multiset(pods)[p]
    {
      SelectCounts(pods, p, IsTerminating);
      SelectCounts(pods, p, IsReady);
      SelectCounts(pods, p, IsStarting);
    }
  }

  lemma TerminatingIffAny(pods: seq<Pod>)
    ensures Terminating(pods) != [] <==> AnyTerminating(pods)
  {
    forall p: Pod ensures p in Terminating(pods) <==> p in pods && p.terminating {
      SelectHas(pods, IsTerminating, p);
    }
    if Terminating(pods) != [] {
      assert Terminating(pods)[0] in Terminating(pods);
    }
  }

  method GroupPods(pods: seq<Pod>) returns (terminating: seq<Pod>, ready: seq<Pod>, starting: seq<Pod>)
    ensures terminating == Terminating(pods) && ready == Ready(pods) && starting == Starting(pods)
  {
    terminating, ready, starting := [], [], [];
    for i := 0 to |pods|
      invariant terminating == Terminating(pods[..i])
      invariant ready == Ready(pods[..i]) && starting == Starting(pods[..i])
    {
      var pod := pods[i];
      assert pods[..i + 1] == pods[..i] + [pod];
      SelectSnoc(pods[..i], IsTerminating, pod);
      SelectSnoc(pods[..i], IsReady, pod);
      SelectSnoc(pods[..i], IsStarting, pod);
      if pod.terminating {
        terminating := terminating + [pod];
      } else if pod.ready {
        ready := ready + [pod];
      } else {
        starting := starting + [pod];
      }
    }
    assert pods[..|pods|] == pods;
  }

  // --- claiming -------------------------------------------------------------------------------

  function Carries(spec: Spec): Pod -> bool {
    (p: Pod) => Matches(p, spec)
  }

  function Matching(pods: seq<Pod>, spec: Spec): seq<Pod> { Select(pods, Carries(spec)) }

  lemma {:induction false} MatchingHead(pods: seq<Pod>, spec: Spec)
    ensures Matching(pods, spec) == [] <==> Claimed(pods, spec).None?
    ensures Matching(pods, spec) != [] ==> Claimed(pods, spec) == Some(Matching(pods, spec)[0])
    decreases |pods|
  {
    if pods != [] {
      MatchingHead(pods[1..], spec);
    }
  }

  lemma {:induction false} SelectDistinct(pods: seq<Pod>, test: Pod -> bool)
    requires DistinctNames(pods)
    ensures DistinctNames(Select(pods, test))
    decreases |pods|
  {
    if pods != [] {
      forall i, j | 0 <= i < j < |pods[1..]| ensures pods[1..][i].name != pods[1..][j].name {
        assert pods[1..][i] == pods[i + 1] && pods[1..][j] == pods[j + 1];
      }
      SelectDistinct(pods[1..], test);
      var rest := Select(pods[1..], test);
      forall k | 0 <= k < |rest| ensures rest[k].name != pods[0].name {
        SelectHas(pods[1..], test, rest[k]);
        var j :| 0 <= j < |pods[1..]| && pods[1..][j] == rest[k];
        assert pods[j + 1].name != pods[0].name;
      }
    }
  }

  // A Pod that the sorting loop puts on the old list by its annotations alone.
  predicate Outdated(cfg: Config, spec: Spec, p: Pod) {
    !p.terminating && (p.hash != Some(cfg.hash(spec)) || p.dump != Some(spec))
  }

  // The outdated Pods and all matches but the first are the Pods to recycle.
  lemma RecycledNames(cfg: Config, pods: seq<Pod>, spec: Spec, listed: seq<Pod>)
    requires DistinctNames(pods)
    requires forall p :: p in listed <==>
               ((p in pods && Outdated(cfg, spec, p)) || (Matching(pods, spec) != [] && p in Matching(pods, spec)[1..]))
    ensures Names(listed) == OldNames(cfg, pods, spec)
  {
    MatchingHead(pods, spec);
    SelectDistinct(pods, Carries(spec));
    var found := Matching(pods, spec);
    forall p: Pod ensures p in found <==> p in pods && Matches(p, spec) {
      SelectHas(pods, Carries(spec), p);
    }
    forall p | p in pods ensures p in listed <==> IsOld(cfg, pods, spec, p) {
      if found != [] && p in found[1..] {
        var j :| 0 <= j < |found[1..]| && found[1..][j] == p;
        assert found[0].name != found[j + 1].name;
      }
      if Matches(p, spec) && Claimed(pods, spec) != Some(p) {
        assert found == [found[0]] + found[1..];
      }
    }
    assert forall p :: p in listed ==> p in pods;
  }

  lemma DeleteOneMore(pods: seq<Pod>, doomed: set<string>, name: string, undeletable: set<string>)
    ensures Delete(Delete(pods, doomed, undeletable), {name}, undeletable) == Delete(pods, doomed + {name}, undeletable)
  {
  }

  lemma NamesSnoc(pods: seq<Pod>, p: Pod)
    ensures Names(pods + [p]) == Names(pods) + {p.name}
  {
    assert p in pods + [p];
    assert forall q :: q in pods ==> q in pods + [p];
  }

  // What the creation of a Pod comes to: there is one exactly if there is a manifest and it assembles.
  ghost function CreationOf(app: CliApp, manifest: bool, defaults: PodAssembly.Defaults,
                            data: Option<map<string, string>>, image: Option<PodAssembly.ImageConfig>,
                            suffix: string, at: nat, reply: Write): Creation {
    if manifest && PodAssembly.Assembles(defaults, app.spec, data, image)
    then NewPod(app.name + "-" + suffix, at, reply)
    else NoPod
  }

  class Controller {
    const cfg: Config
    // The API server: the stored app, the Pods labelled with it, and the time.
    var app: Option<CliApp>
    var pods: seq<Pod>
    var now: int
    // Statuses stored by the reconcile under way.
    var stored: seq<Status>

    constructor (cfg: Config, cl: Cluster)
      ensures this.cfg == cfg && Cluster() == cl && stored == []
    {
      this.cfg := cfg;
      app, pods, now, stored := cl.app, cl.pods, cl.now, [];
    }

    function Cluster(): Cluster
      reads this
    {
      Reconciler.Cluster(app, pods, now)
    }

    ghost function View(mem: AppObject, result: Result, fault: Fault): Work
      reads this, mem
    {
      Work(mem.Value(), Cluster(), stored, result, fault)
    }

    method UpdateStatus(mem: AppObject, a: Write, ghost r: Result) returns (fault: Fault)
      modifies this`app, this`stored, mem`status
      ensures View(mem, r, fault) == WriteStatus(old(View(mem, r, Fine)), a)
    {
      var s := mem.status.(lastTransition := Truncate(mem.status.lastTransition));
      if a == Refused || app.None? {
        return Failed(CANNOT_UPDATE);
      }
      app := Some(WithStatus(app.value, s));
      stored := stored + [s];
      if a == Lost {
        return Failed(CANNOT_UPDATE);
      }
      mem.status := s;
      fault := Fine;
    }

    method TransitPhaseTo(mem: AppObject, phase: Phase, a: Write, ghost r: Result) returns (fault: Fault)
      modifies this`app, this`stored, mem`status
      ensures View(mem, r, fault) == Transit(old(View(mem, r, Fine)), phase, a)
    {
      mem.status := mem.status.(phase := phase, lastTransition := now);
      if phase == Live {
        if mem.status.podName == "" {
          return Panicked;
        }
        if mem.spec.image == "" && mem.spec.fork.None? {
          return Panicked;
        }
      }
      if phase == Rest {
        mem.status := mem.status.(podName := "");
      }
      fault := UpdateStatus(mem, a, r);
    }

    // Delete the listed Pods one by one, a Pod may be listed twice; the last answer is returned.
    method DeletePods(targets: seq<Pod>, undeletable: set<string>) returns (refused: bool)
      modifies this`pods
      ensures pods == Delete(old(pods), Names(targets), undeletable)
      ensures refused <==> targets != [] && targets[|targets| - 1].name in undeletable
    {
      refused := false;
      for i := 0 to |targets|
        invariant pods == Delete(old(pods), Names(targets[..i]), undeletable)
        invariant refused <==> i > 0 && targets[i - 1].name in undeletable
      {
        assert targets[..i + 1] == targets[..i] + [targets[i]];
        NamesSnoc(targets[..i], targets[i]);
        DeleteOneMore(old(pods), Names(targets[..i]), targets[i].name, undeletable);
        pods := Delete(pods, {targets[i].name}, undeletable);
        refused := targets[i].name in undeletable;
      }
      assert targets[..|targets|] == targets;
    }

    // claimPods: sort the live Pods into old and new ones, where a Pod may land on the old list
    // twice or on both lists, then recycle.
    method ClaimPods(spec: Spec, list: bool, undeletable: set<string>) returns (ok: bool, pod: Option<Pod>)
      requires DistinctNames(pods)
      modifies this`pods
      ensures ok == list && (!list ==> pods == old(pods))
      ensures ok ==> pod == Claimed(old(pods), spec)
      ensures ok ==> pods == Delete(old(pods), OldNames(cfg, old(pods), spec), undeletable)
    {
      if !list {
        return false, None;
      }
      var podList := pods;
      var oldPods: seq<Pod>, newPods: seq<Pod> := [], [];
      for i := 0 to |podList|
        invariant pods == podList && newPods == Matching(podList[..i], spec)
        invariant forall p :: p in oldPods <==> p in podList[..i] && Outdated(cfg, spec, p)
      {
        var p := podList[i];
        assert podList[..i + 1] == podList[..i] + [p];
        SelectSnoc(podList[..i], Carries(spec), p);
        if p.terminating {
          continue;
        }
        if p.hash != Some(cfg.hash(spec)) || p.dump.None? {
          oldPods := oldPods + [p];
        }
        if p.dump != Some(spec) {
          oldPods := oldPods + [p];
        } else {
          newPods := newPods + [p];
        }
      }
      assert podList[..|podList|] == podList;
      if |newPods| > 1 {
        oldPods := oldPods + newPods[1..];
      }
      RecycledNames(cfg, podList, spec, oldPods);
      var _ := DeletePods(oldPods, undeletable);
      MatchingHead(podList, spec);
      pod := if |newPods| > 0 then Some(newPods[0]) else None;
      ok := true;
    }

    // Create a Pod with the two annotations.
    method Create(name: string, hash: Option<int>, dump: Option<Spec>, at: nat, reply: Write) returns (fault: Fault)
      modifies this`pods
      ensures var taken := reply == Refused || name == "" || name in Names(old(pods));
              && pods == (if taken then old(pods) else Insert(old(pods), Pod(name, hash, dump, false, false), at))
              && fault == if taken || reply == Lost then Failed(CANNOT_CREATE) else Fine
    {
      if reply == Refused || name == "" || name in Names(pods) {
        return Failed(CANNOT_CREATE);
      }
      var k := if at <= |pods| then at else |pods|;
      pods := pods[..k] + [Pod(name, hash, dump, false, false)] + pods[k..];
      fault := if reply == Lost then Failed(CANNOT_CREATE) else Fine;
    }

    // startApp, with the outcome of the assembly among the answers.
    method StartApp(mem: AppObject, ans: Answers, ghost r: Result) returns (fault: Fault)
      modifies this`pods
      ensures View(mem, r, fault) == StartPod(cfg, old(View(mem, r, Fine)), ans)
    {
      match ans.create
      case NoPod => fault := Failed(CANNOT_CREATE);
      case NewPod(name, at, reply) =>
        fault := Create(name, Some(cfg.hash(mem.spec)), Some(mem.spec), at, reply);
    }

    // Assemble the Pod and put both annotations on it.
    method Annotate(pod: PodAssembly.PodObject, target: nat, app: CliApp, namespace: string, suffix: string,
                    defaults: PodAssembly.Defaults, data: Option<map<string, string>>, image: Option<PodAssembly.ImageConfig>)
      returns (fault: Fault)
      requires target < |pod.containers|
      modifies pod
      ensures fault in {Fine, Failed(CANNOT_CREATE), Panicked}
      ensures fault == Fine <==> PodAssembly.Assembles(defaults, app.spec, data, image)
      ensures fault == Panicked ==> data.Some? && !ValidShell(PodAssembly.ShellOf(defaults, app.spec))
      ensures ValidShell(defaults.shell) && ValidateApp(app.spec).None? ==> fault != Panicked
      ensures fault == Fine ==>
                && pod.name == app.name + "-" + suffix && pod.labels == old(pod.labels)[PodAssembly.APP_LABEL := app.name]
                && pod.specHash == Some(cfg.hash(app.spec)) && pod.specDump == Some(app.spec)
    {
      var applied := PodAssembly.ApplyAppConfig(pod, target, app, namespace, suffix, defaults, data, image);
      match applied
      case Error(_) => fault := Failed(CANNOT_CREATE);
      case Panicked => fault := Panicked;
      case Success =>
        pod.specDump := Some(app.spec);
        pod.specHash := Some(cfg.hash(app.spec));
        fault := Fine;
    }

    // startApp in full: take the manifest, assemble it, annotate it, create the Pod. What it does to
    // the cluster is what StartApp does with the answer the assembly comes to.
    method StartFromManifest(mem: AppObject, manifest: Option<PodAssembly.PodObject>, target: nat,
                             namespace: string, suffix: string, defaults: PodAssembly.Defaults,
                             data: Option<map<string, string>>, image: Option<PodAssembly.ImageConfig>,
                             at: nat, reply: Write, ghost ans: Answers, ghost r: Result)
      returns (fault: Fault)
      requires manifest.Some? ==> target < |manifest.value.containers|
      modifies this`pods, if manifest.Some? then {manifest.value} else {}
      ensures fault == Panicked ==>
                pods == old(pods) && data.Some? && !ValidShell(PodAssembly.ShellOf(defaults, mem.spec))
      ensures ValidShell(defaults.shell) && ValidateApp(mem.spec).None? ==> fault != Panicked
      ensures fault != Panicked ==>
                View(mem, r, fault) ==
                StartPod(cfg, old(View(mem, r, Fine)),
                         ans.(create := CreationOf(mem.Value(), manifest.Some?, defaults, data, image, suffix, at, reply)))
    {
      if manifest.None? {
        return Failed(CANNOT_CREATE);
      }
      var pod := manifest.value;
      fault := Annotate(pod, target, mem.Value(), namespace, suffix, defaults, data, image);
      if fault != Fine {
        return;
      }
      fault := Create(pod.name, pod.specHash, pod.specDump, at, reply);
    }

    // The two phases of makeAppLive that claim a Pod.
    method ReconcilePods(mem: AppObject, ans: Answers, ghost r: Result) returns (fault: Fault)
      requires DistinctNames(pods) && mem.status.phase in {Live, Recovering}
      modifies this`app, this`stored, this`pods, mem`status
      ensures View(mem, r, fault) ==
              if old(mem.status.phase) == Live then ReconcileLive(cfg, old(View(mem, r, Fine)), ans)
              else ReconcileRecovering(cfg, old(View(mem, r, Fine)), ans)
    {
      var ok, newPod := ClaimPods(mem.spec, ans.list, ans.undeletable);
      if !ok {
        return Failed(CANNOT_FETCH);
      }
      if newPod.Some? && newPod.value.ready {
        if mem.status.phase == Recovering {
          mem.status := mem.status.(podName := newPod.value.name);
          fault := TransitPhaseTo(mem, Live, ans.write1, r);
        } else if mem.status.podName != newPod.value.name {
          mem.status := mem.status.(podName := newPod.value.name);
          fault := UpdateStatus(mem, ans.write1, r);
        } else {
          fault := Fine;
        }
        return;
      }
      if mem.status.phase == Live {
        mem.status := mem.status.(podName := "");
        fault := TransitPhaseTo(mem, Recovering, ans.write1, r);
      } else if newPod.None? {
        fault := StartApp(mem, ans, r);
      } else {
        fault := Fine;
      }
    }

    method ReconcileBuilding(mem: AppObject, ans: Answers) returns (result: Result, fault: Fault)
      requires mem.status.phase == Building
      modifies this`app, this`stored, mem
      ensures View(mem, result, fault) == Reconciler.ReconcileBuilding(old(View(mem, Result(false, 0), Fine)), ans)
    {
      result := Result(false, 0);
      if mem.spec.image == "" {
        if !ans.built {
          return Result(false, DEFAULT_REQUEUE), Fine;
        }
        mem.spec := mem.spec.(image := BuiltImage(mem.name));
        if ans.specWrite != Refused && app.Some? {
          app := Some(WithSpec(app.value, mem.spec));
        }
        if ans.specWrite != Done || app.None? {
          return Result(false, DEFAULT_REQUEUE), Failed(CANNOT_UPDATE);
        }
        mem.status := app.value.status;
      }
      fault := TransitPhaseTo(mem, Recovering, ans.write1, result);
      if fault == Fine {
        result := Result(true, 0);
      }
    }

    method MakeAppLive(mem: AppObject, ans: Answers) returns (result: Result, fault: Fault)
      requires DistinctNames(pods)
      modifies this`app, this`stored, this`pods, mem
      ensures View(mem, result, fault) == Reconciler.MakeAppLive(cfg, old(View(mem, Result(false, 0), Fine)), ans)
    {
      result := Result(false, 0);
      if mem.spec.target != Live {
        return result, Panicked;
      }
      if mem.spec.fork.None? && mem.status.phase != Building && mem.spec.image == "" {
        if mem.spec.dockerfile == "" {
          return result, Failed("specify either image or dockerfile for the app");
        }
        if !cfg.hasBuilder {
          return result, Failed("unable to build image since no image builder installed");
        }
        fault := TransitPhaseTo(mem, Building, ans.write1, result);
        if fault == Fine {
          result := Result(false, DEFAULT_REQUEUE);
        }
        return;
      }
      match mem.status.phase
      case Live => fault := ReconcilePods(mem, ans, result);
      case Recovering => fault := ReconcilePods(mem, ans, result);
      case Building => result, fault := ReconcileBuilding(mem, ans);
      case _ =>
        fault := TransitPhaseTo(mem, Recovering, ans.write1, result);
        result := Result(true, 0);
    }

    method ShutPodsDown(mem: AppObject, ans: Answers) returns (result: Result, fault: Fault)
      modifies this`app, this`stored, this`pods, mem`status
      ensures View(mem, result, fault) == ReconcileShuttingDown(old(View(mem, Result(false, 0), Fine)), ans)
    {
      result := Result(false, 0);
      if !ans.list {
        return result, Failed(CANNOT_LIST);
      }
      if pods == [] {
        if mem.spec.uninstall {
          if ans.appDelete != Refused {
            app := None;
          }
          fault := if ans.appDelete == Done then Fine else Failed(CANNOT_DELETE_APP);
        } else {
          fault := TransitPhaseTo(mem, Rest, ans.write1, result);
        }
        return;
      }
      result := Result(false, DEFAULT_REQUEUE);
      var terminating, ready, starting := GroupPods(pods);
      TerminatingIffAny(pods);
      if |terminating| > 0 {
        return result, Fine;
      }
      var refused := DeletePods(ready + starting, ans.undeletable);
      fault := if refused then Failed(CANNOT_DELETE_POD) else Fine;
    }

    method MakeAppRest(mem: AppObject, ans: Answers) returns (result: Result, fault: Fault)
      modifies this`app, this`stored, this`pods, mem`status
      ensures View(mem, result, fault) == Reconciler.MakeAppRest(cfg, old(View(mem, Result(false, 0), Fine)), ans)
    {
      result := Result(false, 0);
      if mem.spec.target != Rest {
        return result, Panicked;
      }
      if mem.status.phase == WaitingForSessions {
        var elapse := now - mem.status.lastTransition;
        if elapse < cfg.idle {
          return Result(false, cfg.idle - elapse), Fine;
        }
      }
      match mem.status.phase
      case Live =>
        if mem.spec.uninstall {
          result := Result(true, 0);
          mem.status := mem.status.(podName := "");
          fault := TransitPhaseTo(mem, ShuttingDown, ans.write1, result);
        } else {
          result := Result(true, cfg.idle);
          fault := TransitPhaseTo(mem, WaitingForSessions, ans.write1, result);
        }
      case ShuttingDown => result, fault := ShutPodsDown(mem, ans);
      case Building =>
        fault := TransitPhaseTo(mem, ShuttingDown, ans.write1, result);
        if fault == Fine {
          result := Result(true, 0);
        }
      case Rest => fault := Panicked;
      case _ =>
        fault := TransitPhaseTo(mem, ShuttingDown, ans.write1, result);
        result := Result(true, 0);
    }

    method Dispatch(mem: AppObject, ans: Answers) returns (result: Result, fault: Fault)
      requires DistinctNames(pods)
      modifies this`app, this`stored, this`pods, mem
      ensures View(mem, result, fault) == Reconciler.Dispatch(cfg, old(View(mem, Result(false, 0), Fine)), ans)
    {
      result, fault := Result(false, 0), Fine;
      var invalid := ValidateApp(mem.spec);
      if invalid.Some? {
        return result, Failed(invalid.value);
      }
      if mem.spec.target == Rest {
        if mem.status.phase != Rest {
          result, fault := MakeAppRest(mem, ans);
        }
      } else {
        result, fault := MakeAppLive(mem, ans);
      }
    }

    // Reconcile, with its deferred write of the error.
    method Reconcile(ans: Answers) returns (result: Result)
      requires DistinctNames(pods)
      modifies this`app, this`stored, this`pods
      ensures old(app).None? ==> Cluster() == old(Cluster()) && stored == []
      ensures old(app).Some? ==>
                var w := Reconciler.Reconcile(cfg, old(Cluster()), ans);
                Cluster() == w.cl && stored == w.stored && (w.fault == Fine ==> result == w.result)
    {
      stored, result := [], Result(false, 0);
      if app.None? {
        return;
      }
      if !ans.get {
        return Result(true, 0);
      }
      ghost var cl := Cluster();
      var mem := new AppObject(app.value);
      mem.status := mem.status.(error := "");
      assert View(mem, result, Fine) == Begin(cl, cl.app.value);
      var fault;
      result, fault := Dispatch(mem, ans);
      if fault.Failed? {
        mem.status := mem.status.(error := fault.message);
        fault := UpdateStatus(mem, ans.write2, result);
      }
    }

    // From a safe cluster a reconcile leads to a safe one, and stores only well-formed statuses.
    method SafeReconcile(ans: Answers) returns (result: Result)
      requires Safe(cfg, Cluster())
      modifies this`app, this`stored, this`pods
      ensures Safe(cfg, Cluster()) && forall s :: s in stored ==> StatusOk(s)
    {
      if app.Some? {
        ReconcileOk(cfg, Cluster(), ans);
      }
      result := Reconcile(ans);
    }
  }
}
