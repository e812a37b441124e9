/**
 One reconcile of a CliApp, as a function of the cluster and of what the API server answers. The
 object read is a copy in memory; only writes reach the store, and a failed reconcile writes the
 copy's status once more with the error.
 */
module Reconciler {
  import opened Wrappers
  import opened CliApps

  // A Pod labelled with the app. hash and dump are its two annotations; the dump of a spec is an
  // injective encoding, so it is represented by the spec itself.
  datatype Pod = Pod(name: string, hash: Option<int>, dump: Option<Spec>, terminating: bool, ready: bool)

  datatype Cluster = Cluster(app: Option<CliApp>, pods: seq<Pod>, now: int)

  // hash may collide.
  datatype Config = Config(idle: int, hasBuilder: bool, hash: Spec -> int)

  // How a write ends: as asked, with an error and no effect, or with an error after the effect.
  datatype Write = Done | Refused | Lost

  datatype Creation = NoPod | NewPod(name: string, at: nat, reply: Write)

  // The answers one reconcile gets.
  datatype Answers = Answers(
    get: bool,
    list: bool,
    write1: Write,
    write2: Write,
    specWrite: Write,
    appDelete: Write,
    undeletable: set<string>,
    built: bool,
    create: Creation)

  datatype Fault = Fine | Failed(message: string) | Panicked

  datatype Result = Result(requeue: bool, after: int)

  // A reconcile under way: the copy in memory, the cluster, and the statuses stored so far.
  datatype Work = Work(mem: CliApp, cl: Cluster, stored: seq<Status>, result: Result, fault: Fault)

  const SECOND := 1_000_000_000
  const DEFAULT_REQUEUE := 5 * SECOND

  // One text for each kind of failing call.
  const CANNOT_UPDATE := "unable to update app"
  const CANNOT_FETCH := "unable to fetch pods"
  const CANNOT_LIST := "unable to list pods"
  const CANNOT_CREATE := "unable to create pod"
  const CANNOT_DELETE_POD := "unable to delete pod"
  const CANNOT_DELETE_APP := "unable to delete app"

  // Times are stored to the second.
  function Truncate(t: int): int { t - t % SECOND }

  function WithSpec(app: CliApp, spec: Spec): CliApp { app.(spec := spec) }
  function WithStatus(app: CliApp, status: Status): CliApp { app.(status := status) }

  function WithPodName(w: Work, podName: string): Work {
    w.(mem := WithStatus(w.mem, w.mem.status.(podName := podName)))
  }

  // Status().Update with the copy in memory.
  function WriteStatus(w: Work, a: Write): Work {
    var s := w.mem.status.(lastTransition := Truncate(w.mem.status.lastTransition));
    if a == Refused || w.cl.app.None? then
      w.(fault := Failed(CANNOT_UPDATE))
    else
      var w1 := w.(cl := w.cl.(app := Some(WithStatus(w.cl.app.value, s))), stored := w.stored + [s]);
      if a == Lost then w1.(fault := Failed(CANNOT_UPDATE))
      else w1.(mem := WithStatus(w.mem, s), fault := Fine)
  }

  predicate Runnable(spec: Spec) { spec.image != "" || spec.fork.Some? }

  function Transit(w: Work, phase: Phase, a: Write): Work {
    var s := w.mem.status.(phase := phase, lastTransition := w.cl.now);
    if phase == Live && (s.podName == "" || !Runnable(w.mem.spec)) then
      w.(mem := WithStatus(w.mem, s), fault := Panicked)
    else
      var s1 := if phase == Rest then s.(podName := "") else s;
      WriteStatus(w.(mem := WithStatus(w.mem, s1)), a)
  }

  // Delete every Pod named in doomed, except where the server refuses.
  function Delete(pods: seq<Pod>, doomed: set<string>, undeletable: set<string>): seq<Pod> {
    seq(|pods|, i requires 0 <= i < |pods| =>
      if pods[i].name in doomed && pods[i].name !in undeletable then pods[i].(terminating := true) else pods[i])
  }

  predicate Matches(p: Pod, spec: Spec) { !p.terminating && p.dump == Some(spec) }

  // The first live Pod that carries the dump of the spec.
  function Claimed(pods: seq<Pod>, spec: Spec): Option<Pod> {
    if pods == [] then None
    else if Matches(pods[0], spec) then Some(pods[0])
    else Claimed(pods[1..], spec)
  }

  // Pods that claimPods puts on its list of old Pods.
  predicate IsOld(cfg: Config, pods: seq<Pod>, spec: Spec, p: Pod) {
    && !p.terminating
    && (p.hash != Some(cfg.hash(spec)) || p.dump != Some(spec) || Claimed(pods, spec) != Some(p))
  }

  function OldNames(cfg: Config, pods: seq<Pod>, spec: Spec): set<string> {
    set p | p in pods && IsOld(cfg, pods, spec, p) :: p.name
  }

  function Claim(cfg: Config, w: Work, ans: Answers): Work {
    w.(cl := w.cl.(pods := Delete(w.cl.pods, OldNames(cfg, w.cl.pods, w.mem.spec), ans.undeletable)))
  }

  function Names(pods: seq<Pod>): set<string> { set p | p in pods :: p.name }

  function Insert(pods: seq<Pod>, p: Pod, at: nat): seq<Pod> {
    var k := if at <= |pods| then at else |pods|;
    pods[..k] + [p] + pods[k..]
  }

  function FreshPod(cfg: Config, name: string, spec: Spec): Pod {
    Pod(name, Some(cfg.hash(spec)), Some(spec), false, false)
  }

  // startApp of the controller: create a Pod carrying hash and dump of the spec.
  function StartPod(cfg: Config, w: Work, ans: Answers): Work {
    match ans.create
    case NoPod => w.(fault := Failed(CANNOT_CREATE))
    case NewPod(name, at, reply) =>
      if reply == Refused || name == "" || name in Names(w.cl.pods) then
        w.(fault := Failed(CANNOT_CREATE))
      else
        var w1 := w.(cl := w.cl.(pods := Insert(w.cl.pods, FreshPod(cfg, name, w.mem.spec), at)));
        if reply == Lost then w1.(fault := Failed(CANNOT_CREATE)) else w1
  }

  function BuiltImage(name: string): string { "docker.io/warmmetal/" + name + ":v1" }

  function ReconcileBuilding(w: Work, ans: Answers): Work {
    if w.mem.spec.image != "" then
      LeaveBuilding(w, ans)
    else if !ans.built then
      w.(result := w.result.(after := DEFAULT_REQUEUE))
    else
      var spec := w.mem.spec.(image := BuiltImage(w.mem.name));
      var w1 := w.(mem := WithSpec(w.mem, spec));
      var w2 := if ans.specWrite == Refused || w.cl.app.None? then w1
                else w1.(cl := w.cl.(app := Some(WithSpec(w.cl.app.value, spec))));
      if ans.specWrite != Done || w.cl.app.None? then
        w2.(result := w.result.(after := DEFAULT_REQUEUE), fault := Failed(CANNOT_UPDATE))
      else
        // The answer to the update carries the stored status.
        LeaveBuilding(w2.(mem := WithStatus(w2.mem, w2.cl.app.value.status)), ans)
  }

  function LeaveBuilding(w: Work, ans: Answers): Work {
    var w1 := Transit(w, Recovering, ans.write1);
    if w1.fault == Fine then w1.(result := w1.result.(requeue := true)) else w1
  }

  function ReconcileLive(cfg: Config, w: Work, ans: Answers): Work {
    if !ans.list then w.(fault := Failed(CANNOT_FETCH)) else
    var pod := Claimed(w.cl.pods, w.mem.spec);
    var w1 := Claim(cfg, w, ans);
    if pod.Some? && pod.value.ready then
      if w.mem.status.podName == pod.value.name then w1
      else WriteStatus(WithPodName(w1, pod.value.name), ans.write1)
    else
      Transit(WithPodName(w1, ""), Recovering, ans.write1)
  }

  function ReconcileRecovering(cfg: Config, w: Work, ans: Answers): Work {
    if !ans.list then w.(fault := Failed(CANNOT_FETCH)) else
    var pod := Claimed(w.cl.pods, w.mem.spec);
    var w1 := Claim(cfg, w, ans);
    if pod.None? then StartPod(cfg, w1, ans)
    else if pod.value.ready then Transit(WithPodName(w1, pod.value.name), Live, ans.write1)
    else w1
  }

  predicate NeedsBuild(app: CliApp) { app.spec.fork.None? && app.status.phase != Building && app.spec.image == "" }

  function EnterBuilding(cfg: Config, w: Work, ans: Answers): Work {
    if w.mem.spec.dockerfile == "" then
      w.(fault := Failed("specify either image or dockerfile for the app"))
    else if !cfg.hasBuilder then
      w.(fault := Failed("unable to build image since no image builder installed"))
    else
      var w1 := Transit(w, Building, ans.write1);
      if w1.fault == Fine then w1.(result := w1.result.(after := DEFAULT_REQUEUE)) else w1
  }

  function MakeAppLive(cfg: Config, w: Work, ans: Answers): Work {
    if w.mem.spec.target != Live then w.(fault := Panicked)
    else if NeedsBuild(w.mem) then EnterBuilding(cfg, w, ans)
    else match w.mem.status.phase
      case Live => ReconcileLive(cfg, w, ans)
      case Recovering => ReconcileRecovering(cfg, w, ans)
      case Building => ReconcileBuilding(w, ans)
      case _ => Transit(w, Recovering, ans.write1).(result := w.result.(requeue := true))
  }

  function Select(pods: seq<Pod>, test: Pod -> bool): seq<Pod> {
    if pods == [] then []
    else if test(pods[0]) then [pods[0]] + Select(pods[1..], test)
    else Select(pods[1..], test)
  }

  predicate IsTerminating(p: Pod) { p.terminating }
  predicate IsReady(p: Pod) { !p.terminating && p.ready }
  predicate IsStarting(p: Pod) { !p.terminating && !p.ready }

  function Ready(pods: seq<Pod>): seq<Pod> { Select(pods, IsReady) }

  function Starting(pods: seq<Pod>): seq<Pod> { Select(pods, IsStarting) }

  predicate AnyTerminating(pods: seq<Pod>) { exists p :: p in pods && p.terminating }

  // ShuttingDown deletes ready Pods first; only the last failure is returned.
  function Drain(w: Work, ans: Answers): Work {
    var targets := Ready(w.cl.pods) + Starting(w.cl.pods);
    var w1 := w.(cl := w.cl.(pods := Delete(w.cl.pods, Names(targets), ans.undeletable)));
    if targets != [] && targets[|targets| - 1].name in ans.undeletable
    then w1.(fault := Failed(CANNOT_DELETE_POD))
    else w1
  }

  function DeleteApp(w: Work, a: Write): Work {
    var w1 := if a == Refused then w else w.(cl := w.cl.(app := None));
    if a == Done then w1 else w1.(fault := Failed(CANNOT_DELETE_APP))
  }

  function ReconcileShuttingDown(w: Work, ans: Answers): Work {
    if !ans.list then w.(fault := Failed(CANNOT_LIST))
    else if w.cl.pods == [] then
      if w.mem.spec.uninstall then DeleteApp(w, ans.appDelete) else Transit(w, Rest, ans.write1)
    else
      var w1 := w.(result := w.result.(after := DEFAULT_REQUEUE));
      if AnyTerminating(w.cl.pods) then w1 else Drain(w1, ans)
  }

  function ShutDown(w: Work, ans: Answers): Work {
    Transit(w, ShuttingDown, ans.write1).(result := w.result.(requeue := true))
  }

  function MakeAppRest(cfg: Config, w: Work, ans: Answers): Work {
    if w.mem.spec.target != Rest then w.(fault := Panicked)
    else match w.mem.status.phase
      case Live =>
        if w.mem.spec.uninstall
        then Transit(WithPodName(w.(result := Result(true, 0)), ""), ShuttingDown, ans.write1)
        else Transit(w.(result := Result(true, cfg.idle)), WaitingForSessions, ans.write1)
      case WaitingForSessions =>
        var elapse := w.cl.now - w.mem.status.lastTransition;
        if elapse < cfg.idle then w.(result := w.result.(after := cfg.idle - elapse)) else ShutDown(w, ans)
      case Unset => ShutDown(w, ans)
      case Recovering => ShutDown(w, ans)
      case ShuttingDown => ReconcileShuttingDown(w, ans)
      case Building =>
        var w1 := Transit(w, ShuttingDown, ans.write1);
        if w1.fault == Fine then w1.(result := w1.result.(requeue := true)) else w1
      case Rest => w.(fault := Panicked)
  }

  function ValidateApp(spec: Spec): Option<string> {
    if spec.image == "" && spec.dockerfile == "" && spec.fork.None? then
      Some("specify either image, dockerfile, or Fork for the app")
    else if spec.target == Unset then Some("TargetPhase is not set")
    else if spec.target != Rest && spec.target != Live then Some("TargetPhase must be \"Rest\" or \"Live\"")
    else if spec.distro != "" && !ValidDistro(spec.distro) then Some("Spec.Distro must be either \"alpine\" or \"ubuntu\"")
    else if spec.shell != "" && !ValidShell(spec.shell) then Some("Spec.Shell must be either \"zsh\" or \"bash\"")
    else None
  }

  function Dispatch(cfg: Config, w: Work, ans: Answers): Work {
    var invalid := ValidateApp(w.mem.spec);
    if invalid.Some? then w.(fault := Failed(invalid.value))
    else if w.mem.spec.target == Rest then
      if w.mem.status.phase == Rest then w else MakeAppRest(cfg, w, ans)
    else
      MakeAppLive(cfg, w, ans)
  }

  // The deferred function: store the error with whatever the copy in memory holds by now.
  function Conclude(w: Work, ans: Answers): Work {
    if w.fault.Failed? then
      var w1 := w.(mem := WithStatus(w.mem, w.mem.status.(error := w.fault.message)));
      WriteStatus(w1, ans.write2).(fault := Fine)
    else w
  }

  function Begin(cl: Cluster, app: CliApp): Work {
    Work(WithStatus(app, app.status.(error := "")), cl, [], Result(false, 0), Fine)
  }

  // The error of a failed read is returned, so the controller tries again; any other error ends up
  // in the status and is not returned.
  function Reconcile(cfg: Config, cl: Cluster, ans: Answers): Work
    requires cl.app.Some?
  {
    if !ans.get then Begin(cl, cl.app.value).(result := Result(true, 0))
    else Conclude(Dispatch(cfg, Begin(cl, cl.app.value), ans), ans)
  }

  // What may happen between and at reconciles. Pods are named by their place in the list.
  datatype Event =
    | Reconciling(ans: Answers)
    | EditSpec(spec: Spec)
    | SetReady(i: nat, ready: bool)
    | MarkTerminating(i: nat)
    | Vanish(i: nat)
    | Tick(dt: nat)

  function Step(cfg: Config, cl: Cluster, ev: Event): Cluster {
    match ev
    case Reconciling(ans) => if cl.app.Some? then Reconcile(cfg, cl, ans).cl else cl
    case EditSpec(spec) => if cl.app.Some? then cl.(app := Some(WithSpec(cl.app.value, spec))) else cl
    case SetReady(i, ready) =>
      if i < |cl.pods| then cl.(pods := cl.pods[i := cl.pods[i].(ready := ready)]) else cl
    case MarkTerminating(i) =>
      if i < |cl.pods| then cl.(pods := cl.pods[i := cl.pods[i].(terminating := true)]) else cl
    case Vanish(i) =>
      if i < |cl.pods| then cl.(pods := cl.pods[..i] + cl.pods[i + 1..]) else cl
    case Tick(dt) => cl.(now := cl.now + dt)
  }

  function Run(cfg: Config, cl: Cluster, evs: seq<Event>): Cluster
    decreases |evs|
  {
    if evs == [] then cl else Run(cfg, Step(cfg, cl, evs[0]), evs[1..])
  }

  // The cluster after the first n events of an endless run.
  ghost function At(cfg: Config, cl: Cluster, run: nat -> Event, n: nat): Cluster {
    if n == 0 then cl else Step(cfg, At(cfg, cl, run, n - 1), run(n - 1))
  }
}
