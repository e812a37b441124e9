# CliApp: sessions, reconciler and Pod assembly

A CliApp is a command line application that lives in a Pod. The gate opens shells on it, the
controller starts and stops its Pod. This project models three parts of that system in Dafny and
proves what they are for.

1. **Sessions** (`pkg/gate/session.go`, `pkg/gate/gate.go`). Shells of one app share a session
   object: a counter, a cached app, one slot each for an outgoing open and close, a cancel handle, and
   one background goroutine per change. `SessionProtocol` gives it as micro-steps that interleave
   freely; a panic is an outcome of a step and carries its source line. `AppSession` is the object
   itself, updated in place, each method proved to leave the state the protocol prescribes.
   `RemoteApps` is the other side of a change: retried optimistic updates against a versioned store
   with other writers, and the watch loop.
2. **Reconciler** (`controllers/cliapp_{controller,common,live,rest,workload}.go`). `Reconciler` is one
   reconcile as a function of the cluster and of everything the API server may answer; `Controller` is
   the same as methods on mutable state, proved equal to it. Safety over all runs is in
   `ReconcilerSafety`, the phase graph, claiming and the idle timer in `ReconcilerPhases`, convergence
   in `RestConvergence` and `LiveConvergence`, keeping the Pod across closing and reopening in
   `PodReuse`. `Outcomes` has a second, flat definition, a table of everything a reconcile leaves
   behind, and proves the two equal for all answers.
3. **Pod assembly** (`controllers/cliapp_workload.go`). `PodAssembly` parses host paths and environment
   entries and appends volumes, mounts and variables in place; `Text` holds the string functions with
   their round trips.

## What the model shows about the code

- **Splitting an admission breaks the session guards.** With counting, looking at the cached app and
  the locked section taken as one step, no panic is reachable and open sessions agree on the cached
  app. The code does not lock across them: two short runs reach lines 96 and 180
  (`SplitCloseReachesLine96`, `SplitOpenReachesLine180`), a third leaves a session with an app that is
  no longer cached (`SplitCloseLosesAgreement`). `PanicLines` and `AgreementLostIff` name the steps
  that do it, exactly. Lines 37, 53 and 154 are unreachable in any interleaving.
- **A second waiter on a failed open gets neither an app nor an error** (`SecondWaiterGetsNothing`),
  and OpenShell goes on to `attach`, which reads the spec of that missing app
  (`pkg/gate/gate.go:90`, called at line 167). A woken session reads neither exactly if it was woken by
  the close of its channel and nothing is cached by then (`ReadsNothingIff`).
- **Reopening before the idle duration is over does not always keep the Pod.** Closed again while still
  Recovering, the app goes to ShuttingDown at once and the Pod is deleted without any time passing
  (`QuickReopenLosesPod`). `CloseKeepsPodIff` gives the exact condition.
- **A claimed Pod is deleted by the reconcile that claims it exactly when its hash annotation is not
  the current hash** (`ClaimedIsRecycledIff`); startApp writes both annotations together, so this does
  not arise from the controller's own Pods.
- **An app can stall short of its target.** A failing call is not returned as an error; it is written
  to the status, and it is that write which brings the app back. If the same error is stored already
  the write changes nothing, and if it is refused there is none: then only an outside event helps. A
  list of Pods that fails twice stalls the shutdown, a Pod creation that fails twice stalls the start,
  though every write succeeds (the two `SecondFailureStalls`). `RestConvergence.NoLostWakeUp` and
  `LiveConvergence.NoLostWakeUp` give the exact condition, `Stalls`, for each target. Under target
  Rest only Building and ShuttingDown can stall; the other phases always ask to be called again.
- **An old error can outlive the reconcile that clears it.** Every reconcile starts by clearing the
  error, and what it stores carries none unless a call failed (`SuccessClearsError`). The one exception
  is the step that fills in a built image: the answer to its update puts the stored error back into the
  copy, and the transition stores it again (`OldErrorComesBack`). An open that watches the app then
  fails on it (`pkg/gate/session.go:250-252`).
- **A refused delete is reported only for the last Pod of a drain**, which is the last one that is not
  ready, or the last of all if every one is (`DrainReports`).
- **The stored time of a transition is cut to the second**, so an app may be shut down before its idle
  duration has passed in real time, always by less than a second (`EarlyShutdown`, `NoEarlyShutdown`).
  The shutdown is due exactly from the cut time plus the idle duration on (`ShutsDownIff`).
- The field comments on shell and distro speak of the app's preference
  (`pkg/apis/cliapp/v1/cliapp_types.go:109`); with a default context image set, the code ignores both,
  and so does the model. Values of environment entries cannot contain `=`, a third segment of a host
  path is ignored, and the check for a host path without segments never fires.

## Assumptions

- Sessions: pointers to remote changes are compared as indices; the 32-bit counter does not overflow;
  the check of `t.app` and the assignment after a started app (lines 179-183) are one step; the
  deferred cancel and the locked slot clean-up are two. How a change ends is an arbitrary success or
  failure at an arbitrary moment. `NoPanic`, `Agreement`, `ReadsNothingIff` and
  `NilAppMeansFailedOpen` take an admission as one step; everything in `SessionInvariants` and `SessionProgress` does not.
- Endless session runs are weakly fair: a goroutine that could go on at every moment goes on at some
  moment. For a change being applied this says that applying ends.
- Store: others may write any app at any time; each call may be refused, or take effect and still
  report an error.
- Reconciler: one reconcile is one step on fresh reads; its writes may be refused, or applied and
  reported as failed, and any set of Pods may be undeletable. The dump of a spec is injective and is
  represented by the spec; its hash is an arbitrary function. A write that changes nothing causes no event. Pods of the app are created only by the
  controller and named uniquely; where a new Pod appears in the list is arbitrary. The spec's phase is
  one of the seven values, as the resource definition enforces. The answer to an update carries the
  stored status. Image builds are an oracle: built or not.
- Endless reconciler runs: reconciles whose calls succeed, and ticks, keep coming; a terminating Pod
  vanishes some day; a Pod waited for becomes ready some day. That reconciles keep coming is more than
  the code arranges for by itself: it does except where an app stalls, which the `NoLostWakeUp` lemmas
  delimit, and there an outside event has to supply it.
- Pod assembly: joining a path to the app root adds no colon; lower-casing is ASCII; the index of the
  target container is in range.

## Model

| member | source | states |
|---|---|---|
| SessionInvariants.FineKept | pkg/gate/session.go:73-125 | every micro-step of any session keeps: at most one slot full, the cancel handle is that of the change in it, every change out of the slots is cancelled, the owner of an unfinished change still waits on its channel, the counter equals the sessions inside |
| SessionInvariants.AnyInterleaving | pkg/gate/session.go:32-191 | over every run of micro-steps from the start that invariant holds, and the only panics are lines 96 and 180 |
| SessionInvariants.PanicLines | pkg/gate/session.go:95-181 | from a state of the invariant, line 96 panics iff the last session enters remoteClose while a close is outgoing, line 180 iff an open succeeds while an app is cached, no other line ever |
| SessionInvariants.LateFinishIsHarmless | pkg/gate/session.go:75-84 | a superseded change that finishes late leaves slots, cancel handle, counter and all other changes untouched, and the cached app too unless it is an open that succeeds |
| SessionInvariants.ErrorReachesOne | pkg/gate/session.go:73-89 | an error to deliver has a waiter able to take it, reaches at most one session, and the others are woken by the close of the channel |
| SessionSafety.NoPanic | pkg/gate/session.go:32-191 | with atomic admissions no run of any length and any number of sessions panics; a counted session excludes an outgoing close, an unapplied open is the current one and finds nothing cached, no session means nothing cached |
| SessionSafety.Agreement | pkg/gate/session.go:35-48 | at every moment every open session that holds an app holds the cached one; served from the cache, or by an open that succeeded, it holds one |
| SessionSafety.NilAppMeansFailedOpen | pkg/gate/session.go:45-47 | an open that answers without an app waited on a failed change, and lacks an error iff that error went to another session |
| SessionSafety.ReadsNothingIff | pkg/gate/session.go:45-47 | a woken session reads neither app nor error iff it was woken by the close of its channel and nothing is cached; then its open failed and the error went to another session |
| SessionSafety.AgreementLostIff | pkg/gate/session.go:50-106 | of all micro-steps, admissions split or not, the agreement of open sessions with the cached app is ended exactly by a remoteClose entered while some session holds an app |
| SessionSafety.OpenCases | pkg/gate/session.go:35-47 | an open is served from the cache iff another session is counted and an app is cached; otherwise it joins the outgoing open or starts one change |
| SessionSafety.CloseCases | pkg/gate/session.go:50-62 | a close leaves while others are counted; the last one drops the cached app, empties the open slot and starts one change |
| SessionSafety.OpensRuns | pkg/gate/session.go:35-47 | the three micro-steps of an open, uninterrupted, are the open taken as one step |
| SessionSafety.ClosesRuns | pkg/gate/session.go:50-62 | the same for a close |
| SessionRuns.SecondWaiterGetsNothing | pkg/gate/session.go:45-47 | a run with atomic admissions after which a session has neither app nor error |
| SessionRuns.SplitOpenReachesLine180 | pkg/gate/session.go:41-45 | a run that splits an open after the look at the cached app and panics at line 180 |
| SessionRuns.SplitCloseReachesLine96 | pkg/gate/session.go:51-60 | a run that splits two closes after the decrement and panics at line 96 |
| SessionRuns.SplitCloseLosesAgreement | pkg/gate/session.go:41-60 | a run that splits a close after the decrement and leaves a session holding an app that is no longer cached |
| SessionProgress.NeverBlocked | pkg/gate/session.go:73-89 | an unfinished commit goroutine always has a step to take, without needing the change to be applied anew |
| SessionProgress.EveryChangeCloses | pkg/gate/session.go:73-89 | in every weakly fair run every change closes its channel |
| SessionProgress.EveryWaiterWakes | pkg/gate/session.go:45-60 | in every weakly fair run every session waiting on an open or on its close is woken |
| AppSessions.AppSession.Open | pkg/gate/session.go:32-48 | leaves the object in the state of the atomic open and answers from the cache, waits, or panics as it does |
| AppSessions.AppSession.Close | pkg/gate/session.go:50-62 | likewise for the atomic close |
| AppSessions.AppSession.RemoteOpen | pkg/gate/session.go:148-191 | is the protocol's locked section, keeps the slot invariant and never panics under it |
| AppSessions.AppSession.RemoteClose | pkg/gate/session.go:91-125 | is the protocol's locked section, keeps the slot invariant and under it panics iff a close is outgoing |
| AppSessions.AppSession.Publish | pkg/gate/session.go:173-185 | the end of an open's ApplyChanges is the protocol's step, panic included |
| AppSessions.AppSession.CleanUp | pkg/gate/session.go:75-84 | cancels the change and empties the slot only if the change still holds it; keeps the slot invariant |
| AppSessions.TerminalGate.SessionFor | pkg/gate/gate.go:127-147 | one session object per app for good, never shared between apps, created on first use; an empty name, and then an empty namespace, is refused by its name |
| RemoteApps.Attempt | pkg/gate/session.go:128-145 | one try writes at most one version, which replaces exactly the version read and differs from it in TargetPhase alone; a conflict means that someone else wrote |
| RemoteApps.RetryOnConflict | pkg/gate/session.go:196-213 | the same over all tries against any writers; a conflict is returned only after five lost tries; four lost tries do no harm; undisturbed it succeeds and writes one version iff the app was not settled |
| RemoteApps.CloseApp | pkg/gate/session.go:127-146 | no error means TargetPhase was Rest in the store at some instant of the call; undisturbed it writes iff the target was not Rest |
| RemoteApps.AwaitLive | pkg/gate/session.go:236-294 | succeeds iff some Added or Modified event is in phase Live and all before it keep waiting; each error is returned iff the first event that does not keep waiting is of its kind, and the end of the stream iff there is none |
| RemoteApps.OnlyOneDecides | pkg/gate/session.go:236-294 | the deciding event of a stream is unique |
| RemoteApps.StartApp | pkg/gate/session.go:193-295 | every app returned without error is in phase Live and, with the statuses the controller stores, names a Pod; undisturbed, an app in phase Live is returned at once and left alone, any other gets target Live and the verdict of the watch |
| ReconcilerSafety.ReconcileOk | controllers/cliapp_controller.go:73-111 | from a safe cluster no reconcile panics, in any of seven phases and whatever the answers, every stored status is well formed, and the cluster stays safe |
| ReconcilerSafety.EveryRunIsSafe | controllers/cliapp_common.go:44-69 | over every run from creation: each stored status, the deferred error write included, has Live naming a Pod and Rest naming none; no two live Pods carry one dump; Rest or a deleted app means no Pod is left |
| ReconcilerSafety.AtMostOneLivePod | controllers/cliapp_live.go:85-109 | if deletes succeed, at most one Pod that is not terminating exists in every state of a run |
| ReconcilerSafety.PodEffect | controllers/cliapp_live.go:85-109 | all a reconcile does to Pods: it marks some terminating, or recycles and creates exactly one |
| ReconcilerSafety.InsertOk | controllers/cliapp_workload.go:53-65 | creating a Pod keeps names and dumps distinct, since no live Pod carries the dump |
| ReconcilerSafety.ClaimedIsFirst | controllers/cliapp_live.go:189-228 | the claim is the first live Pod with the current dump, none iff there is none |
| ReconcilerPhases.ClaimRefines | controllers/cliapp_live.go:189-228 | with any number of matches, the two overlapping conditions and the possible double listing come down to: keep the first match, recycle every other live Pod |
| ReconcilerPhases.ClaimedIsRecycledIff | controllers/cliapp_live.go:197-208 | the claimed Pod is on the list of old Pods iff its hash annotation is not the current hash |
| ReconcilerPhases.ClaimSurvives | controllers/cliapp_live.go:189-228 | a reconcile leaves the Pod it claims as it was |
| ReconcilerPhases.PhaseGraph | controllers/cliapp_live.go:52-140 | a reconcile leaves phase and transition time as stored or moves along one edge of the phase graph; the Pod named after it is given by the edge: the claimed one on the way to Live, none on the way to Rest or when Live is lost |
| ReconcilerPhases.LeavingLiveDropsPod | controllers/cliapp_live.go:78-79 | whatever the answers, a status stored on leaving Live for Recovering or ShuttingDown names no Pod |
| ReconcilerPhases.ReconcileSpec | controllers/cliapp_live.go:111-129 | a reconcile never edits the spec but to fill in a built image, and deletes the app only from ShuttingDown without Pods when uninstall is set |
| ReconcilerPhases.SteadyRest | controllers/cliapp_controller.go:98-101 | a reconcile of an app at rest writes nothing |
| ReconcilerPhases.RestEntry | controllers/cliapp_rest.go:49-65 | Rest is entered only from ShuttingDown on an empty Pod list; Pods are created only in Recovering |
| ReconcilerPhases.LiveEntry | controllers/cliapp_live.go:85-101 | on entry to Live the status names a ready, live Pod whose dump is the current spec |
| ReconcilerPhases.IdleTimer | controllers/cliapp_rest.go:36-48 | before the stored transition plus the idle duration a reconcile changes nothing and asks to be back exactly then, within the duration; from then on it shuts down; nothing else does |
| ReconcilerPhases.NoEarlyShutdown | controllers/cliapp_rest.go:21-48 | whatever happens in between, an app that entered WaitingForSessions is shut down only from the second of its entry plus the idle duration on |
| ReconcilerPhases.ShutsDownIff | controllers/cliapp_rest.go:36-48 | with the target at Rest and the write done, the reconcile after the wait shuts down iff that moment has come |
| ReconcilerPhases.EarlyShutdown | controllers/cliapp_rest.go:36-48 | an app closed at 10.9 s is shut down at 15.0 s although the idle duration is 5 s |
| RestConvergence.StepNeverRises | controllers/cliapp_rest.go:20-93 | with target Rest no event makes the measure of phase, idle time and Pods rise, and while it stays the app waits for the same thing |
| RestConvergence.NeededStepFalls | controllers/cliapp_rest.go:20-93 | in every other state a successful reconcile, a tick or a vanishing Pod makes it fall |
| RestConvergence.DrainMarksAll | controllers/cliapp_rest.go:67-81 | with no Pod terminating, draining lowers the weight of the Pods |
| RestConvergence.ReachesRest | controllers/cliapp_rest.go:20-93 | every fair endless run with target Rest reaches phase Rest or deletion of the app, with no Pod left |
| RestConvergence.StaysAtRest | controllers/cliapp_controller.go:98-101 | and while the target is held it stays there, without Pods |
| RestConvergence.NoLostWakeUp | controllers/cliapp_rest.go:20-93 | with any answers, a reconcile leaves the app short of Rest, unchanged and without asking to be called again iff it stalls: in Building or at the last step with both writes refused, or on a failing list or app deletion whose error is stored already or cannot be stored |
| RestConvergence.SecondFailureStalls | controllers/cliapp_controller.go:81-90 | an app shutting down, and a list of Pods that fails twice: the second failure changes nothing and nothing brings the app back |
| LiveConvergence.StepNeverRises | controllers/cliapp_live.go:52-135 | with target Live, and matching Pods left alone, no event takes the app farther from Live |
| LiveConvergence.GoodReconcile | controllers/cliapp_live.go:52-135 | a reconcile whose calls succeed reaches the phase it aims at, and in Live names the claimed ready Pod |
| LiveConvergence.NeededStepFalls | controllers/cliapp_live.go:52-135 | in every state short of Live a successful reconcile, or the claimed Pod becoming ready, brings it nearer |
| LiveConvergence.FinalMeansLive | controllers/cliapp_live.go:57-76 | the end of the descent is phase Live on a ready Pod that carries the current spec |
| LiveConvergence.ReachesLive | controllers/cliapp_live.go:52-135 | every fair endless run reaches that end, through an image build if need be |
| LiveConvergence.StaysLive | controllers/cliapp_live.go:57-76 | and stays there |
| LiveConvergence.NoLostWakeUp | controllers/cliapp_live.go:52-135 | with any answers, a reconcile leaves the app short of Live, not waiting for a Pod to become ready, unchanged and without asking to be called again iff it stalls: both writes of a transition refused, or a failing list or creation whose error is stored already or cannot be stored, in each case with no Pod recycled |
| LiveConvergence.SecondFailureStalls | controllers/cliapp_controller.go:81-90 | an app in Recovering, and a Pod creation that fails twice: the second failure changes nothing and nothing brings the app back |
| PodReuse.PodIsReused | controllers/cliapp_rest.go:21-42 | over any number of cycles of closing and reopening, each close seen while Live or idling in time, the Pod is there in every state, no reconcile creates one, and the app always names it |
| PodReuse.ReopenKeeps | controllers/cliapp_live.go:52-105 | reopening claims the old Pod, since its dump was taken with target Live |
| PodReuse.CloseKeepsPodIff | controllers/cliapp_rest.go:21-48 | after a close two successful reconciles leave the Pod iff it was closed while Live or idling in time, or the drain still waits for another Pod on its way out; closed late the app is then in ShuttingDown |
| PodReuse.QuickReopenLosesPod | controllers/cliapp_rest.go:45-48 | closing, reopening and closing again before Live loses the Pod with no time passing |
| Outcomes.ReconcileIsTable | controllers/cliapp_controller.go:73-111 | for any answers a reconcile of a safe cluster stores exactly the statuses, and leaves exactly the app, spec, Pods and requeue answer, of the flat table, both writes and every failing call included |
| Outcomes.SuccessClearsError | controllers/cliapp_controller.go:81-90 | with no call failing every stored status is free of errors, old ones included, iff the reconcile is not the one that fills in a built image or no error was stored |
| Outcomes.NothingFails | controllers/cliapp_controller.go:93-110 | answers that are all good make no call fail, under either target |
| Outcomes.OldErrorComesBack | controllers/cliapp_live.go:120-131 | an app whose build has finished moves to Recovering with the error of an earlier reconcile |
| Outcomes.FailureLeavesItsText | controllers/cliapp_controller.go:82-90 | a failing call leaves exactly its own text in the stored status, if that can be stored |
| Outcomes.DrainReports | controllers/cliapp_rest.go:75-81 | a drain stores the refusal of a delete iff the last Pod deleted, the last not ready or else the last ready one, is the refused one, and stores nothing else |
| Outcomes.ValidIff | controllers/cliapp_common.go:71-118 | a spec is accepted iff it has an image, dockerfile or fork, its target is Rest or Live, and distro and shell are unset or known |
| Outcomes.HandlersPanicIff | controllers/cliapp_rest.go:14-16 | makeAppRest panics iff the target is not Rest or the phase is; makeAppLive iff the target is not Live or it claims a ready Pod without a name in Recovering |
| Outcomes.TransitPanicsIff | controllers/cliapp_common.go:50-57 | transitPhaseTo panics iff it enters Live without a Pod name or without image and fork |
| Controllers.GroupPods | controllers/cliapp_common.go:19-42 | the loop computes the three groups in list order |
| Controllers.GroupsPartition | controllers/cliapp_common.go:19-42 | the three groups are a partition of the Pods |
| Controllers.Controller.ClaimPods | controllers/cliapp_live.go:168-229 | sorting, double listing and deleting one by one return the claim and delete what the specification says |
| Controllers.Controller.TransitPhaseTo | controllers/cliapp_common.go:44-69 | updates the copy in memory and the store as Transit says, panics included |
| Controllers.Controller.UpdateStatus | controllers/cliapp_common.go:63-66 | a status write, applied, refused or applied and reported failed |
| Controllers.Controller.StartApp | controllers/cliapp_workload.go:57-65 | with the outcome of the assembly among the answers, creates one Pod with both annotations of the spec, or fails |
| Controllers.Controller.StartFromManifest | controllers/cliapp_workload.go:24-66 | the whole of startApp, assembly included, does to the cluster what StartApp does with a creation that is tried iff there is a manifest and it assembles; it panics only on a shell that is not one of two, never with a valid default shell |
| Controllers.Controller.ReconcilePods | controllers/cliapp_live.go:57-109 | the two claiming phases do what ReconcileLive and ReconcileRecovering say |
| Controllers.Controller.MakeAppLive | controllers/cliapp_live.go:22-140 | does in place what Reconciler.MakeAppLive says |
| Controllers.Controller.ShutPodsDown | controllers/cliapp_rest.go:49-81 | drains, rests or deletes the app as ReconcileShuttingDown says |
| Controllers.Controller.MakeAppRest | controllers/cliapp_rest.go:13-94 | does in place what Reconciler.MakeAppRest says |
| Controllers.Controller.Reconcile | controllers/cliapp_controller.go:73-111 | the whole reconcile with its deferred write leaves the cluster, the stored statuses and the requeue answer of Reconciler.Reconcile |
| Controllers.Controller.SafeReconcile | controllers/cliapp_controller.go:73-111 | so on a safe cluster it keeps it safe and stores only well-formed statuses |
| PodAssembly.ParseHostPaths | controllers/cliapp_workload.go:100-132 | accepts iff every entry parses, otherwise reports the first bad one |
| PodAssembly.HostAcceptedIff | controllers/cliapp_workload.go:101-117 | an entry parses iff, trimmed, it is an absolute path without a colon, or two colon-free paths, absolute once trimmed, with a colon between and perhaps one after; and to those paths |
| PodAssembly.HostRoundTrip | controllers/cliapp_workload.go:101-117 | host:mount of trimmed absolute paths without colons parses back to the pair, host alone to itself twice |
| PodAssembly.ParseEnvs | controllers/cliapp_workload.go:134-151 | accepts iff every entry parses, otherwise reports the first bad one |
| PodAssembly.EnvAcceptedIff | controllers/cliapp_workload.go:136-148 | an entry parses iff it has exactly one equals sign and a key with a character that is not a space |
| PodAssembly.PathParts | controllers/cliapp_workload.go:214-225 | PATH split at colons is the six fixed directories, then each entry of the image joined to the app root |
| PodAssembly.BuildPath | controllers/cliapp_workload.go:215-224 | the loop over the image's entries builds that PATH |
| PodAssembly.EnvPrecedence | controllers/cliapp_workload.go:195-231 | read last-wins the variables are the base's, overridden by the built-in ones, by the image's PATH, by the user's |
| PodAssembly.InstallShellContext | controllers/cliapp_workload.go:288-336 | appends exactly the volumes and mounts the config map asks for, to the Pod and the target container |
| PodAssembly.ApplyAppConfig | controllers/cliapp_workload.go:93-286 | the assembled Pod in full, all other containers unchanged; it succeeds iff all entries parse, the image configuration is known and the shell is one of two; a bad entry leaves the Pod as it was |
| PodAssembly.VolumesAreDistinct | controllers/cliapp_workload.go:119-131 | if the base Pod uses no generated name, all volume names differ and every added mount resolves to exactly one volume, an added one, the right one: host path i to mount point i, the image of the base container to the app root, shell files to their names |
| PodAssembly.AddedPairUp | controllers/cliapp_workload.go:234-267 | added mounts and volumes pair up one to one, under distinct generated names, in order: hostpath-i with the i-th host path at the i-th mount point, the image at the app root, the shell files |
| PodAssembly.ZshFilesAre | controllers/cliapp_workload.go:258-267 | with zsh, .zshrc is mounted iff the config map has it non-empty, .zsh_history iff it has it |
| PodAssembly.BashFilesAre | controllers/cliapp_workload.go:258-267 | the same for bash with .bash_profile and .bash_history |
| PodAssembly.WorkspaceIs | controllers/cliapp_workload.go:192-284 | the target container keeps its own working directory and capabilities, otherwise gets the image's directory under the app root; SYS_ADMIN is the only capability added |
| PodAssembly.PreferenceIff | controllers/cliapp_workload.go:153-166 | with a default context image the app's shell and distro have no effect at all; each is used iff there is none and it is set |
| PodAssembly.ContextImageOfZsh | controllers/cliapp_workload.go:165 | without one, an app that prefers zsh on alpine gets the context image of that name |
| Text.SpacesAre | controllers/cliapp_workload.go:101 | trimming removes exactly the 25 white space characters of Unicode |

## Left out

- Controllers.Controller.StartApp: takes the outcome of the assembly as an answer; Controllers.Controller.StartFromManifest shows that this is no loss, except for the panic on an unknown default shell (line 265), which is not part of ReconcilerSafety.ReconcileOk.
- Controllers.Controller.StartFromManifest: the manifest itself (fetchForkTargetPod, convertToManifest) is a parameter.
- RemoteApps.AwaitLive: a watch is a finite stream, closed after its last event; a watch that stays silent for ever is not modelled, nor is the order in which a select picks among two ready channels.
- RemoteApps.StartApp: does not promise that TargetPhase is Live, because the code accepts an app in phase Live with target Rest (line 204).
- SessionSafety.NoPanic: admissions are one step, because the property is false when they are split; the two runs in SessionRuns show it.
- Controllers.Controller.Reconcile: one reconcile at a time on fresh reads; stale caches, and writes of others in the middle of a reconcile beyond a refused or lost write, are not modelled. The retried update of the spec after a build is one write.
- PodReuse.PodIsReused: a close is required to be seen while the app is Live or idling in time, because without that the property is false; PodReuse.CloseKeepsPodIff has the exact condition.
- Texts of errors taken over from the API server are one fixed text for each kind of failure; a text that differs each time would change the status each time.
- ImageBuilder and its cancellation: a build is an oracle.
- attach, the terminal streams and window sizes; progress messages and logging.
- Kubernetes, gRPC, exec, CRI and buildkit clients, generated code, manifests and command line tools.
