/**
 What the gate does to the stored app: optimistic updates of TargetPhase, retried on conflict, and
 the watch that waits for phase Live. Other writers may write between any two calls.
 */
module RemoteApps {
  import opened Wrappers
  import opened CliApps

  // One version of the stored object, and whether the gate wrote it.
  datatype Version = Version(app: CliApp, byGate: bool)

  // How the API server answers a call: as asked, with an error and no effect, or with an error
  // after the effect took place.
  datatype Reply = Normal | Refused | Lost

  // Before a call the others write, then the server answers.
  datatype Turn = Turn(writes: seq<CliApp>, reply: Reply)

  datatype Err = NoErr | Conflict | Failure

  // retry.DefaultRetry
  const RETRY_STEPS := 5

  function ByOthers(apps: seq<CliApp>): seq<Version> {
    seq(|apps|, i requires 0 <= i < |apps| => Version(apps[i], false))
  }

  function WithTarget(app: CliApp, target: Phase): CliApp {
    app.(spec := app.spec.(target := target))
  }

  // Each version the gate wrote since `from` replaces the one before it, which was not settled,
  // and differs from it in TargetPhase alone.
  ghost predicate GateWrites(h: seq<Version>, from: nat, target: Phase, settled: CliApp -> bool) {
    forall i :: from <= i < |h| && h[i].byGate ==>
                  && i > 0
                  && h[i].app == h[i - 1].app.(spec := h[i - 1].app.spec.(target := target))
                  && !settled(h[i - 1].app)
  }

  ghost predicate AtMostOneGateWrite(h: seq<Version>, from: nat) {
    forall i, j :: from <= i < |h| && from <= j < |h| && h[i].byGate && h[j].byGate ==> i == j
  }

  ghost predicate NoGateWrite(h: seq<Version>, from: nat) {
    forall i :: from <= i < |h| ==> !h[i].byGate
  }

  // Some version that was current since `now` satisfies the test.
  ghost predicate SomeVersion(h: seq<Version>, now: nat, test: CliApp -> bool) {
    exists i :: now <= i < |h| && test(h[i].app)
  }

  ghost predicate Quiet(script: nat -> Turn, from: nat) {
    forall k: nat :: from <= k ==> script(k) == Turn([], Normal)
  }

  // Every call is answered as asked, whatever the others write.
  ghost predicate NeverFails(script: nat -> Turn) {
    forall k: nat :: script(k).reply == Normal
  }

  // What an undisturbed call makes of the store: one write if the app is not settled.
  ghost function Settle(h: seq<Version>, target: Phase, settled: bool): seq<Version>
    requires h != []
  {
    var app := h[|h| - 1].app;
    if settled then h else h + [Version(app.(spec := app.spec.(target := target)), true)]
  }

  class Store {
    var history: seq<Version>
    var calls: nat
    const script: nat -> Turn

    ghost predicate Valid()
      reads this
    {
      history != []
    }

    constructor (app: CliApp, script: nat -> Turn)
      ensures Valid() && history == [Version(app, false)] && calls == 0 && this.script == script
    {
      history := [Version(app, false)];
      calls := 0;
      this.script := script;
    }

    function Current(): CliApp
      requires Valid()
      reads this
    {
      history[|history| - 1].app
    }

    // Let the others write before the next call.
    method Turns() returns (reply: Reply)
      requires Valid()
      modifies this
      ensures Valid() && calls == old(calls) + 1
      ensures history == old(history) + ByOthers(script(old(calls)).writes)
      ensures reply == script(old(calls)).reply
    {
      history := history + ByOthers(script(calls).writes);
      reply := script(calls).reply;
      calls := calls + 1;
    }

    // The version read is the length of the history.
    method Get() returns (err: Err, app: CliApp, version: nat)
      requires Valid()
      modifies this
      ensures Valid() && calls == old(calls) + 1
      ensures history == old(history) + ByOthers(script(old(calls)).writes)
      ensures err != Conflict && (err == NoErr <==> script(old(calls)).reply == Normal)
      ensures version == |history| && app == Current()
    {
      var reply := Turns();
      err := if reply == Normal then NoErr else Failure;
      version := |history|;
      app := Current();
    }

    // Writes only if the version read is still the current one.
    method Update(app: CliApp, version: nat) returns (err: Err)
      requires Valid() && version <= |history|
      modifies this
      ensures Valid() && calls == old(calls) + 1
      ensures var seen := old(history) + ByOthers(script(old(calls)).writes);
              var reply := script(old(calls)).reply;
              if reply == Refused then err == Failure && history == seen
              else if |seen| != version then err == Conflict && history == seen
              else history == seen + [Version(app, true)] && err == if reply == Normal then NoErr else Failure
    {
      var reply := Turns();
      if reply == Refused {
        return Failure;
      }
      if |history| != version {
        return Conflict;
      }
      history := history + [Version(app, true)];
      err := if reply == Normal then NoErr else Failure;
    }
  }

  predicate AtRest(app: CliApp) { app.spec.target == Rest }

  predicate WantsLive(app: CliApp) { app.status.phase == Live || app.spec.target == Live }

  // What a call has done to the store since it had n versions.
  ghost predicate Effect(h: seq<Version>, n: nat, target: Phase, settled: CliApp -> bool) {
    GateWrites(h, n, target, settled) && AtMostOneGateWrite(h, n)
  }

  lemma EffectOfOthers(h: seq<Version>, n: nat, target: Phase, settled: CliApp -> bool)
    requires NoGateWrite(h, n)
    ensures Effect(h, n, target, settled)
  {
  }

  lemma EffectOfWrite(h: seq<Version>, n: nat, app: CliApp, target: Phase, settled: CliApp -> bool)
    requires 0 < |h| && n <= |h| && NoGateWrite(h, n)
    requires h[|h| - 1].app == app && !settled(app)
    ensures Effect(h + [Version(WithTarget(app, target), true)], n, target, settled)
  {
  }

  // One try of the closures that closeApp and startApp retry: read, stop if the app is settled,
  // otherwise set TargetPhase.
  method Attempt(store: Store, target: Phase, settled: CliApp -> bool, ghost n: nat) returns (err: Err, app: CliApp)
    requires store.Valid() && n <= |store.history| && NoGateWrite(store.history, n)
    requires forall a: CliApp :: a.spec.target == target ==> settled(a)
    modifies store
    ensures store.Valid() && old(store.history) <= store.history && store.calls > old(store.calls)
    ensures Effect(store.history, n, target, settled)
    ensures err == NoErr ==> settled(app) && store.Current() == app
    ensures err == Conflict ==>
              && NoGateWrite(store.history, n) && |store.history| > |old(store.history)|
              && store.calls == old(store.calls) + 2
    ensures NeverFails(store.script) ==> err != Failure
    ensures Quiet(store.script, old(store.calls)) ==>
              err == NoErr && store.history == Settle(old(store.history), target, settled(old(store.Current())))
  {
    var failed, got, version := store.Get();
    assert Quiet(store.script, old(store.calls)) ==> store.history == old(store.history);
    EffectOfOthers(store.history, n, target, settled);
    if failed != NoErr {
      return failed, got;
    }
    if settled(got) {
      return NoErr, got;
    }
    app := WithTarget(got, target);
    ghost var seen := store.history;
    err := store.Update(app, version);
    assert Quiet(store.script, old(store.calls)) ==> seen + ByOthers([]) == seen;
    if store.history == seen + [Version(app, true)] {
      EffectOfWrite(seen, n, got, target, settled);
    } else {
      EffectOfOthers(store.history, n, target, settled);
    }
  }

  // retry.RetryOnConflict around such a closure. A conflict is reported only after five tries,
  // each of which lost to another writer; four lost tries, of two calls each, do no harm.
  method RetryOnConflict(store: Store, target: Phase, settled: CliApp -> bool) returns (err: Err, app: CliApp)
    requires store.Valid()
    requires forall a: CliApp :: a.spec.target == target ==> settled(a)
    modifies store
    ensures store.Valid() && old(store.history) <= store.history
    ensures Effect(store.history, |old(store.history)|, target, settled)
    ensures err == NoErr ==> settled(app) && store.Current() == app
    ensures err == Conflict ==> |store.history| >= |old(store.history)| + 5
    ensures NeverFails(store.script) && Quiet(store.script, old(store.calls) + 8) ==> err == NoErr
    ensures Quiet(store.script, old(store.calls)) ==>
              err == NoErr && store.history == Settle(old(store.history), target, settled(old(store.Current())))
  {
    var steps := RETRY_STEPS;
    err, app := Conflict, store.Current();
    while steps > 0 && err == Conflict
      invariant store.Valid() && old(store.history) <= store.history
      invariant 0 <= steps <= RETRY_STEPS && store.calls >= old(store.calls)
      invariant err == Conflict ==>
                  && NoGateWrite(store.history, |old(store.history)|)
                  && |store.history| >= |old(store.history)| + RETRY_STEPS - steps
      invariant Effect(store.history, |old(store.history)|, target, settled)
      invariant err == NoErr ==> settled(app) && store.Current() == app
      invariant steps == RETRY_STEPS ==> err == Conflict && store.history == old(store.history)
      invariant err == Conflict ==> store.calls == old(store.calls) + 2 * (RETRY_STEPS - steps)
      invariant NeverFails(store.script) ==> err != Failure
      invariant NeverFails(store.script) && Quiet(store.script, old(store.calls) + 8) ==> steps > 0 || err == NoErr
      invariant Quiet(store.script, old(store.calls)) && steps < RETRY_STEPS ==>
                  err == NoErr && store.history == Settle(old(store.history), target, settled(old(store.Current())))
      decreases steps
    {
      steps := steps - 1;
      err, app := Attempt(store, target, settled, |old(store.history)|);
    }
  }

  // closeApp: no error means that TargetPhase was Rest in the store at some instant of the call.
  method CloseApp(store: Store) returns (err: Err)
    requires store.Valid()
    modifies store
    ensures store.Valid() && old(store.history) <= store.history
    ensures Effect(store.history, |old(store.history)|, Rest, AtRest)
    ensures err == NoErr ==> SomeVersion(store.history, |old(store.history)| - 1, AtRest)
    ensures err == Conflict ==> |store.history| >= |old(store.history)| + 5
    ensures NeverFails(store.script) && Quiet(store.script, old(store.calls) + 8) ==> err == NoErr
    ensures Quiet(store.script, old(store.calls)) ==>
              err == NoErr && store.history == Settle(old(store.history), Rest, old(store.Current()).spec.target == Rest)
  {
    var app;
    err, app := RetryOnConflict(store, Rest, AtRest);
    assert err == NoErr ==> AtRest(store.history[|store.history| - 1].app);
  }

  datatype WatchEvent = Added(app: CliApp) | Modified(app: CliApp) | Deleted | ErrorEvent(message: string) | Bookmark

  // What the select takes next; after the last item the watch channel is closed.
  datatype WatchItem = Event(ev: WatchEvent) | ContextDone

  datatype StartError =
    | Api(err: Err)
    | WatchRefused
    | WatchClosed
    | WatchFailed(message: string)
    | AppDeleted
    | Reported(message: string)    // Status.Error of the app
    | Cancelled

  datatype Started = Running(app: CliApp) | NotStarted(why: StartError) | PanicOnEvent

  predicate IsUpdate(item: WatchItem) {
    item.Event? && (item.ev.Added? || item.ev.Modified?)
  }

  // An event that leaves the loop waiting.
  predicate KeepsWaiting(item: WatchItem) {
    IsUpdate(item) && item.ev.app.status.phase != Live && item.ev.app.status.error == ""
  }

  // The k-th item is the first that decides, or all keep waiting and the channel is closed.
  ghost predicate Decides(stream: seq<WatchItem>, k: nat) {
    && k <= |stream|
    && (forall j :: 0 <= j < k ==> KeepsWaiting(stream[j]))
    && (k < |stream| ==> !KeepsWaiting(stream[k]))
  }

  ghost predicate LiveAt(stream: seq<WatchItem>, k: nat) {
    Decides(stream, k) && k < |stream| && IsUpdate(stream[k]) && stream[k].ev.app.status.phase == Live
  }

  function Verdict(stream: seq<WatchItem>, k: nat): Started
    requires k <= |stream|
  {
    if k == |stream| then NotStarted(WatchClosed)
    else match stream[k]
      case ContextDone => NotStarted(Cancelled)
      case Event(Deleted) => NotStarted(AppDeleted)
      case Event(ErrorEvent(m)) => NotStarted(WatchFailed(m))
      case Event(Bookmark) => PanicOnEvent
      case Event(ev) => if ev.app.status.phase == Live then Running(ev.app) else NotStarted(Reported(ev.app.status.error))
  }

  // The first item that does not keep the loop waiting.
  ghost predicate FirstIs(stream: seq<WatchItem>, item: WatchItem) {
    exists k: nat :: Decides(stream, k) && k < |stream| && stream[k] == item
  }

  // The first such item is an update of an app that is not Live and carries this error.
  ghost predicate Reports(stream: seq<WatchItem>, message: string) {
    exists k: nat ::
      Decides(stream, k) && k < |stream| && IsUpdate(stream[k]) && stream[k].ev.app.status.phase != Live
      && stream[k].ev.app.status.error == message
  }

  lemma OnlyOneDecides(stream: seq<WatchItem>, j: nat, k: nat)
    requires Decides(stream, j) && Decides(stream, k)
    ensures j == k
  {
  }

  // The watch loop of startApp.
  method AwaitLive(stream: seq<WatchItem>) returns (r: Started)
    ensures exists k: nat :: Decides(stream, k) && r == Verdict(stream, k)
    ensures r.Running? <==> exists k: nat :: LiveAt(stream, k)
    ensures r.Running? ==> r.app.status.phase == Live
    ensures r == NotStarted(AppDeleted) <==> FirstIs(stream, Event(Deleted))
    ensures r == NotStarted(Cancelled) <==> FirstIs(stream, ContextDone)
    ensures forall m :: r == NotStarted(WatchFailed(m)) <==> FirstIs(stream, Event(ErrorEvent(m)))
    ensures forall m :: r == NotStarted(Reported(m)) <==> Reports(stream, m)
    ensures r == NotStarted(WatchClosed) <==> forall item :: item in stream ==> KeepsWaiting(item)
    ensures r == PanicOnEvent <==> FirstIs(stream, Event(Bookmark))
    ensures (forall item :: item in stream && IsUpdate(item) ==> StatusOk(item.ev.app.status)) ==>
              r.Running? ==> r.app.status.podName != ""
  {
    var i := 0;
    while i < |stream|
      invariant 0 <= i <= |stream|
      invariant forall j :: 0 <= j < i ==> KeepsWaiting(stream[j])
    {
      match stream[i] {
        case ContextDone =>
          r := NotStarted(Cancelled);
          break;
        case Event(Deleted) =>
          r := NotStarted(AppDeleted);
          break;
        case Event(ErrorEvent(m)) =>
          r := NotStarted(WatchFailed(m));
          break;
        case Event(Bookmark) =>
          r := PanicOnEvent;
          break;
        case Event(ev) =>
          if ev.app.status.phase == Live {
            r := Running(ev.app);
            break;
          }
          if |ev.app.status.error| > 0 {
            r := NotStarted(Reported(ev.app.status.error));
            break;
          }
      }
      i := i + 1;
    }
    if i == |stream| {
      r := NotStarted(WatchClosed);
    }
    assert Decides(stream, i) && r == Verdict(stream, i);
    if r.Running? {
      assert LiveAt(stream, i);
    }
    forall k: nat | Decides(stream, k) ensures k == i {
      OnlyOneDecides(stream, i, k);
    }
  }

  // startApp; the stream is what its watch would deliver, None if the watch is refused.
  method StartApp(store: Store, watch: Option<seq<WatchItem>>) returns (r: Started)
    requires store.Valid()
    modifies store
    ensures store.Valid() && old(store.history) <= store.history
    ensures Effect(store.history, |old(store.history)|, Live, WantsLive)
    ensures r.Running? ==> SomeVersion(store.history, |old(store.history)| - 1, WantsLive)
    ensures r.Running? ==> r.app.status.phase == Live
    ensures r == NotStarted(Api(Conflict)) ==> |store.history| >= |old(store.history)| + 5
    ensures r == NotStarted(WatchRefused) ==> watch.None?
    // Undisturbed, an app in phase Live is returned at once and left alone; for any other the target
    // is set and the watch decides.
    ensures Quiet(store.script, old(store.calls)) ==>
              var app := old(store.Current());
              && store.history == Settle(old(store.history), Live, app.status.phase == Live || app.spec.target == Live)
              && (app.status.phase == Live ==> r == Running(app))
              && (app.status.phase != Live && watch.None? ==> r == NotStarted(WatchRefused))
              && (app.status.phase != Live && watch.Some? ==>
                    exists k: nat :: Decides(watch.value, k) && r == Verdict(watch.value, k))
    // With statuses as the controller stores them, a started app names its Pod.
    ensures (forall v :: v in store.history ==> StatusOk(v.app.status)) &&
            (watch.Some? ==> forall item :: item in watch.value && IsUpdate(item) ==> StatusOk(item.ev.app.status)) ==>
              r.Running? ==> r.app.status.podName != ""
  {
    var err, app := RetryOnConflict(store, Live, WantsLive);
    if err != NoErr {
      return NotStarted(Api(err));
    }
    assert WantsLive(store.history[|store.history| - 1].app) && store.history[|store.history| - 1] in store.history;
    if app.status.phase == Live {
      return Running(app);
    }
    if watch.None? {
      return NotStarted(WatchRefused);
    }
    r := AwaitLive(watch.value);
  }
}
