/**
 The session object of one app, updated in place under its lock, and the gate that keeps one such
 object per app. Each method leaves exactly the state the protocol prescribes.
 */
module AppSessions {
  import opened Wrappers
  import opened CliApps
  import opened SessionProtocol
  import opened SessionInvariants

  // What an admission leaves its caller with.
  datatype Ticket =
    | Answer(app: CliApp)          // served from the cache
    | WaitFor(change: ChangeId)    // receive from the channel of this change
    | Nothing                      // other sessions are still active
    | Panicked(line: nat)

  class AppSession {
    var activeCount: int
    var app: Option<CliApp>
    var outgoingOpenSession: Option<ChangeId>
    var outgoingCloseSession: Option<ChangeId>
    var ctxCancel: Option<ChangeId>
    // All changes ever started; the index stands for the pointer.
    var changes: seq<Change>

    ghost function View(): Shared
      reads this
    {
      Shared(activeCount, app, outgoingOpenSession, outgoingCloseSession, ctxCancel, changes)
    }

    constructor ()
      ensures View() == INIT_SHARED
    {
      activeCount, app := 0, None;
      outgoingOpenSession, outgoingCloseSession, ctxCancel := None, None, None;
      changes := [];
    }

    method Cancel(c: ChangeId)
      modifies this`changes
      ensures View() == Cancelled(old(View()), c)
    {
      if c < |changes| {
        changes := changes[c := changes[c].(cancelled := true)];
      }
    }

    method Start(kind: Kind, s: SessionId) returns (c: ChangeId)
      modifies this`changes, this`ctxCancel
      ensures c == |old(changes)|
      ensures View() == old(View()).(cancel := Some(c), changes := old(changes) + [NewChange(kind, s)])
    {
      c := |changes|;
      changes := changes + [NewChange(kind, s)];
      ctxCancel := Some(c);
    }

    method RemoteOpen(s: SessionId) returns (t: Ticket)
      modifies this
      ensures match SessionProtocol.RemoteOpen(old(View()), s)
              case Entered(sh, c) => View() == sh && t == WaitFor(c)
              case PanicIn(line) => t == Panicked(line)
      ensures old(SlotsOk(View())) ==> SlotsOk(View()) && t.WaitFor?
    {
      ghost var before := View();
      if old(SlotsOk(View())) {
        RemoteOpenSlots(before, s);
      }
      if outgoingOpenSession.Some? {
        if outgoingCloseSession.Some? {
          return Panicked(154);
        }
        return WaitFor(outgoingOpenSession.value);
      }
      if outgoingCloseSession.Some? {
        if ctxCancel.None? {
          return Panicked(162);
        }
        Cancel(ctxCancel.value);
        outgoingCloseSession := None;
        ctxCancel := None;
      }
      var c := Start(Opening, s);
      outgoingOpenSession := Some(c);
      t := WaitFor(c);
    }

    method RemoteClose(s: SessionId) returns (t: Ticket)
      modifies this
      ensures match SessionProtocol.RemoteClose(old(View()), s)
              case Entered(sh, c) => View() == sh && t == WaitFor(c)
              case PanicIn(line) => t == Panicked(line)
      ensures old(SlotsOk(View())) ==>
                if old(outgoingCloseSession).Some? then t == Panicked(96) else t.WaitFor? && SlotsOk(View())
    {
      ghost var before := View();
      if old(SlotsOk(View())) {
        RemoteCloseSlots(before, s);
      }
      if outgoingCloseSession.Some? {
        return Panicked(96);
      }
      if outgoingOpenSession.Some? {
        if ctxCancel.None? {
          return Panicked(101);
        }
        Cancel(ctxCancel.value);
        outgoingOpenSession := None;
        ctxCancel := None;
      }
      app := None;
      var c := Start(Closing, s);
      outgoingCloseSession := Some(c);
      t := WaitFor(c);
    }

    method Open(s: SessionId) returns (t: Ticket)
      modifies this
      ensures match OpenAdmission(old(View()), s)
              case Cached(sh, a) => View() == sh && t == Answer(a)
              case Waits(sh, c) => View() == sh && t == WaitFor(c)
              case Left(_) => false
              case Fails(line) => t == Panicked(line)
    {
      activeCount := activeCount + 1;
      var active := activeCount;
      if active < 1 {
        return Panicked(37);
      }
      if active > 1 && app.Some? {
        return Answer(app.value);
      }
      t := RemoteOpen(s);
    }

    method Close(s: SessionId) returns (t: Ticket)
      modifies this
      ensures match CloseAdmission(old(View()), s)
              case Left(sh) => View() == sh && t == Nothing
              case Waits(sh, c) => View() == sh && t == WaitFor(c)
              case Cached(_, _) => false
              case Fails(line) => t == Panicked(line)
    {
      activeCount := activeCount - 1;
      var active := activeCount;
      if active < 0 {
        return Panicked(53);
      }
      if active > 0 {
        return Nothing;
      }
      t := RemoteClose(s);
    }

    // The end of ApplyChanges of an open: publish the started app, unless there is one.
    method Publish(c: ChangeId, started: CliApp) returns (t: Ticket)
      requires c < |changes| && changes[c].kind == Opening && changes[c].stage == Applying
      modifies this
      ensures forall pcs :: match ApplyOkStep(State(old(View()), pcs), c, started)
                            case Next(st) => State(View(), pcs) == st && t == Nothing
                            case Panic(line) => t == Panicked(line)
    {
      if app.Some? {
        return Panicked(180);
      }
      app := Some(started);
      changes := changes[c := changes[c].(stage := Returned, verdict := Succeeded)];
      t := Nothing;
    }

    // The deferred functions of commitChanges: cancel, then empty the slot if it is still ours.
    method CleanUp(c: ChangeId)
      requires c < |changes| && changes[c].stage == Returned
      modifies this
      ensures View() == Unslotting(Cancelled(old(View()), c), c)
      ensures old(SlotsOk(View())) ==> SlotsOk(View())
    {
      ghost var before := View();
      ghost var pcs: map<SessionId, Pc> := map[];
      assert before.changes[c].cancelled ==> Cancelled(before, c).changes == before.changes;
      if old(SlotsOk(View())) {
        if !before.changes[c].cancelled {
          SlotsKept(State(before, pcs), CancelSelf(c));
        }
        SlotsKept(State(Cancelled(before, c), pcs), Unslot(c));
      }
      Cancel(c);
      if outgoingOpenSession == Some(c) || outgoingCloseSession == Some(c) {
        outgoingOpenSession := None;
        outgoingCloseSession := None;
        ctxCancel := None;
      }
      changes := changes[c := changes[c].(stage := Unslotted)];
    }
  }

  datatype Key = Key(namespace: string, name: string)

  datatype Lookup = Found(session: AppSession) | InvalidArgument(missing: string)

  class TerminalGate {
    var sessionMap: map<Key, AppSession>

    // Two apps never share a session object.
    ghost predicate Valid()
      reads this
    {
      forall j, k :: j in sessionMap && k in sessionMap && j != k ==> sessionMap[j] != sessionMap[k]
    }

    constructor ()
      ensures Valid() && sessionMap == map[]
    {
      sessionMap := map[];
    }

    // The head of OpenShell. All shells of an app meet in one session object, for good.
    method SessionFor(namespace: string, name: string) returns (r: Lookup)
      requires Valid()
      modifies this
      ensures Valid()
      ensures r.InvalidArgument? <==> name == "" || namespace == ""
      ensures r.InvalidArgument? ==>
                sessionMap == old(sessionMap) && r.missing == if name == "" then "App.Name" else "App.Namespace"
      ensures r.Found? ==>
                && sessionMap == old(sessionMap)[Key(namespace, name) := r.session]
                && (Key(namespace, name) in old(sessionMap) ==> r.session == old(sessionMap)[Key(namespace, name)])
                && (Key(namespace, name) !in old(sessionMap) ==> fresh(r.session) && r.session.View() == INIT_SHARED)
    {
      if name == "" {
        return InvalidArgument("App.Name");
      }
      if namespace == "" {
        return InvalidArgument("App.Namespace");
      }
      var key := Key(namespace, name);
      if key !in sessionMap {
        var session := new AppSession();
        sessionMap := sessionMap[key := session];
      }
      r := Found(sessionMap[key]);
      assert sessionMap == old(sessionMap)[key := r.session];
    }
  }
}
