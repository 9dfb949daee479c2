/** An IMAP agent fetches what it has connected for only after a synchronisation. */
module SyncBeforeFetch {
  import opened AgentState
  import opened AgentRuns
  import opened AgentTable
  import opened AgentInvariant
  import opened AgentBehaviour
  import ImapAgent

  predicate Transfers(s: State) { s.Fetching? || s.Synchronising? }

  /** A synchronisation is under way. */
  predicate Syncs(a: Agent) { a.state.Synchronising? && Pending(a, a.ids.sync, Sync) }

  /** The wish to fetch after the folder sync is left alone. */
  predicate SameWish(a: Agent, b: Agent) { b.flags.fetchAfterSync == a.flags.fetchAfterSync }

  lemma SchedulingState(a: Agent, env: Env)
    ensures var b := CheckAndHandleSchedulingL(a, env);
      (b.state == a.state || b.state.TimerWaitingForStart? || b.state.AutoDisconnecting?) && SameWish(a, b)
  {
    var s := CleanScheduleTimers(a);
    CleaningState(a);
    LaunchState(s, env);
    hide CleanScheduleTimers, LaunchStartTimerL;
  }

  lemma CleaningState(a: Agent)
    ensures var b := CleanScheduleTimers(a); b.state == a.state && SameWish(a, b)
  {}

  lemma LaunchState(a: Agent, env: Env)
    ensures var b := LaunchStartTimerL(a, env);
      (b.state == a.state || b.state.TimerWaitingForStart? || b.state.AutoDisconnecting?) && SameWish(a, b)
  {
    DisconnectState(a, env);
    hide DisconnectL;
  }

  lemma DisconnectState(a: Agent, env: Env)
    ensures var b := DisconnectL(a, true, env); (b.state == a.state || b.state.AutoDisconnecting?) && SameWish(a, b)
  {}

  lemma ConnectState(a: Agent, env: Env)
    ensures var b := ConnectL(a, env);
      (b.state == a.state || b.state.Idle? || InConnectingState(b.state)) && SameWish(a, b)
  {
    SwitchOffState(a, env);
    ConnectingState(a, env);
    hide NoteAndSwitchOffL, ConnectAndUpdateHeadersL;
  }

  lemma ConnectingState(a: Agent, env: Env)
    ensures var b := ConnectAndUpdateHeadersL(a, env); (b.state == a.state || InConnectingState(b.state)) && SameWish(a, b)
  {}

  lemma ConnectIfAllowedState(a: Agent, id: int, env: Env)
    requires !Transfers(a.state)
    ensures var b := ConnectIfAllowedL(a, id, env); !Transfers(b.state) && SameWish(a, b)
  {
    SchedulingState(a, env);
    ConnectState(a, env);
    ConnectState(CheckAndHandleSchedulingL(a, env), env);
    hide CheckAndHandleSchedulingL, ConnectL;
  }

  lemma ErrorState(a: Agent, env: Env)
    ensures var b := ErrorHandled(a, env);
      (b.state == a.state || (!Transfers(b.state) && !InConnectingState(b.state))) && SameWish(a, b) && b.ops == a.ops && b.ids == a.ids
  {
    ErrorHandledKeepsTable(a, env);
    DefaultErrorState(a, env);
    hide HandleDefaultError;
  }

  lemma DefaultErrorState(a: Agent, env: Env)
    ensures var b := HandleDefaultError(a, env); b.state == a.state || (!Transfers(b.state) && !InConnectingState(b.state))
  {}

  lemma InitialiseState(a: Agent, env: Env)
    requires a.state.Initialised?
    ensures var b := ImapAgent.InitialiseL(a, env); !Transfers(b.state) && SameWish(a, b)
  {
    SchedulingState(ResetAll(a), env);
    hide CheckAndHandleSchedulingL;
  }

  lemma AfterState(a: Agent, env: Env)
    requires !Transfers(a.state)
    ensures var b := ImapAgent.AfterConnectionL(a, env); !Transfers(b.state) && SameWish(a, b)
  {
    DisconnectState(a, env);
    hide DisconnectL;
  }

  lemma SyncState(a: Agent, env: Env)
    requires a.state.PlainConnecting?
    ensures var b := ImapAgent.SynchroniseNewL(a, env); (b.state.PlainConnecting? || Syncs(b)) && SameWish(a, b)
  {}

  lemma AfterFetchState(a: Agent, env: Env)
    ensures var b := ImapAgent.AfterFetchL(a, env);
      (b.state == a.state || b.state.AutoDisconnecting?) && SameWish(a, b)
  {
    DisconnectState(a, env);
    hide DisconnectL;
  }

  lemma SwitchOffState(a: Agent, env: Env)
    ensures var b := NoteAndSwitchOffL(a, env); (b.state == a.state || b.state.Idle?) && SameWish(a, b)
  {}

  /** The choice of the next state: fetching only after synchronising, synchronising only after
      connecting, with the operation pending. */
  lemma NextStateTransfers(a: Agent, env: Env)
    ensures var b := ImapAgent.NextStateL(a, env);
      && (b.state.Fetching? ==> Transfers(a.state))
      && (b.state.Synchronising? ==> b.left || Syncs(b) || a.state.Synchronising?)
      && (b.state.Synchronising? && !a.state.Synchronising? ==> a.state.PlainConnecting?)
      && SameWish(a, b)
  {
    ErrorState(a, env);
    var x := ErrorHandled(a, env);
    hide ErrorHandled, DisconnectL, ConnectIfAllowedL, NoteAndSwitchOffL;
    hide ImapAgent.InitialiseL, ImapAgent.AfterConnectionL, ImapAgent.AfterFetchL, ImapAgent.SynchroniseNewL;
    DisconnectState(x, env);
    SwitchOffState(x, env);
    AfterFetchState(x, env);
    if !Transfers(x.state) {
      ConnectIfAllowedState(x, x.ids.interval, env);
      ConnectIfAllowedState(x, x.ids.waitStart, env);
      ConnectIfAllowedState(x, x.ids.stayOnline, env);
      AfterState(x, env);
      if x.state.Initialised? { InitialiseState(x, env); }
      if x.state.PlainConnecting? { SyncState(x, env); }
    }
  }

  lemma ChoiceTransfers(a: Agent, env: Env)
    requires a.protocol.Imap4?
    ensures var b := ChangeNextStateL(a, env);
      && (b.state.Fetching? ==> Transfers(a.state))
      && (b.state.Synchronising? ==> b.left || Syncs(b) || a.state.Synchronising?)
      && (b.state.Synchronising? && !a.state.Synchronising? ==> a.state.PlainConnecting?)
      && (b.flags.fetchAfterSync ==> a.flags.fetchAfterSync)
  {
    NextStateTransfers(a, env);
    NextStateTransfers(ImapAgent.BackToNormal(a), env);
    hide ImapAgent.NextStateL;
  }

  /** What a completion handler may do to the state. */
  predicate HandlesQuietly(a: Agent, id: int, b: Agent) {
    && (Transfers(b.state) ==> b.state == a.state || (id == a.ids.folderSync && a.flags.fetchAfterSync))
    && (b.state.Synchronising? ==> a.state.Synchronising?)
    && (b.state.PlainConnecting? ==> a.state.PlainConnecting?)
    && (b.flags.fetchAfterSync ==> a.flags.fetchAfterSync)
  }

  lemma ConnectionTransfers(a: Agent, id: int, code: Err, env: Env)
    requires a.protocol.Imap4? && ImapAgent.IsConnectionOp(a.ids, id)
    ensures HandlesQuietly(a, id, CompletionHandled(a, id, code, env))
  {
    ConnectionState(Taken(a, id), id, code, env);
    hide ImapAgent.ConnectionOpCompleted;
  }

  lemma TimerTransfers(a: Agent, id: int, code: Err, env: Env)
    requires a.protocol.Imap4? && !ImapAgent.IsConnectionOp(a.ids, id)
    requires id in {a.ids.interval, a.ids.waitStop, a.ids.waitStart, a.ids.startDelay}
    ensures HandlesQuietly(a, id, CompletionHandled(a, id, code, env))
  {
    hide ImapAgent.RescheduleL;
    var x := Taken(a, id);
    if id == a.ids.waitStop { RescheduleState(x.(ids := x.ids.(waitStop := KErrNotFound)), env); }
    else if id == a.ids.waitStart { RescheduleState(x.(ids := x.ids.(waitStart := KErrNotFound)), env); }
  }

  lemma FolderTransfers(a: Agent, id: int, code: Err, env: Env)
    requires a.protocol.Imap4? && !ImapAgent.IsConnectionOp(a.ids, id) && (id != a.ids.folderSync || id == a.ids.folderTimer)
    requires id !in {a.ids.interval, a.ids.waitStop, a.ids.waitStart, a.ids.startDelay}
    ensures HandlesQuietly(a, id, CompletionHandled(a, id, code, env))
  {
    hide ImapAgent.FolderTimerCompleted, ImapAgent.StartFolderSyncTimerL;
    var x := Taken(a, id);
    if id == a.ids.folderTimer { FolderTimerState(x.(ids := x.ids.(folderTimer := KErrNotFound)), env); }
    else { FolderWaitState(x.(ids := x.ids.(populate := KErrNotFound)), env); }
  }

  lemma FetchState(a: Agent)
    ensures ImapAgent.FetchNewMailL(a).state.Fetching?
  {}

  lemma FolderSyncTransfers(a: Agent, id: int, code: Err, env: Env)
    requires id in a.ops && a.protocol.Imap4? && !ImapAgent.IsConnectionOp(a.ids, id) && id == a.ids.folderSync && id != a.ids.folderTimer
    requires id !in {a.ids.interval, a.ids.waitStop, a.ids.waitStart, a.ids.startDelay}
    ensures HandlesQuietly(a, id, CompletionHandled(a, id, code, env))
  {
    hide ImapAgent.StartFolderSyncTimerL, ImapAgent.FetchNewMailL;
    var x := Taken(a, id);
    var y := x.(ids := x.ids.(folderSync := KErrNotFound));
    if a.flags.fetchAfterSync {
      var f := ImapAgent.FetchNewMailL(y);
      assert CompletionHandled(a, id, code, env) == f.(flags := y.flags.(fetchAfterSync := false));
    } else {
      FolderWaitState(y, env);
      assert CompletionHandled(a, id, code, env) == ImapAgent.StartFolderSyncTimerL(y, env).(left := false);
    }
    FetchState(y);
    hide CompletionHandled;
  }

  lemma HandledTransfers(a: Agent, id: int, code: Err, env: Env)
    requires a.protocol.Imap4?
    ensures HandlesQuietly(a, id, CompletionHandled(a, id, code, env))
  {
    if id !in a.ops { return; }
    hide CompletionHandled, HandlesQuietly;
    if ImapAgent.IsConnectionOp(a.ids, id) { ConnectionTransfers(a, id, code, env); }
    else if id in {a.ids.interval, a.ids.waitStop, a.ids.waitStart, a.ids.startDelay} { TimerTransfers(a, id, code, env); }
    else if id == a.ids.folderSync && id != a.ids.folderTimer { FolderSyncTransfers(a, id, code, env); }
    else { FolderTransfers(a, id, code, env); }
  }

  lemma ConnectionState(a: Agent, id: int, code: Err, env: Env)
    ensures var b := ImapAgent.ConnectionOpCompleted(a, id, code, env); b.state == a.state && SameWish(a, b)
  {
    OpenState(a, code);
    hide ImapAgent.StayOnlineCompleted;
  }

  lemma OpenState(a: Agent, code: Err)
    ensures var b := ImapAgent.StayOnlineCompleted(a, code); b.state == a.state && SameWish(a, b)
  {
    if a.ids.disconnect == KErrNotFound {
      var error := if code.ErrNone? then ErrDisconnected else code;
      assert ImapAgent.StayOnlineCompleted(a, code) == a.(error := error, ids := a.ids.(stayOnline := KErrNotFound));
    } else {
      assert ImapAgent.StayOnlineCompleted(a, code)
        == a.(error := code, ids := a.ids.(stayOnline := KErrNotFound, disconnect := KErrNotFound));
    }
    hide ImapAgent.StayOnlineCompleted;
  }

  lemma RescheduleState(a: Agent, env: Env)
    ensures var b := ImapAgent.RescheduleL(a, env);
      && SameWish(a, b)
      && (b.state == a.state || b.state.TimerWaitingForStart? || b.state.AutoDisconnecting? || b.state.Initialised?)
  {
    SchedulingState(a, env);
    hide CheckAndHandleSchedulingL;
  }

  lemma FolderWaitState(a: Agent, env: Env)
    ensures var b := ImapAgent.StartFolderSyncTimerL(a, env); b.state == a.state && SameWish(a, b)
  {}

  lemma FolderTimerState(a: Agent, env: Env)
    ensures var b := ImapAgent.FolderTimerCompleted(a, env);
      (b.state == a.state || b.state.ConnectingToStayOnline?) && SameWish(a, b)
  {
    FolderSyncState(a, env);
    FolderWaitState(ImapAgent.DoFolderSyncL(a, env).(left := false), env);
    hide ImapAgent.DoFolderSyncL, ImapAgent.StartFolderSyncTimerL;
  }

  lemma FolderSyncState(a: Agent, env: Env)
    ensures var b := ImapAgent.DoFolderSyncL(a, env); (b.state == a.state || b.state.ConnectingToStayOnline?) && SameWish(a, b)
  {}

  /** Events that make an agent fetch without having connected for it. */
  predicate BringsMail(e: Event) { e.Synchronised? || e.FoldersChanged? }

  lemma CompletionTransfers(a: Agent, e: Event)
    requires Inv(a) && a.protocol.Imap4? && e.OpCompletes? && !a.left && !a.removed && Deliverable(a, e)
    ensures var b := Step(a, e);
      && (b.state.Fetching? && !a.state.Fetching? ==> a.state.Synchronising? || (e.id == a.ids.folderSync && a.flags.fetchAfterSync))
      && (b.state.Synchronising? && !a.state.Synchronising? ==> Syncs(b) && a.state.PlainConnecting?)
      && (b.flags.fetchAfterSync ==> a.flags.fetchAfterSync)
  {
    HandledTransfers(a, e.id, e.code, e.h);
    var b := CompletionHandled(a, e.id, e.code, e.h);
    HandledProtocol(a, e);
    hide CompletionHandled, ChangeNextStateL;
    ChoiceTransfers(b, e.c);
  }

  lemma HandledProtocol(a: Agent, e: Event)
    requires Inv(a) && e.OpCompletes? && Deliverable(a, e)
    ensures CompletionHandled(a, e.id, e.code, e.h).protocol == a.protocol
  {
    hide TableInv, NoConnect, CompletionHandled, OpCompleted, BeforeChoice;
    OpCompletedInv(a, e.id, e.code, e.h, e.c);
  }

  lemma StepTransfers(a: Agent, e: Event)
    requires Inv(a) && a.protocol.Imap4? && !a.left && !BringsMail(e) && !Transfers(a.state) && !a.flags.fetchAfterSync
    ensures var b := Step(a, e); !b.state.Fetching? && (b.state.Synchronising? ==> Syncs(b)) && !b.flags.fetchAfterSync
  {
    if a.removed || !Deliverable(a, e) { return; }
    if e.OpCompletes? {
      CompletionTransfers(a, e);
      hide Step;
    } else {
      EventTransfers(a, e);
    }
  }

  lemma EventTransfers(a: Agent, e: Event)
    requires a.protocol.Imap4? && !BringsMail(e) && !e.OpCompletes? && !Transfers(a.state) && !a.flags.fetchAfterSync
    ensures var b := Handle(a, e); !Transfers(b.state) && !b.flags.fetchAfterSync
  {
    hide ConnectL, NoteAndSwitchOffL, DisconnectL, ImapAgent.StartFolderSyncTimerL;
    match e
    case EmnReceived(env) => ConnectState(a, env);
    case OutOfDisk(env) => SwitchOffState(a, env);
    case UpdateWhileConnected(created, env) =>
      var b := a.(flags := a.flags.(dontRemove := a.flags.dontRemove || created, temporary := true, dontReconnect := true));
      FolderWaitState(b.(flags := b.flags.(stayOnline := true), state := Idle), env);
      DisconnectState(b.(flags := b.flags.(removeMe := true)), env);
    case _ =>
  }

  /** Main result, over runs: an IMAP agent that neither synchronises nor fetches gets to fetching, unless
      the server or its folders bring mail by themselves, only through a moment at which it is
      synchronising with that operation pending. */
  lemma {:induction false} FetchNeedsSync(a: Agent, es: seq<Event>)
    requires Inv(a) && a.protocol.Imap4? && !a.left && !Transfers(a.state) && !a.flags.fetchAfterSync
    requires (forall e :: e in es ==> !BringsMail(e)) && Run(a, es).state.Fetching?
    ensures exists k: nat :: k <= |es| && Syncs(Run(a, es[..k]))
    decreases |es|
  {
    if es != [] {
      var e := es[0];
      var b := Step(a, e);
      assert e in es;
      StepTransfers(a, e);
      StepInv(a, e);
      StepFrame(a, e);
      hide Inv, Step, Syncs, BringsMail;
      assert es[..1] == [e] && [e][1..] == [] && Run(b, []) == b && Run(a, [e]) == Run(b, []);
      if b.state.Synchronising? {
        assert Syncs(Run(a, es[..1]));
      } else {
        FetchNeedsSync(b, es[1..]);
        var k: nat :| k <= |es[1..]| && Syncs(Run(b, es[1..][..k]));
        assert es[..k + 1][1..] == es[1..][..k] && es[..k + 1][0] == e;
        assert Run(a, es[..k + 1]) == Run(b, es[1..][..k]);
      }
    }
  }

  /** In particular after a start: whatever happens before an agent's first fetch, a synchronisation was
      pending. */
  lemma FirstFetchNeedsSync(next: nat, settings: Settings, es: seq<Event>)
    requires (forall e :: e in es ==> !BringsMail(e)) && Run(Fresh(Imap4, next, settings), es).state.Fetching?
    ensures exists k: nat :: k <= |es| && Syncs(Run(Fresh(Imap4, next, settings), es[..k]))
  {
    FreshInv(Imap4, next, settings);
    hide Inv, Run;
    FetchNeedsSync(Fresh(Imap4, next, settings), es);
  }
}
