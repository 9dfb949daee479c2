/** Every handler of either agent keeps the operation table in order. */
module AgentInvariant {
  import opened AgentState
  import opened AgentRuns
  import opened AgentTable
  import PopAgent
  import ImapAgent

  ghost predicate Inv(a: Agent) { TableInv(a.protocol.Imap4?, a.ops, a.nextId, a.ids) }

  /** Neither the protocol nor the settings nor the retry counter changes. */
  predicate Same(a: Agent, b: Agent) {
    b.protocol == a.protocol && b.settings == a.settings && b.retry == a.retry
  }

  /** The retry counter stays or, if resets, is reset; a success stays recorded; the access settings
      stay, or no connect operation is pending. */
  ghost predicate Frame(resets: bool, a: Agent, b: Agent) {
    && b.protocol == a.protocol && (b.retry == a.retry || (resets && b.retry == 0))
    && (a.settings.updateOk ==> b.settings.updateOk) && (IsEmn(b) ==> IsEmn(a))
    && (SameAccess(a, b) || NoConnect(b.ops))
  }

  predicate SameAccess(a: Agent, b: Agent) {
    b.settings.ao == a.settings.ao && b.settings.emn == a.settings.emn
  }

  ghost predicate Keeps(a: Agent, b: Agent) {
    Inv(b) && Same(a, b) && (NoConnect(a.ops) ==> NoConnect(b.ops))
  }

  /** quiet: no connect operation may be started.  resets: the retry counter may be reset. */
  ghost predicate Leads(quiet: bool, resets: bool, a: Agent, b: Agent) {
    Inv(b) && Frame(resets, a, b) && (quiet && NoConnect(a.ops) ==> NoConnect(b.ops))
  }

  /** What a completion handler does, leaving or not. */
  ghost predicate Handled(resets: bool, a: Agent, b: Agent) {
    Leads(true, resets, a, b) && SameAccess(a, b) && (!resets ==> b.settings == a.settings)
  }

  /** Connecting is not allowed: the phone is offline, or the mailbox is for the home network only
      and the phone is roaming. */
  predicate Blocked(a: Agent, env: Env) {
    env.offline || (HomeOnly(a.settings) && !env.homeNetwork)
  }

  /** The schedule does not let an agent without notifications connect. */
  predicate OutsideHours(a: Agent, env: Env) { !IsEmn(a) && env.schedule.WaitingToConnect? }

  predicate Barred(a: Agent, env: Env) { Blocked(a, env) || OutsideHours(a, env) }

  /** A connection or synchronisation has succeeded. */
  predicate Succeeds(a: Agent, id: int, code: Err) {
    (id == a.ids.connect || (a.protocol.Imap4? && id == a.ids.sync)) && code.ErrNone?
  }

  /** The agent gives up reconnecting. */
  predicate GivesUp(a: Agent) { IsAfterConnection(a.state) && !IsReconnectAfterError(a) }

  predicate IsAfterConnection(s: State) {
    s.ConnectFailed? || s.Queued? || s.Reconnecting? || s.AutoDisconnecting? || s.UserDisconnecting? || s.ConnTerminated?
  }

  lemma KeepsLeads(quiet: bool, resets: bool, a: Agent, b: Agent)
    requires Keeps(a, b)
    ensures Leads(quiet, resets, a, b)
  {}

  lemma LeadsFurther(quiet: bool, resets: bool, a: Agent, b: Agent)
    requires Leads(true, false, a, b)
    ensures Leads(quiet, resets, a, b)
  {}

  lemma LeadsAsQuietly(quiet: bool, resets: bool, a: Agent, b: Agent)
    requires Leads(quiet, false, a, b) || Leads(true, resets, a, b)
    ensures Leads(quiet, resets, a, b)
  {}

  lemma AddPlainInv(a: Agent, k: Kind)
    requires Inv(a) && !IsTimer(k) && !k.FolderSync? && !IsConnect(k)
    ensures Keeps(a, AddOp(a, k))
  {
    AddPlain(a.protocol.Imap4?, a.ops, a.nextId, a.ids, k);
  }

  lemma AddIntervalInv(a: Agent)
    requires Inv(a) && (a.protocol.Imap4? ==> a.ids.interval == KErrNotFound)
    ensures Keeps(a, AddOp(a, IntervalTimer).(ids := a.ids.(interval := a.nextId)))
  {
    hide TableInv, NoConnect;
    AddInterval(a.protocol.Imap4?, a.ops, a.nextId, a.ids);
  }

  lemma ResetInv(a: Agent)
    requires Inv(a)
    ensures Keeps(a, ResetAll(a))
  {
    ResetTable(a.protocol.Imap4?, a.ids, a.nextId);
  }

  lemma DisconnectInv(a: Agent, automatic: bool, env: Env)
    requires Inv(a)
    ensures Keeps(a, DisconnectL(a, automatic, env))
    ensures DisconnectL(a, automatic, env).ids == a.ids.(disconnect := DisconnectL(a, automatic, env).ids.disconnect)
  {
    hide TableInv, NoConnect;
    AddPlain(a.protocol.Imap4?, a.ops, a.nextId, a.ids, Completed);
    AddPlain(a.protocol.Imap4?, a.ops, a.nextId, a.ids, Disconnect);
    AddDisconnect(a.protocol.Imap4?, a.ops, a.nextId, a.ids);
  }

  lemma ConnectAndUpdateInv(a: Agent, env: Env)
    requires Inv(a)
    ensures Leads(false, false, a, ConnectAndUpdateHeadersL(a, env))
  {
    hide TableInv, NoConnect;
    AddConnect(a.protocol.Imap4?, a.ops, a.nextId, a.ids);
  }

  lemma SwitchOffInv(a: Agent, env: Env)
    requires Inv(a)
    ensures Leads(true, false, a, NoteAndSwitchOffL(a, env))
  {
    ResetInv(a);
    hide TableInv, NoConnect;
  }

  lemma ConnectInv(a: Agent, env: Env)
    requires Inv(a)
    ensures Leads(Blocked(a, env), false, a, ConnectL(a, env))
  {
    hide TableInv, NoConnect, NoteAndSwitchOffL, ConnectAndUpdateHeadersL;
    SwitchOffInv(a, env);
    ConnectAndUpdateInv(a, env);
    AddPlainInv(a.(state := Idle), Completed);
  }

  // ---- scheduling -----------------------------------------------------------------------------------

  lemma CleanInv(a: Agent)
    requires Inv(a)
    ensures Keeps(a, CleanInterval(a)) && CleanInterval(a).ids.interval == KErrNotFound
    ensures Keeps(a, CleanStart(a)) && CleanStart(a).ids.waitStart == KErrNotFound
    ensures Keeps(a, CleanStop(a)) && CleanStop(a).ids.waitStop == KErrNotFound
  {
    CleanTimers(a.protocol.Imap4?, a.ops, a.nextId, a.ids);
  }

  lemma CleanScheduleTimersInv(a: Agent)
    requires Inv(a)
    ensures var b := CleanScheduleTimers(a);
      && Keeps(a, b) && b.state == a.state && b.left == a.left
      && b.ids.waitStart == b.ids.waitStop == b.ids.interval == KErrNotFound
  {
    hide TableInv, NoConnect;
    CleanInv(a);
    var b := if a.ids.waitStop != KErrNotFound then CleanStop(a) else a;
    CleanInv(b);
    var c := if b.ids.waitStart != KErrNotFound then CleanStart(b) else b;
    CleanInv(c);
  }

  lemma LaunchStartTimerInv(a: Agent, env: Env)
    requires Inv(a) && a.ids.waitStop == KErrNotFound && a.ids.waitStart == KErrNotFound
    ensures Keeps(a, LaunchStartTimerL(a, env))
  {
    hide TableInv, NoConnect, DisconnectL;
    DisconnectInv(a, true, env);
    var b := if a.ids.stayOnline != KErrNotFound then DisconnectL(a, true, env) else a;
    if !b.left {
      AddStart(b.protocol.Imap4?, b.ops, b.nextId, b.ids);
      var c := AddOp(b, StartTimer).(ids := b.ids.(waitStart := b.nextId), state := TimerWaitingForStart);
      CleanInv(c);
    }
  }

  lemma LaunchStopTimerInv(a: Agent, seconds: nat)
    requires Inv(a) && a.ids.waitStop == KErrNotFound && a.ids.waitStart == KErrNotFound
    ensures Keeps(a, LaunchStopTimerL(a, seconds))
  {
    hide TableInv, NoConnect;
    if seconds == 0 {
      AddPlainInv(a.(state := TimerWaitingForStart), Completed);
    } else {
      AddStop(a.protocol.Imap4?, a.ops, a.nextId, a.ids);
      CleanInv(AddOp(a, StopTimer).(ids := a.ids.(waitStop := a.nextId)));
    }
  }

  lemma SchedulingInv(a: Agent, env: Env)
    requires Inv(a)
    ensures Keeps(a, CheckAndHandleSchedulingL(a, env))
  {
    hide TableInv, NoConnect, CleanScheduleTimers, LaunchStartTimerL, LaunchStopTimerL;
    CleanScheduleTimersInv(a);
    var b := CleanScheduleTimers(a);
    LaunchStartTimerInv(b, env);
    if env.schedule.Connected? { LaunchStopTimerInv(b, env.schedule.seconds); }
  }

  /** A schedule that says wait leaves the start timer set. */
  lemma SchedulingWaits(a: Agent, env: Env)
    requires Inv(a) && env.schedule.WaitingToConnect?
    ensures var b := CheckAndHandleSchedulingL(a, env);
      b.left || (b.ids.waitStart != KErrNotFound && b.ids.waitStop == KErrNotFound)
  {
    hide TableInv, NoConnect, CleanScheduleTimers, DisconnectL;
    CleanScheduleTimersInv(a);
    var b := CleanScheduleTimers(a);
    DisconnectInv(b, true, env);
  }

  lemma ConnectIfAllowedInv(a: Agent, id: int, env: Env)
    requires Inv(a)
    ensures Leads(Barred(a, env), false, a, ConnectIfAllowedL(a, id, env))
  {
    hide TableInv, NoConnect, CheckAndHandleSchedulingL, ConnectL;
    SchedulingInv(a, env);
    if env.schedule.WaitingToConnect? { SchedulingWaits(a, env); }
    ConnectInv(CheckAndHandleSchedulingL(a, env), env);
    ConnectInv(a, env);
  }

  lemma ErrorHandledKeepsTable(a: Agent, env: Env)
    ensures var b := ErrorHandled(a, env);
      && b.ops == a.ops && b.nextId == a.nextId && b.ids == a.ids
      && b.protocol == a.protocol && b.settings == a.settings && b.flags == a.flags
  {}

  lemma GiveUpInv(a: Agent, env: Env)
    requires Inv(a)
    ensures Leads(true, true, a, GiveUpL(a, env))
  {
    hide TableInv, NoConnect, DisconnectL;
    DisconnectInv(a, true, env);
    AddPlainInv(DisconnectL(a, true, env).(state := Idle, retry := 0), Completed);
  }

  lemma RestartInv(a: Agent)
    requires Inv(a)
    ensures Keeps(a, CreateCompletedOp(ResetAll(a).(state := Initialised)))
    ensures Keeps(a, PopAgent.RestartL(a)) && Keeps(a, ImapAgent.RestartL(a))
  {
    hide TableInv, NoConnect;
    ResetInv(a);
    AddPlainInv(ResetAll(a).(state := Initialised), Completed);
  }

  // ---- POP -------------------------------------------------------------------------------------------

  lemma PopStartWaitTimerInv(a: Agent, env: Env)
    requires Inv(a) && a.protocol.Pop3?
    ensures Keeps(a, PopAgent.StartWaitTimerL(a, env))
  {
    hide TableInv, NoConnect;
    AddIntervalInv(a);
  }

  lemma PopInitialiseInv(a: Agent, env: Env)
    requires Inv(a) && a.protocol.Pop3?
    ensures Keeps(a, PopAgent.InitialiseL(a, env))
  {
    hide TableInv, NoConnect, CheckAndHandleSchedulingL, PopAgent.StartWaitTimerL;
    ResetInv(a);
    var b := ResetAll(a);
    AddPlainInv(b.(state := Idle), Completed);
    SchedulingInv(b, env);
    PopStartWaitTimerInv(CheckAndHandleSchedulingL(b, env), env);
  }

  lemma PopPopulateInv(a: Agent, env: Env)
    requires Inv(a)
    ensures Keeps(a, PopAgent.DoFilteredPopulateL(a, env))
  {
    hide TableInv, NoConnect;
    AddPlainInv(a.(state := DoingFilteredPopulate), Completed);
    AddTransfer(a.protocol.Imap4?, a.ops, a.nextId, a.ids);
  }

  lemma PopAfterConnectionInv(a: Agent, env: Env)
    requires Inv(a) && a.protocol.Pop3?
    ensures Leads(true, !IsReconnectAfterError(a), a, PopAgent.AfterConnectionL(a, env))
  {
    hide TableInv, NoConnect, PopAgent.StartWaitTimerL, GiveUpL;
    PopStartWaitTimerInv(a, env);
    GiveUpInv(a, env);
  }

  lemma PopChangeNextStateInv(a: Agent, env: Env)
    requires Inv(a) && a.protocol.Pop3?
    ensures Leads(Barred(a, env), GivesUp(ErrorHandled(a, env)), ErrorHandled(a, env), PopAgent.ChangeNextStateL(a, env))
  {
    hide TableInv, NoConnect, ErrorHandled, DisconnectL, ConnectIfAllowedL, NoteAndSwitchOffL;
    hide PopAgent.InitialiseL, PopAgent.AfterConnectionL, PopAgent.DoFilteredPopulateL, PopAgent.RestartL;
    ErrorHandledKeepsTable(a, env);
    var b := ErrorHandled(a, env);
    PopInitialiseInv(b, env);
    PopPopulateInv(b, env);
    DisconnectInv(b, true, env);
    PopAfterConnectionInv(b, env);
    ConnectIfAllowedInv(b, b.ids.interval, env);
    ConnectIfAllowedInv(b, b.ids.waitStart, env);
    SwitchOffInv(b, env);
    RestartInv(b);
  }

  lemma PopTimerCompletionInv(a: Agent, id: int, code: Err, env: Env)
    requires Inv(a) && a.protocol.Pop3? && id in a.ops && (IsTimer(a.ops[id]) ==> code.ErrNone?)
    requires id in {a.ids.interval, a.ids.waitStart, a.ids.waitStop}
    ensures Handled(Succeeds(a, id, code), a, CompletionHandled(a, id, code, env))
  {
    KindOfRemembered(false, a.ops, a.nextId, a.ids, id);
    CleanTimers(false, a.ops, a.nextId, a.ids);
    hide TableInv, NoConnect, CheckAndHandleSchedulingL;
    var b := a.(ops := a.ops - {id});
    if id == a.ids.waitStop {
      SchedulingInv(b.(ids := b.ids.(waitStop := KErrNotFound)), env);
    } else if id == a.ids.waitStart {
      SchedulingInv(b.(ids := b.ids.(waitStart := KErrNotFound)), env);
    }
  }

  lemma PopOtherCompletionInv(a: Agent, id: int, code: Err, env: Env)
    requires Inv(a) && a.protocol.Pop3? && id in a.ops && !Remembered(a.ids, id)
    ensures Handled(Succeeds(a, id, code), a, CompletionHandled(a, id, code, env))
  {
    hide TableInv, NoConnect, CheckAndHandleSchedulingL;
    var b := a.(ops := a.ops - {id});
    CompleteOther(a.protocol.Imap4?, a.ops, a.nextId, a.ids, id);
    ForgetTransfer(a.protocol.Imap4?, b.ops, b.nextId, b.ids);
  }

  lemma PopCompletionInv(a: Agent, id: int, code: Err, env: Env)
    requires Inv(a) && a.protocol.Pop3? && id in a.ops && (IsTimer(a.ops[id]) ==> code.ErrNone?)
    ensures Handled(Succeeds(a, id, code), a, CompletionHandled(a, id, code, env))
  {
    KindOfRemembered(false, a.ops, a.nextId, a.ids, id);
    hide TableInv, Handled, CompletionHandled;
    if id in {a.ids.interval, a.ids.waitStart, a.ids.waitStop} {
      PopTimerCompletionInv(a, id, code, env);
    } else {
      PopOtherCompletionInv(a, id, code, env);
    }
  }

  // ---- IMAP -------------------------------------------------------------------------------------------

  lemma DropWaitTimerInv(a: Agent)
    requires Inv(a)
    ensures var b := ImapAgent.DropWaitTimer(a); Keeps(a, b) && b.ids.interval == KErrNotFound
  {
    CleanTimers(a.protocol.Imap4?, a.ops, a.nextId, a.ids);
  }

  lemma ImapStartWaitTimerInv(a: Agent, env: Env)
    requires Inv(a)
    ensures Keeps(a, ImapAgent.StartWaitTimerL(a, env))
  {
    hide TableInv, NoConnect, ImapAgent.DropWaitTimer;
    DropWaitTimerInv(a);
    AddIntervalInv(ImapAgent.DropWaitTimer(a));
  }

  lemma FolderTimerInv(a: Agent, env: Env)
    requires Inv(a) && a.protocol.Imap4?
    ensures Keeps(a, ImapAgent.StartFolderSyncTimerL(a, env))
  {
    hide TableInv, NoConnect;
    if a.ids.folderTimer == a.ids.folderSync == KErrNotFound {
      AddFolderOp(true, a.ops, a.nextId, a.ids);
    }
  }

  lemma FolderSyncInv(a: Agent, env: Env)
    requires Inv(a) && a.protocol.Imap4? && a.ids.folderTimer == a.ids.folderSync == KErrNotFound
    ensures var b := ImapAgent.DoFolderSyncL(a, env); Keeps(a, b)
  {
    hide TableInv, NoConnect;
    AddFolderOp(true, a.ops, a.nextId, a.ids);
  }

  lemma RescheduleInv(a: Agent, env: Env)
    requires Inv(a)
    ensures Keeps(a, ImapAgent.RescheduleL(a, env))
  {
    hide TableInv, NoConnect, CheckAndHandleSchedulingL;
    SchedulingInv(a, env);
    ResetInv(CheckAndHandleSchedulingL(a, env));
  }

  lemma FetchInv(a: Agent)
    requires Inv(a)
    ensures Keeps(a, ImapAgent.FetchNewMailL(a))
  {
    hide TableInv, NoConnect;
    AddPlainInv(a.(state := Fetching), Completed);
  }

  lemma SynchroniseInv(a: Agent, env: Env)
    requires Inv(a)
    ensures Leads(true, false, a, ImapAgent.SynchroniseNewL(a, env))
  {
    hide TableInv, NoConnect;
    AddPlainInv(a.(error := ErrDisconnected), Completed);
    AddTransfer(a.protocol.Imap4?, a.ops, a.nextId, a.ids);
  }

  lemma ImapInitialiseInv(a: Agent, env: Env)
    requires Inv(a)
    ensures Keeps(a, ImapAgent.InitialiseL(a, env))
  {
    hide TableInv, NoConnect, CheckAndHandleSchedulingL, ImapAgent.StartWaitTimerL;
    ResetInv(a);
    var b := ResetAll(a);
    SchedulingInv(b, env);
    ImapStartWaitTimerInv(CheckAndHandleSchedulingL(b, env), env);
  }

  lemma ImapAfterConnectionInv(a: Agent, env: Env)
    requires Inv(a)
    ensures Leads(true, !IsReconnectAfterError(a), a, ImapAgent.AfterConnectionL(a, env))
  {
    hide TableInv, NoConnect, ImapAgent.StartWaitTimerL, GiveUpL;
    ImapStartWaitTimerInv(a, env);
    GiveUpInv(a, env);
  }

  lemma AfterFetchInv(a: Agent, env: Env)
    requires Inv(a) && a.protocol.Imap4?
    ensures Keeps(a, ImapAgent.AfterFetchL(a, env))
  {
    hide TableInv, NoConnect, ImapAgent.StartFolderSyncTimerL, DisconnectL;
    FolderTimerInv(a, env);
    DisconnectInv(a, true, env);
  }

  lemma ImapNextStateInv(a: Agent, env: Env)
    requires Inv(a) && a.protocol.Imap4?
    ensures Leads(Barred(a, env), GivesUp(ErrorHandled(a, env)), ErrorHandled(a, env), ImapAgent.NextStateL(a, env))
  {
    hide TableInv, NoConnect, ErrorHandled, DisconnectL, ConnectIfAllowedL, NoteAndSwitchOffL;
    hide ImapAgent.InitialiseL, ImapAgent.AfterConnectionL, ImapAgent.AfterFetchL;
    hide ImapAgent.FetchNewMailL, ImapAgent.SynchroniseNewL, ImapAgent.RestartL, ResetAll, AddOp;
    ErrorHandledKeepsTable(a, env);
    var b := ErrorHandled(a, env);
    assert Inv(b) && Barred(b, env) == Barred(a, env);
    var d := ImapAgent.NextStateL(a, env);
    var quiet, resets := Barred(a, env), GivesUp(b);
    NothingKeeps(b);
    hide Keeps, Leads, Inv, Barred, GivesUp;
    match b.state
    case Initialised => ImapInitialiseInv(b, env); if !b.left { KeepsLeads(quiet, resets, b, d); }
    case Connecting => DisconnectInv(b, true, env); if !b.left { KeepsLeads(quiet, resets, b, d); }
    case PlainConnecting => SynchroniseInv(b, env); if !b.left { LeadsFurther(quiet, resets, b, d); }
    case Synchronising => FetchInv(b); if !b.left { KeepsLeads(quiet, resets, b, d); }
    case Fetching => AfterFetchInv(b, env); if !b.left { KeepsLeads(quiet, resets, b, d); }
    case ConnectingToStayOnline => ConnectIfAllowedInv(b, b.ids.stayOnline, env); if !b.left { LeadsAsQuietly(quiet, resets, b, d); }
    case TimerWaiting => ConnectIfAllowedInv(b, b.ids.interval, env); if !b.left { LeadsAsQuietly(quiet, resets, b, d); }
    case TimerWaitingForStart => ConnectIfAllowedInv(b, b.ids.waitStart, env); if !b.left { LeadsAsQuietly(quiet, resets, b, d); }
    case FatalError => SwitchOffInv(b, env); if !b.left { LeadsFurther(quiet, resets, b, d); }
    case Idle =>
    case DoingFilteredPopulate | TimerWaitingForStop => RestartInv(b); if !b.left { KeepsLeads(quiet, resets, b, d); }
    case _ => if !b.left { AfterConnectionLeads(b, env, quiet); }
    if b.left || b.state.Idle? { KeepsLeads(quiet, resets, b, b); }
  }

  lemma NothingKeeps(a: Agent)
    requires Inv(a)
    ensures Keeps(a, a)
  {}

  lemma AfterConnectionLeads(b: Agent, env: Env, quiet: bool)
    requires Inv(b) && b.protocol.Imap4? && IsAfterConnection(b.state)
    ensures Leads(quiet, GivesUp(b), b, ImapAgent.AfterConnectionL(b, env))
  {
    hide Leads, Inv;
    ImapAfterConnectionInv(b, env);
    LeadsAsQuietly(quiet, GivesUp(b), b, ImapAgent.AfterConnectionL(b, env));
  }

  /** The agent as it is when the next state is chosen: its pending error has been dealt with. */
  function BeforeChoice(a: Agent, env: Env): Agent {
    if a.protocol.Pop3? then ErrorHandled(a, env)
    else if !(a.state.AutoDisconnecting? && a.flags.removeMe) then ErrorHandled(a, env)
    else if a.flags.dontRemove then ErrorHandled(ImapAgent.BackToNormal(a), env)
    else a
  }

  lemma ImapChangeNextStateInv(a: Agent, env: Env)
    requires Inv(a) && a.protocol.Imap4?
    ensures Leads(Barred(a, env), GivesUp(BeforeChoice(a, env)), BeforeChoice(a, env), ImapAgent.ChangeNextStateL(a, env))
  {
    hide TableInv, NoConnect, ImapAgent.NextStateL, ErrorHandled;
    ImapNextStateInv(a, env);
    ImapNextStateInv(ImapAgent.BackToNormal(a), env);
  }

  lemma FolderTimerCompletedInv(a: Agent, env: Env)
    requires Inv(a) && a.protocol.Imap4? && a.ids.folderTimer == a.ids.folderSync == KErrNotFound
    ensures Keeps(a, ImapAgent.FolderTimerCompleted(a, env))
  {
    hide TableInv, NoConnect, ImapAgent.DoFolderSyncL, ImapAgent.StartFolderSyncTimerL;
    FolderSyncInv(a, env);
    FolderTimerInv(ImapAgent.DoFolderSyncL(a, env).(left := false), env);
  }

  lemma ImapFolderCompletionInv(a: Agent, id: int, code: Err, env: Env)
    requires Inv(a) && a.protocol.Imap4? && id in a.ops && (id == a.ids.folderTimer || id == a.ids.folderSync)
    ensures Handled(Succeeds(a, id, code), a, CompletionHandled(a, id, code, env))
  {
    hide ImapAgent.FolderTimerCompleted, ImapAgent.StartFolderSyncTimerL, ImapAgent.FetchNewMailL;
    hide TableInv, NoConnect;
    KindOfRemembered(true, a.ops, a.nextId, a.ids, id);
    CompleteFolderOp(true, a.ops, a.nextId, a.ids);
    var b := a.(ops := a.ops - {id});
    if id == a.ids.folderTimer {
      FolderOpsExclude(true, a.ops, a.nextId, a.ids);
      FolderTimerCompletedInv(b.(ids := b.ids.(folderTimer := KErrNotFound)), env);
    } else {
      FolderTimerInv(b.(ids := b.ids.(folderSync := KErrNotFound)), env);
      FetchInv(b.(ids := b.ids.(folderSync := KErrNotFound)));
    }
  }

  lemma StayOnlineInv(a: Agent, code: Err)
    requires Inv(a)
    ensures var b := ImapAgent.StayOnlineCompleted(a, code); Handled(false, a, b)
  {
    hide TableInv, NoConnect;
    ForgetStayOnline(a.protocol.Imap4?, a.ops, a.nextId, a.ids);
  }

  lemma ConnectionOpInv(a: Agent, id: int, code: Err, env: Env)
    requires Inv(a) && a.protocol.Imap4? && ImapAgent.IsConnectionOp(a.ids, id)
    ensures var b := ImapAgent.ConnectionOpCompleted(a, id, code, env); Handled(Succeeds(a, id, code), a, b)
  {
    hide TableInv, NoConnect, ImapAgent.StayOnlineCompleted;
    if id == a.ids.stayOnline {
      StayOnlineInv(a, code);
    } else {
      ForgetTransfer(a.protocol.Imap4?, a.ops, a.nextId, a.ids);
    }
  }

  lemma ImapOtherCompletionInv(a: Agent, id: int, code: Err, env: Env)
    requires Inv(a) && a.protocol.Imap4? && id in a.ops && !Remembered(a.ids, id)
    ensures Handled(Succeeds(a, id, code), a, CompletionHandled(a, id, code, env))
  {
    var b := a.(ops := a.ops - {id});
    hide ImapAgent.StartFolderSyncTimerL, ImapAgent.ConnectionOpCompleted, ImapAgent.FolderTimerCompleted;
    hide TableInv, NoConnect, ImapAgent.FetchNewMailL, ImapAgent.RescheduleL;
    CompleteOther(true, a.ops, a.nextId, a.ids, id);
    ForgetTransfer(true, b.ops, b.nextId, b.ids);
    if ImapAgent.IsConnectionOp(b.ids, id) { ConnectionOpInv(b, id, code, env); }
    FolderTimerInv(b.(ids := b.ids.(populate := KErrNotFound)), env);
  }

  lemma ImapTimerCompletionInv(a: Agent, id: int, code: Err, env: Env)
    requires Inv(a) && a.protocol.Imap4? && id in a.ops && (IsTimer(a.ops[id]) ==> code.ErrNone?)
    requires id in {a.ids.interval, a.ids.waitStart, a.ids.waitStop}
    ensures Handled(Succeeds(a, id, code), a, CompletionHandled(a, id, code, env))
  {
    KindOfRemembered(true, a.ops, a.nextId, a.ids, id);
    hide TableInv, NoConnect, ImapAgent.RescheduleL, ImapAgent.FolderTimerCompleted, ImapAgent.StartFolderSyncTimerL;
    hide ImapAgent.ConnectionOpCompleted, ImapAgent.FetchNewMailL;
    var b := a.(ops := a.ops - {id});
    CleanTimers(true, a.ops, a.nextId, a.ids);
    if id == a.ids.waitStop {
      RescheduleInv(b.(ids := b.ids.(waitStop := KErrNotFound)), env);
    } else if id == a.ids.waitStart {
      RescheduleInv(b.(ids := b.ids.(waitStart := KErrNotFound)), env);
    }
  }

  lemma ImapCompletionInv(a: Agent, id: int, code: Err, env: Env)
    requires Inv(a) && a.protocol.Imap4? && id in a.ops && (IsTimer(a.ops[id]) ==> code.ErrNone?)
    ensures Handled(Succeeds(a, id, code), a, CompletionHandled(a, id, code, env))
  {
    hide TableInv, Handled, CompletionHandled;
    if id in {a.ids.interval, a.ids.waitStart, a.ids.waitStop} {
      ImapTimerCompletionInv(a, id, code, env);
    } else if id == a.ids.folderTimer || id == a.ids.folderSync {
      ImapFolderCompletionInv(a, id, code, env);
    } else {
      ImapOtherCompletionInv(a, id, code, env);
    }
  }

  // ---- steps and runs ------------------------------------------------------------------------------------

  lemma OpCompletedInv(a: Agent, id: int, code: Err, h: Env, c: Env)
    requires Inv(a) && id in a.ops && (IsTimer(a.ops[id]) ==> code.ErrNone?)
    ensures var b := CompletionHandled(a, id, code, h);
      && Handled(Succeeds(a, id, code), a, b)
      && (b.left ==> OpCompleted(a, id, code, h, c) == b)
      && (!b.left ==> Leads(Barred(a, c), GivesUp(BeforeChoice(b, c)), BeforeChoice(b, c), OpCompleted(a, id, code, h, c)))
  {
    hide TableInv, NoConnect, CompletionHandled, PopAgent.ChangeNextStateL, ImapAgent.ChangeNextStateL, ErrorHandled;
    var b := CompletionHandled(a, id, code, h);
    if a.protocol.Pop3? {
      PopCompletionInv(a, id, code, h);
      PopChangeNextStateInv(b, c);
    } else {
      ImapCompletionInv(a, id, code, h);
      ImapChangeNextStateInv(b, c);
    }
    RestartInv(ChangeNextStateL(b, c).(left := false));
  }

  lemma BeforeChoiceKeepsTable(a: Agent, env: Env)
    ensures var b := BeforeChoice(a, env);
      && b.ops == a.ops && b.protocol == a.protocol && b.settings == a.settings
  {
    hide ErrorHandled;
    ErrorHandledKeepsTable(a, env);
    ErrorHandledKeepsTable(ImapAgent.BackToNormal(a), env);
  }

  lemma StartInv(a: Agent, env: Env)
    requires Inv(a)
    ensures Keeps(a, StartL(a, env))
  {
    hide TableInv, NoConnect;
    ResetInv(a);
    AddDelayTimer(a.protocol.Imap4?, a.ops, a.nextId, a.ids);
  }

  lemma ResumeInv(a: Agent, connectNow: bool, settings: Settings, env: Env)
    requires Inv(a)
    ensures var b := ResumeL(a, connectNow, settings, env);
      Inv(b) && b.protocol == a.protocol && b.retry == a.retry && (NoConnect(a.ops) ==> NoConnect(b.ops))
  {
    hide TableInv, NoConnect;
    AddPlain(a.protocol.Imap4?, a.ops, a.nextId, a.ids, Kind.Completed);
  }

  lemma NetworkEventInv(a: Agent)
    requires Inv(a)
    ensures Keeps(a, HandleRoamingEventL(a)) && Keeps(a, HandleHomeNetworkEventL(a))
  {
    hide TableInv, NoConnect;
    ResetInv(a);
    AddPlain(a.protocol.Imap4?, a.ops, a.nextId, a.ids, Kind.Completed);
  }

  lemma SynchronisedInv(a: Agent)
    requires Inv(a)
    ensures Handled(true, a, ImapAgent.SynchronisationComplete(a))
  {
    hide TableInv, NoConnect;
    AddPlain(a.protocol.Imap4?, a.ops, a.nextId, a.ids, Kind.Completed);
  }

  lemma FoldersChangedInv(a: Agent, mailbox: bool, env: Env)
    requires Inv(a)
    ensures Keeps(a, ImapAgent.HandleFolderEntryL(a, mailbox, env))
  {
    hide TableInv, NoConnect, DisconnectL;
    AddPlain(a.protocol.Imap4?, a.ops, a.nextId, a.ids, Kind.Completed);
    DisconnectInv(a.(flags := a.flags.(removeMe := true)), true, env);
  }

  lemma UpdateWhileConnectedInv(a: Agent, created: bool, env: Env)
    requires Inv(a) && a.protocol.Imap4?
    ensures Keeps(a, ImapAgent.SetUpdateMailWhileConnectedL(a, created, env))
  {
    hide TableInv, NoConnect, DisconnectL, ImapAgent.StartFolderSyncTimerL;
    var b := a.(flags := a.flags.(dontRemove := a.flags.dontRemove || created,
                                  temporary := true, dontReconnect := true));
    FolderTimerInv(b.(flags := b.flags.(stayOnline := true), state := Idle), env);
    DisconnectInv(b.(flags := b.flags.(removeMe := true)), true, env);
  }

  /** Nothing in the event lets the agent connect. */
  predicate Quiet(a: Agent, e: Event) {
    match e
    case OpCompletes(_, _, _, c) => Barred(a, c)
    case EmnReceived(env) => Blocked(a, env)
    case _ => true
  }

  lemma StepInv(a: Agent, e: Event)
    requires Inv(a)
    ensures Inv(Step(a, e)) && Step(a, e).protocol == a.protocol
    ensures Quiet(a, e) && NoConnect(a.ops) ==> NoConnect(Step(a, e).ops)
    ensures !e.Resumed? ==> SameAccess(a, Step(a, e)) || NoConnect(Step(a, e).ops)
    ensures !e.Resumed? && a.settings.updateOk ==> Step(a, e).settings.updateOk
    ensures !e.Resumed? && IsEmn(Step(a, e)) ==> IsEmn(a)
    ensures !e.OpCompletes? && !e.Synchronised? ==> Step(a, e).retry == a.retry
  {
    hide TableInv, NoConnect, OpCompleted, CompletionHandled, BeforeChoice, StartL, ResumeL, HandleRoamingEventL, HandleHomeNetworkEventL;
    hide NoteAndSwitchOffL, ConnectL, ImapAgent.SynchronisationComplete, ImapAgent.HandleFolderEntryL;
    hide ImapAgent.SetUpdateMailWhileConnectedL;
    if a.removed || !Deliverable(a, e) { return; }
    match e
    case OpCompletes(id, code, h, c) =>
      OpCompletedInv(a, id, code, h, c);
      BeforeChoiceKeepsTable(CompletionHandled(a, id, code, h), c);
    case Started(env) => StartInv(a, env);
    case Suspended => ResetInv(a);
    case Resumed(connectNow, settings, env) => ResumeInv(a, connectNow, settings, env);
    case RoamingStarted => NetworkEventInv(a);
    case HomeNetworkFound => NetworkEventInv(a);
    case OutOfDisk(env) => SwitchOffInv(a, env);
    case EmnReceived(env) => ConnectInv(a, env);
    case Synchronised => SynchronisedInv(a);
    case FoldersChanged(mailbox, env) => FoldersChangedInv(a, mailbox, env);
    case UpdateWhileConnected(created, env) => UpdateWhileConnectedInv(a, created, env);
  }

  lemma {:induction false} RunInv(a: Agent, es: seq<Event>)
    requires Inv(a)
    ensures Inv(Run(a, es)) && Run(a, es).protocol == a.protocol
    decreases |es|
  {
    hide TableInv, NoConnect, Step;
    if es != [] {
      StepInv(a, es[0]);
      RunInv(Step(a, es[0]), es[1..]);
    }
  }

  lemma FreshInv(p: Protocol, next: nat, settings: Settings)
    ensures Inv(Fresh(p, next, settings))
  {}

  lemma StepFrame(a: Agent, e: Event)
    requires !a.left
    ensures !Step(a, e).left
  {
    hide Handle;
  }

  lemma {:induction false} RunFrame(a: Agent, es: seq<Event>)
    requires !a.left
    ensures !Run(a, es).left
    decreases |es|
  {
    hide Step;
    if es != [] {
      StepFrame(a, es[0]);
      RunFrame(Step(a, es[0]), es[1..]);
    }
  }
}
