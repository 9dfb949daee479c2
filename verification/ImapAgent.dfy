/** The IMAP agent: the folder-sync cycle, and how the agent picks its next state. */
module ImapAgent {
  import opened AgentState

  /** Drops a timer that is still running before a new one is started. */
  function DropWaitTimer(a: Agent): Agent {
    if a.ids.interval > KErrNotFound && a.ids.interval in a.ops then
      a.(ops := a.ops - {a.ids.interval}, ids := a.ids.(interval := KErrNotFound))
    else a
  }

  function StartWaitTimerL(a: Agent, env: Env): Agent {
    var b := DropWaitTimer(a);
    if b.state.TimerWaiting? then b
    else if b.connectNow && !IsEmn(b) then
      AddOp(b, IntervalTimer).(ids := b.ids.(interval := b.nextId), state := TimerWaiting, connectNow := false)
    else if b.retry % KAOMaxRetries == 0 && !b.state.Queued? && !IsEmn(b) && !env.readable then Leave(b)
    else
      AddOp(b, IntervalTimer).(ids := b.ids.(interval := b.nextId), state := TimerWaiting)
  }

  function FetchNewMailL(a: Agent): Agent { CreateCompletedOp(a.(state := Fetching)) }

  function SynchroniseNewL(a: Agent, env: Env): Agent {
    if !env.connected then CreateCompletedOp(a.(error := ErrDisconnected))
    else
      var b := a.(settings := a.settings.(updateOk := true));
      if !env.invokes then Leave(b)
      else AddOp(b, Sync).(ids := b.ids.(sync := b.nextId), state := Synchronising)
  }

  function DoFolderSyncL(a: Agent, env: Env): Agent {
    if !env.connected then a.(state := ConnectingToStayOnline)
    else if env.moreFolders && a.ids.populate == KErrNotFound && !env.invokes then Leave(a)
    else AddOp(a, FolderSync).(ids := a.ids.(folderSync := a.nextId))
  }

  function StartFolderSyncTimerL(a: Agent, env: Env): Agent {
    var due := a.flags.stayOnline && a.ids.folderTimer == KErrNotFound &&
               a.ids.populate == KErrNotFound && a.ids.folderSync == KErrNotFound;
    if due && !env.readable then Leave(a)
    else
      var b := if due then AddOp(a, FolderTimer).(ids := a.ids.(folderTimer := a.nextId)) else a;
      if b.flags.stayOnline && !env.observes then Leave(b) else b
  }

  /** Scheduling again when a schedule timer has gone off.  A leave restarts the agent. */
  function RescheduleL(a: Agent, env: Env): Agent {
    var b := CheckAndHandleSchedulingL(a, env);
    if b.left then ResetAll(b).(state := Initialised, left := false) else b
  }

  function FolderTimerCompleted(a: Agent, env: Env): Agent {
    var b := DoFolderSyncL(a, env);
    if b.left && b.ids.folderTimer == KErrNotFound then
      StartFolderSyncTimerL(b.(left := false), env).(left := false)
    else b.(left := false)
  }

  function StayOnlineCompleted(a: Agent, code: Err): Agent {
    if a.ids.disconnect == KErrNotFound then
      a.(error := if code.ErrNone? then ErrDisconnected else code,
         ids := a.ids.(stayOnline := KErrNotFound))
    else
      a.(error := code, ids := a.ids.(stayOnline := KErrNotFound, disconnect := KErrNotFound))
  }

  /** The three connection operations of an IMAP agent. */
  predicate IsConnectionOp(ids: Ids, id: int) { id == ids.stayOnline || id == ids.connect || id == ids.sync }

  function ConnectionOpCompleted(a: Agent, id: int, code: Err, env: Env): Agent {
    if id == a.ids.stayOnline then StayOnlineCompleted(a, code)
    else if !code.ErrNone? then
      var b := a.(error := code);
      if env.readable then b else Leave(b)
    else if id == a.ids.connect then
      a.(error := ErrNone, ids := a.ids.(connect := KErrNotFound), retry := 0)
    else
      a.(error := ErrNone, ids := a.ids.(sync := KErrNotFound), retry := 0)
  }

  function HandleOpCompleted(a: Agent, id: int, code: Err, env: Env): Agent {
    if IsConnectionOp(a.ids, id) then ConnectionOpCompleted(a, id, code, env)
    else if id == a.ids.interval then a.(ids := a.ids.(interval := KErrNotFound))
    else if id == a.ids.waitStop then
      if code.ErrNone? then RescheduleL(a.(ids := a.ids.(waitStop := KErrNotFound)), env) else a
    else if id == a.ids.waitStart then
      if code.ErrNone? then RescheduleL(a.(ids := a.ids.(waitStart := KErrNotFound)), env) else a
    else if id == a.ids.startDelay then a.(connectNow := true)
    else if id == a.ids.folderTimer then
      FolderTimerCompleted(a.(ids := a.ids.(folderTimer := KErrNotFound)), env)
    else if id == a.ids.folderSync then
      var b := a.(ids := a.ids.(folderSync := KErrNotFound));
      if b.flags.fetchAfterSync then FetchNewMailL(b).(flags := b.flags.(fetchAfterSync := false))
      else StartFolderSyncTimerL(b, env).(left := false)
    else if id == a.ids.populate then
      StartFolderSyncTimerL(a.(ids := a.ids.(populate := KErrNotFound)), env).(left := false)
    else a
  }

  function InitialiseL(a: Agent, env: Env): Agent {
    var b := ResetAll(a);
    if IsEmn(b) then b.(state := Idle)
    else
      var c := CheckAndHandleSchedulingL(b, env);
      if c.left then c
      else if c.ids.waitStop != KErrNotFound || c.ids.waitStart == KErrNotFound then StartWaitTimerL(c, env)
      else c
  }

  function AfterFetchL(a: Agent, env: Env): Agent {
    if a.flags.temporary || (a.flags.stayOnline && !IsEmn(a)) then StartFolderSyncTimerL(a, env)
    else DisconnectL(a, true, env)
  }

  function AfterConnectionL(a: Agent, env: Env): Agent {
    if IsReconnectAfterError(a) then StartWaitTimerL(a, env) else GiveUpL(a, env)
  }

  function RestartL(a: Agent): Agent { CreateCompletedOp(ResetAll(a).(state := Initialised)) }

  /** Back to a normal agent after a temporary one has lost its connection. */
  function BackToNormal(a: Agent): Agent {
    a.(flags := a.flags.(dontRemove := false, temporary := false, dontReconnect := false,
                         stayOnline := false, removeMe := false))
  }

  function ChangeNextStateL(a: Agent, env: Env): Agent {
    var remove := a.state.AutoDisconnecting? && a.flags.removeMe;
    if remove && !a.flags.dontRemove then a.(removed := true)
    else NextStateL(if remove then BackToNormal(a) else a, env)
  }

  function NextStateL(a: Agent, env: Env): Agent {
    var b := ErrorHandled(a, env);
    if b.left then b
    else
      match b.state
      case Initialised => InitialiseL(b, env)
      case Connecting => DisconnectL(b, true, env)
      case PlainConnecting => SynchroniseNewL(b, env)
      case Synchronising => FetchNewMailL(b)
      case Fetching => AfterFetchL(b, env)
      case ConnectingToStayOnline => ConnectIfAllowedL(b, b.ids.stayOnline, env)
      case ConnectFailed => AfterConnectionL(b, env)
      case Queued => AfterConnectionL(b, env)
      case Reconnecting => AfterConnectionL(b, env)
      case AutoDisconnecting => AfterConnectionL(b, env)
      case UserDisconnecting => AfterConnectionL(b, env)
      case ConnTerminated => AfterConnectionL(b, env)
      case TimerWaiting => ConnectIfAllowedL(b, b.ids.interval, env)
      case TimerWaitingForStart => ConnectIfAllowedL(b, b.ids.waitStart, env)
      case Idle => b
      case FatalError => NoteAndSwitchOffL(b, env)
      case DoingFilteredPopulate => RestartL(b)
      case TimerWaitingForStop => RestartL(b)
  }

  // ---- IMAP-only events --------------------------------------------------------------------------

  /** The server has finished a synchronisation. */
  function SynchronisationComplete(a: Agent): Agent {
    var b := a.(retry := 0, settings := a.settings.(updateOk := true));
    if b.flags.stayOnline && b.ids.populate == KErrNotFound then FetchNewMailL(b) else b
  }

  /** The folder observer reports changes; mailbox: the mailbox entry itself is among them. */
  function HandleFolderEntryL(a: Agent, mailbox: bool, env: Env): Agent {
    if mailbox && !env.connected then
      DisconnectL(a.(flags := a.flags.(removeMe := true)), true, env)
    else if a.ids.folderSync > KErrNotFound then a.(flags := a.flags.(fetchAfterSync := true))
    else CreateCompletedOp(a.(state := Fetching))
  }

  function SetUpdateMailWhileConnectedL(a: Agent, alreadyCreated: bool, env: Env): Agent {
    if a.flags.stayOnline then a
    else
      var b := a.(flags := a.flags.(dontRemove := a.flags.dontRemove || alreadyCreated,
                                    temporary := true, dontReconnect := true));
      if env.connected then
        StartFolderSyncTimerL(b.(flags := b.flags.(stayOnline := true), state := Idle), env)
      else DisconnectL(b.(flags := b.flags.(removeMe := true)), true, env)
  }
}
