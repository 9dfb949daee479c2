/** The state of one Always-Online mailbox agent and the handlers that the POP and IMAP agents
    share.  A handler is a function from the agent's state, and the answers the platform gives
    while the handler runs, to the agent's next state. */
module AgentState {

  /** The id that names no operation. */
  const KErrNotFound: int := -1
  const KAOMaxRetries: nat := 3
  const KAOMaxRetriesSwitchOff: nat := 5 * KAOMaxRetries

  datatype Protocol = Imap4 | Pop3

  datatype State =
    | Initialised | Idle | Connecting | DoingFilteredPopulate | PlainConnecting | ConnectingToStayOnline
    | Synchronising | Fetching | AutoDisconnecting | UserDisconnecting | Queued | TimerWaiting
    | TimerWaitingForStart | TimerWaitingForStop | Reconnecting | ConnectFailed | FatalError | ConnTerminated

  /** What a pending asynchronous operation is for. */
  datatype Kind =
    | IntervalTimer | StartTimer | StopTimer | DelayTimer | FolderTimer
    | Connect | StayOnlineConnect | Sync | FolderSync | Populate | Disconnect | Completed

  predicate IsTimer(k: Kind) {
    k.IntervalTimer? || k.StartTimer? || k.StopTimer? || k.DelayTimer? || k.FolderTimer?
  }

  predicate IsConnect(k: Kind) { k.Connect? || k.StayOnlineConnect? }

  /** Completion codes, grouped as the two error switches group them.  ErrFatal stands for every
      code in the "cannot recover without user intervention" list of the agent's protocol. */
  datatype Err =
    | ErrNone | ErrAbort | ErrCancel | ErrGeneral | ErrInUse | ErrFatal | ErrServerNotFound
    | ErrConnectionTerminated | ErrTimedOut | ErrDisconnected | ErrOther(code: int)

  datatype AutoRetrieval = AutoOn | AutoHomeNetwork | AutoOff
  datatype Notifications = NotificationsOn | NotificationsHome | NotificationsOff

  /** updateOk: an update has succeeded with the current settings. */
  datatype Settings = Settings(ao: AutoRetrieval, emn: Notifications, updateOk: bool)

  /** The remembered operation ids. */
  datatype Ids = Ids(
    interval: int, connect: int, sync: int, waitStart: int, waitStop: int, startDelay: int,
    stayOnline: int, disconnect: int, folderTimer: int, folderSync: int, populate: int)

  /** The IMAP state flags. */
  datatype Flags = Flags(
    stayOnline: bool, fetchAfterSync: bool, dontReconnect: bool, removeMe: bool,
    temporary: bool, dontRemove: bool)

  /** left: a leave is on its way out of the handler.  removed: the agent array has deleted the agent. */
  datatype Agent = Agent(
    protocol: Protocol, state: State, ops: map<int, Kind>, nextId: nat, ids: Ids, error: Err,
    retry: nat, connectNow: bool, settings: Settings, flags: Flags, left: bool, removed: bool)

  datatype Schedule = ScheduleLeaves | WaitingToConnect | Connected(seconds: nat)
  datatype AccessPoint = Valid | Invalid | Unknown

  /** The platform's answers during one handler. */
  datatype Env = Env(
    connected: bool,       // the mailbox entry is online
    schedule: Schedule,    // the scheduler's next interval
    diskLow: bool, offline: bool, homeNetwork: bool,
    iap: AccessPoint,      // Unknown: reading the connection method leaves
    queries: bool,         // the offline status query is answered
    networkQueries: bool,  // the network status query is answered
    readable: bool,        // a stored setting can be read
    saves: bool,           // settings can be stored
    notes: bool,           // a global note can be shown
    invokes: bool,         // an MTM function can be started
    observes: bool,        // the folder observer can be started
    bodies: bool,          // POP: mail bodies are to be fetched
    moreFolders: bool)     // IMAP: more than one subscribed folder

  const NoIds := Ids(KErrNotFound, KErrNotFound, KErrNotFound, KErrNotFound, KErrNotFound, KErrNotFound,
                     KErrNotFound, KErrNotFound, KErrNotFound, KErrNotFound, KErrNotFound)
  const NoFlags := Flags(false, false, false, false, false, false)

  function Fresh(p: Protocol, nextId: nat, settings: Settings): Agent {
    Agent(p, Initialised, map[], nextId, NoIds, ErrNone, 0, false, settings, NoFlags, false, false)
  }

  predicate IsEmn(a: Agent) { !a.settings.emn.NotificationsOff? }

  predicate HomeOnly(s: Settings) { s.ao.AutoHomeNetwork? || s.emn.NotificationsHome? }

  predicate IsTemporary(a: Agent) { a.protocol.Imap4? && a.flags.temporary }

  predicate InConnectingState(s: State) { s.Connecting? || s.PlainConnecting? || s.ConnectingToStayOnline? }

  // ---- operations ----------------------------------------------------------------------------

  /** Appends a new operation.  Its id is the one the session hands out next. */
  function AddOp(a: Agent, k: Kind): Agent {
    a.(ops := a.ops[a.nextId := k], nextId := a.nextId + 1)
  }

  function CreateCompletedOp(a: Agent): Agent { AddOp(a, Completed) }

  /** CleanOperation: the table without the operation, and the id the caller is left with. */
  function CleanOps(ops: map<int, Kind>, id: int): map<int, Kind> { ops - {id} }
  function CleanId(ops: map<int, Kind>, id: int): int { if id in ops then KErrNotFound else id }

  function CleanInterval(a: Agent): Agent {
    a.(ops := CleanOps(a.ops, a.ids.interval), ids := a.ids.(interval := CleanId(a.ops, a.ids.interval)))
  }

  function CleanStart(a: Agent): Agent {
    a.(ops := CleanOps(a.ops, a.ids.waitStart), ids := a.ids.(waitStart := CleanId(a.ops, a.ids.waitStart)))
  }

  function CleanStop(a: Agent): Agent {
    a.(ops := CleanOps(a.ops, a.ids.waitStop), ids := a.ids.(waitStop := CleanId(a.ops, a.ids.waitStop)))
  }

  /** The start-delay id survives a reset. */
  function ResetAll(a: Agent): Agent {
    a.(ops := map[], ids := NoIds.(startDelay := a.ids.startDelay))
  }

  function Suspend(a: Agent): Agent { ResetAll(a).(state := Idle, connectNow := false) }

  function Leave(a: Agent): Agent { a.(left := true) }

  // ---- protocol-specific operations ------------------------------------------------------------

  function DisconnectL(a: Agent, automatic: bool, env: Env): Agent {
    var next := if automatic then AutoDisconnecting else UserDisconnecting;
    if !env.connected then AddOp(a, Completed).(state := next)
    else if !env.invokes then Leave(a)
    else
      var b := AddOp(a, Disconnect).(state := next);
      if a.protocol.Imap4? then b.(ids := b.ids.(disconnect := a.nextId)) else b
  }

  function ConnectAndUpdateHeadersL(a: Agent, env: Env): Agent {
    if !env.invokes then Leave(a)
    else if a.protocol.Pop3? then
      AddOp(a, Connect).(state := Connecting, ids := a.ids.(connect := a.nextId))
    else if a.flags.stayOnline && !IsEmn(a) then
      AddOp(a, StayOnlineConnect).(state := ConnectingToStayOnline, ids := a.ids.(stayOnline := a.nextId))
    else
      AddOp(a, Connect).(state := PlainConnecting, ids := a.ids.(connect := a.nextId))
  }

  // ---- scheduling -----------------------------------------------------------------------------

  function LaunchStartTimerL(a: Agent, env: Env): Agent {
    var b := if a.ids.stayOnline != KErrNotFound then DisconnectL(a, true, env) else a;
    if b.left then b
    else
      var c := AddOp(b, StartTimer).(ids := b.ids.(waitStart := b.nextId), state := TimerWaitingForStart);
      var d := CleanStop(c);
      d.(ids := d.ids.(waitStop := KErrNotFound), connectNow := false)
  }

  function LaunchStopTimerL(a: Agent, seconds: nat): Agent {
    if seconds == 0 then CreateCompletedOp(a.(state := TimerWaitingForStart))
    else
      var b := AddOp(a, StopTimer).(ids := a.ids.(waitStop := a.nextId));
      var c := CleanStart(b);
      c.(ids := c.ids.(waitStart := KErrNotFound))
  }

  function CleanScheduleTimers(a: Agent): Agent {
    var b := if a.ids.waitStop != KErrNotFound then CleanStop(a) else a;
    var c := if b.ids.waitStart != KErrNotFound then CleanStart(b) else b;
    if c.ids.interval != KErrNotFound then CleanInterval(c) else c
  }

  function CheckAndHandleSchedulingL(a: Agent, env: Env): Agent {
    match env.schedule
    case ScheduleLeaves => Leave(a)
    case WaitingToConnect => LaunchStartTimerL(CleanScheduleTimers(a), env)
    case Connected(seconds) => LaunchStopTimerL(CleanScheduleTimers(a), seconds)
  }

  // ---- switching off and connecting ---------------------------------------------------------------

  function SwitchAutoUpdateOffL(a: Agent, env: Env): Agent {
    var b := Suspend(a);
    var c := if IsEmn(a) then b.(settings := b.settings.(emn := NotificationsOff))
             else b.(settings := b.settings.(ao := AutoOff));
    if env.saves then c.(removed := true) else Leave(c)
  }

  function NoteAndSwitchOffL(a: Agent, env: Env): Agent {
    if env.notes then SwitchAutoUpdateOffL(a, env) else Leave(a)
  }

  /** The outcome of ConnectL's checks after disk space and access point. */
  datatype Verdict = Allowed | NotAllowed | QueryLeaves

  function NetworkVerdict(a: Agent, env: Env): Verdict {
    if HomeOnly(a.settings) then
      (if !env.networkQueries then QueryLeaves else if env.homeNetwork then Allowed else NotAllowed)
    else Allowed
  }

  function ConnectL(a: Agent, env: Env): Agent {
    if env.diskLow && !IsTemporary(a) then NoteAndSwitchOffL(a, env)
    else if !env.queries then Leave(a)
    else if !env.offline && env.iap.Unknown? then Leave(a)
    else if !env.offline && env.iap.Invalid? then NoteAndSwitchOffL(a, env)
    else
      var verdict :=
        if env.offline then NotAllowed
        else if a.settings.ao.AutoOff? && a.settings.emn.NotificationsOff? then NotAllowed
        else NetworkVerdict(a, env);
      match verdict
      case QueryLeaves => Leave(a)
      case NotAllowed => CreateCompletedOp(a.(state := Idle))
      case Allowed => ConnectAndUpdateHeadersL(a, env)
  }

  function ConnectIfAllowedL(a: Agent, id: int, env: Env): Agent {
    if id != KErrNotFound then a
    else if IsEmn(a) then ConnectL(a, env)
    else
      var b := CheckAndHandleSchedulingL(a, env);
      if b.left then b
      else if b.ids.waitStop != KErrNotFound || b.ids.waitStart == KErrNotFound then ConnectL(b, env)
      else b
  }

  // ---- errors ---------------------------------------------------------------------------------

  function HandleDefaultError(a: Agent, env: Env): Agent {
    if a.error.ErrServerNotFound? then
      var b := a.(retry := a.retry + 1);
      if !env.readable then Leave(b)
      else if b.settings.updateOk && !IsEmn(b) then b.(state := ConnectFailed)
      else b.(state := FatalError, retry := 0)
    else if InConnectingState(a.state) then
      var b := a.(retry := a.retry + 1);
      if b.retry % KAOMaxRetries != 0 then b.(state := Reconnecting)
      else if !env.readable then Leave(b)
      else if b.retry >= KAOMaxRetriesSwitchOff && !b.settings.updateOk then b.(state := FatalError, retry := 0)
      else b.(state := ConnectFailed)
    else a.(state := ConnTerminated)
  }

  /** Both agents' error switch: they differ only in the codes that ErrFatal stands for. */
  function HandleOpErrorL(a: Agent, env: Env): Agent {
    var b :=
      if a.error.ErrNone? then a
      else if a.error.ErrAbort? || a.error.ErrCancel? then a.(state := Initialised)
      else if a.error.ErrGeneral? || a.error.ErrInUse? then a.(state := Queued)
      else if a.error.ErrFatal? then a.(state := FatalError, retry := 0)
      else if a.error.ErrConnectionTerminated? || a.error.ErrTimedOut? then a.(state := ConnTerminated)
      else HandleDefaultError(a, env);
    if b.left then b else b.(error := ErrNone)
  }

  /** A connection error is dealt with before the next state is chosen, except while the agent waits
      for its schedule to start. */
  function ErrorHandled(a: Agent, env: Env): Agent {
    if !a.error.ErrNone? && !a.state.TimerWaitingForStart? then HandleOpErrorL(a, env) else a
  }

  predicate IsReconnectAfterError(a: Agent) {
    if IsEmn(a) && !IsTemporary(a) then
      (a.state.Queued? || a.state.Reconnecting?) && a.retry < KAOMaxRetries
    else true
  }

  /** Leaving the connection: what both agents do when they give up reconnecting. */
  function GiveUpL(a: Agent, env: Env): Agent {
    var b := DisconnectL(a, true, env);
    if b.left then b else CreateCompletedOp(b.(state := Idle, retry := 0))
  }

  // ---- outside events ----------------------------------------------------------------------------

  function StartL(a: Agent, env: Env): Agent {
    if a.ids.startDelay != KErrNotFound then a
    else if !env.networkQueries || !env.queries then Leave(a)
    else if env.offline || (HomeOnly(a.settings) && !env.homeNetwork) then Suspend(a)
    else
      AddOp(a, DelayTimer).(state := Initialised, ids := a.ids.(startDelay := a.nextId))
  }

  function BaseResumeL(a: Agent, connectNow: bool, settings: Settings, env: Env): Agent {
    var b := a.(settings := settings, connectNow := connectNow);
    if !b.state.Idle? then b
    else if !b.settings.ao.AutoOn? && !env.networkQueries then Leave(b)
    else if !b.settings.ao.AutoOn? && !env.homeNetwork then b
    else CreateCompletedOp(b.(state := Initialised))
  }

  function ResumeL(a: Agent, connectNow: bool, settings: Settings, env: Env): Agent {
    var b := BaseResumeL(a, connectNow, settings, env);
    if b.left || a.protocol.Pop3? then b else b.(flags := b.flags.(stayOnline := false))
  }

  function HandleRoamingEventL(a: Agent): Agent {
    if !a.settings.ao.AutoOn? || !a.settings.emn.NotificationsOn? then ResetAll(a).(state := Idle) else a
  }

  function HandleHomeNetworkEventL(a: Agent): Agent {
    if (!a.settings.ao.AutoOn? || !a.settings.emn.NotificationsOn?) && a.state.Idle? then
      CreateCompletedOp(a.(state := Initialised))
    else a
  }

  function HandleOutOfDiskEventL(a: Agent, env: Env): Agent {
    if IsTemporary(a) then a else NoteAndSwitchOffL(a, env)
  }
}
