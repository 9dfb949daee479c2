/** The POP agent: what it does when an operation completes and how it picks its next state. */
module PopAgent {
  import opened AgentState

  function StartWaitTimerL(a: Agent, env: Env): Agent {
    if a.state.TimerWaiting? then a
    else if a.connectNow && !IsEmn(a) then
      AddOp(a, IntervalTimer).(ids := a.ids.(interval := a.nextId), state := TimerWaiting, connectNow := false)
    else if a.retry % KAOMaxRetries == 0 && !a.state.Queued? && !IsEmn(a) && !env.readable then Leave(a)
    else
      AddOp(a, IntervalTimer).(ids := a.ids.(interval := a.nextId), state := TimerWaiting)
  }

  function DoFilteredPopulateL(a: Agent, env: Env): Agent {
    if !env.readable then Leave(a)
    else
      var b := a.(state := DoingFilteredPopulate);
      if !env.bodies then CreateCompletedOp(b)
      else if !env.invokes then Leave(b)
      else AddOp(b, Populate).(ids := b.ids.(populate := b.nextId))
  }

  function HandleOpCompleted(a: Agent, id: int, code: Err, env: Env): Agent {
    if id == a.ids.connect && !code.ErrNone? then
      var b := a.(error := code);
      if env.readable then b else Leave(b)
    else if id == a.ids.connect then
      a.(error := ErrNone, ids := a.ids.(connect := KErrNotFound), retry := 0,
         settings := a.settings.(updateOk := true))
    else if id == a.ids.populate then a.(ids := a.ids.(populate := KErrNotFound))
    else if id == a.ids.interval then a.(ids := a.ids.(interval := KErrNotFound))
    else if id == a.ids.waitStop then
      if code.ErrNone? then
        CheckAndHandleSchedulingL(a.(ids := a.ids.(waitStop := KErrNotFound)), env).(left := false)
      else a
    else if id == a.ids.waitStart then
      if code.ErrNone? then
        CheckAndHandleSchedulingL(a.(ids := a.ids.(waitStart := KErrNotFound)), env).(left := false)
      else a
    else if id == a.ids.startDelay then a.(connectNow := true)
    else a
  }

  function InitialiseL(a: Agent, env: Env): Agent {
    var b := ResetAll(a);
    if IsEmn(b) then CreateCompletedOp(b.(state := Idle))
    else
      var c := CheckAndHandleSchedulingL(b, env);
      if c.left then c
      else if c.ids.waitStop != KErrNotFound || c.ids.waitStart == KErrNotFound then StartWaitTimerL(c, env)
      else c
  }

  function ChangeNextStateL(a: Agent, env: Env): Agent {
    var b := ErrorHandled(a, env);
    if b.left then b
    else
      match b.state
      case Initialised => InitialiseL(b, env)
      case Connecting => DoFilteredPopulateL(b, env)
      case DoingFilteredPopulate => DisconnectL(b, true, env)
      case ConnectFailed => AfterConnectionL(b, env)
      case Queued => AfterConnectionL(b, env)
      case Reconnecting => AfterConnectionL(b, env)
      case AutoDisconnecting => AfterConnectionL(b, env)
      case UserDisconnecting => AfterConnectionL(b, env)
      case ConnTerminated => AfterConnectionL(b, env)
      case TimerWaiting => ConnectIfAllowedL(b, b.ids.interval, env)
      case TimerWaitingForStart => ConnectIfAllowedL(b, b.ids.waitStart, env)
      case Idle => b
      case FatalError => NoteAndSwitchOffL(b, env)
      case PlainConnecting => RestartL(b)
      case ConnectingToStayOnline => RestartL(b)
      case Synchronising => RestartL(b)
      case Fetching => RestartL(b)
      case TimerWaitingForStop => RestartL(b)
  }

  function AfterConnectionL(a: Agent, env: Env): Agent {
    if IsReconnectAfterError(a) then StartWaitTimerL(a, env) else GiveUpL(a, env)
  }

  function RestartL(a: Agent): Agent { CreateCompletedOp(ResetAll(a).(state := Initialised)) }
}
