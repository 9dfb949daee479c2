/** What a failed connect does, code by code, to an agent of either protocol. */
module AgentErrors {
  import opened AgentState
  import opened AgentRuns
  import opened AgentTable
  import opened AgentInvariant
  import opened AgentBehaviour
  import opened AgentSchedule
  import PopAgent
  import ImapAgent

  /** A connect of a connecting agent completes with an error, and the platform lets everything through. */
  ghost predicate Fails(a: Agent, id: int, code: Err, h: Env, c: Env) {
    && Due(a, id, Connect) && id == a.ids.connect && !code.ErrNone? && Through(h) && Through(c)
    && a.state == if a.protocol.Pop3? then Connecting else PlainConnecting
  }

  /** The agent with the error recorded. */
  function Noted(a: Agent, id: int, code: Err): Agent { Taken(a, id).(error := code) }

  lemma FailureNoted(a: Agent, id: int, code: Err, h: Env, c: Env)
    requires Fails(a, id, code, h, c)
    ensures CompletionHandled(a, id, code, h) == Noted(a, id, code)
    ensures Inv(Noted(a, id, code))
  {
    ConnectHandled(a, id, code, h);
    KindOfRemembered(a.protocol.Imap4?, a.ops, a.nextId, a.ids, id);
    CompleteOther(a.protocol.Imap4?, a.ops, a.nextId, a.ids, id);
    hide Inv, CompletionHandled;
  }

  /** Choosing with an error is choosing without it, once it has been dealt with. */
  lemma ErrorThenChoice(b: Agent, c: Env, x: Agent)
    requires ErrorHandled(b, c) == x && !x.left && x.error.ErrNone? && !Removes(b) && !Removes(x)
    ensures ChangeNextStateL(b, c) == ChangeNextStateL(x, c)
  {
    NoErrorNoHandling(x, c);
    hide ErrorHandled, DisconnectL, ConnectIfAllowedL, NoteAndSwitchOffL;
    hide PopAgent.InitialiseL, PopAgent.AfterConnectionL, PopAgent.DoFilteredPopulateL, PopAgent.RestartL;
    hide ImapAgent.InitialiseL, ImapAgent.AfterConnectionL, ImapAgent.AfterFetchL, ImapAgent.RestartL;
    hide ImapAgent.FetchNewMailL, ImapAgent.SynchroniseNewL;
  }

  lemma FailsThen(a: Agent, id: int, code: Err, h: Env, c: Env, x: Agent, d: Agent)
    requires Fails(a, id, code, h, c) && ErrorHandled(Noted(a, id, code), c) == x && x.error.ErrNone?
    requires !x.left && !Removes(x) && ChangeNextStateL(x, c) == d && !d.left
    ensures Step(a, OpCompletes(id, code, h, c)) == d
  {
    FailureNoted(a, id, code, h, c);
    ErrorThenChoice(Noted(a, id, code), c, x);
    hide Inv, CompletionHandled, ChangeNextStateL, Step, ErrorHandled;
    StepOfCompletion(a, id, code, h, c, Noted(a, id, code), d);
  }

  /** Cancelled or aborted: everything pending is dropped, and the agent starts afresh. */
  lemma CancelledConnect(a: Agent, id: int, code: Err, h: Env, c: Env)
    requires Fails(a, id, code, h, c) && (code.ErrCancel? || code.ErrAbort?)
    requires c.schedule.WaitingToConnect? || (c.schedule.Connected? && c.schedule.seconds > 0)
    ensures var b := Step(a, OpCompletes(id, code, h, c));
      StartsAfresh(a, b, c) && b.retry == a.retry && b.settings == a.settings
  {
    FailureNoted(a, id, code, h, c);
    var x := Taken(a, id).(error := ErrNone, state := Initialised);
    assert ErrorHandled(Noted(a, id, code), c) == x;
    hide ErrorHandled;
    assert Inv(x);
    InitialiseDoes(x, c);
    var d := ChangeNextStateL(x, c);
    hide Inv, CompletionHandled, ChangeNextStateL, Step;
    FailsThen(a, id, code, h, c, x, d);
  }

  /** What a failed agent that does not resign does: it waits, with its other operations left alone. */
  predicate WaitsAgain(a: Agent, id: int, b: Agent, retry: nat) {
    && b.state.TimerWaiting? && b.ids.interval == a.nextId && b.ops == Rested(Taken(a, id))[a.nextId := IntervalTimer]
    && b.retry == retry && b.settings == a.settings && b.error.ErrNone? && !b.removed
  }

  /** What one that resigns does. */
  predicate GoesIdle(a: Agent, b: Agent, c: Env) {
    b.state.Idle? && b.retry == 0 && Pending(b, a.nextId, if c.connected then Disconnect else Kind.Completed) && !b.removed
  }

  /** The error sets the agent to a state after a connection. */
  lemma AfterError(a: Agent, id: int, code: Err, h: Env, c: Env, s: State, r: nat)
    requires Fails(a, id, code, h, c) && IsAfterConnection(s) && !s.AutoDisconnecting?
    requires ErrorHandled(Noted(a, id, code), c) == Taken(a, id).(error := ErrNone, state := s, retry := r)
    ensures var b := Step(a, OpCompletes(id, code, h, c));
      if IsEmn(a) && !IsTemporary(a) && !((s.Queued? || s.Reconnecting?) && r < 3) then GoesIdle(a, b, c)
      else WaitsAgain(a, id, b, r)
  {
    var x := Taken(a, id).(error := ErrNone, state := s, retry := r);
    AfterConnectionDoes(x, c);
    var d := ChangeNextStateL(x, c);
    hide Inv, CompletionHandled, ChangeNextStateL, Step, ErrorHandled;
    FailsThen(a, id, code, h, c, x, d);
  }

  /** The line is busy: the agent is queued and tries again; an agent that serves notifications tries
      three times. */
  lemma BusyConnect(a: Agent, id: int, code: Err, h: Env, c: Env)
    requires Fails(a, id, code, h, c) && (code.ErrGeneral? || code.ErrInUse?)
    ensures var b := Step(a, OpCompletes(id, code, h, c));
      if IsEmn(a) && !IsTemporary(a) && a.retry >= 3 then GoesIdle(a, b, c) else WaitsAgain(a, id, b, a.retry)
  {
    AfterError(a, id, code, h, c, Queued, a.retry);
  }

  /** The connection was terminated or timed out: no failure is counted, and an agent that serves
      notifications gives up. */
  lemma TerminatedConnect(a: Agent, id: int, code: Err, h: Env, c: Env)
    requires Fails(a, id, code, h, c) && (code.ErrConnectionTerminated? || code.ErrTimedOut?)
    ensures var b := Step(a, OpCompletes(id, code, h, c));
      if IsEmn(a) && !IsTemporary(a) then GoesIdle(a, b, c) else WaitsAgain(a, id, b, a.retry)
  {
    AfterError(a, id, code, h, c, ConnTerminated, a.retry);
  }

  /** The agent's settings cannot work: it switches itself off. */
  lemma FatalConnect(a: Agent, id: int, code: Err, h: Env, c: Env)
    requires Fails(a, id, code, h, c)
    requires code.ErrFatal? || (code.ErrServerNotFound? && (IsEmn(a) || !a.settings.updateOk))
    ensures var b := Step(a, OpCompletes(id, code, h, c)); SwitchedOff(a, b) && b.retry == 0
  {
    var x := Taken(a, id).(error := ErrNone, state := FatalError, retry := 0);
    SwitchesOff(a, id, code, h, c, x);
  }

  lemma SwitchesOff(a: Agent, id: int, code: Err, h: Env, c: Env, x: Agent)
    requires Fails(a, id, code, h, c) && ErrorHandled(Noted(a, id, code), c) == x
    requires x == Taken(a, id).(error := ErrNone, state := FatalError, retry := 0)
    ensures var b := Step(a, OpCompletes(id, code, h, c)); SwitchedOff(a, b) && b.retry == 0
  {
    BothChoose(x, c);
    var d := NoteAndSwitchOffL(x, c);
    hide Inv, CompletionHandled, ChangeNextStateL, Step, ErrorHandled;
    FailsThen(a, id, code, h, c, x, d);
  }

  /** The server was not found, but an update has worked with these settings: the agent keeps trying. */
  lemma MissingServer(a: Agent, id: int, code: Err, h: Env, c: Env)
    requires Fails(a, id, code, h, c) && code.ErrServerNotFound? && !IsEmn(a) && a.settings.updateOk
    ensures WaitsAgain(a, id, Step(a, OpCompletes(id, code, h, c)), a.retry + 1)
  {
    AfterError(a, id, code, h, c, ConnectFailed, a.retry + 1);
  }

  /** Any other failure is counted.  The agent tries again, except that one that serves notifications
      gives up at every third failure, and that the fifteenth without any success is fatal. */
  lemma OrdinaryFailure(a: Agent, id: int, code: Err, h: Env, c: Env)
    requires Fails(a, id, code, h, c) && (code.ErrOther? || code.ErrDisconnected?)
    ensures var b := Step(a, OpCompletes(id, code, h, c)); var r := a.retry + 1;
      if r % 3 == 0 && r >= 15 && !a.settings.updateOk then SwitchedOff(a, b) && b.retry == 0
      else if IsEmn(a) && !IsTemporary(a) && (r % 3 == 0 || r >= 3) then GoesIdle(a, b, c)
      else WaitsAgain(a, id, b, r)
  {
    var r := a.retry + 1;
    if r % 3 == 0 && r >= 15 && !a.settings.updateOk {
      SwitchesOff(a, id, code, h, c, Taken(a, id).(error := ErrNone, state := FatalError, retry := 0));
    } else if r % 3 == 0 {
      AfterError(a, id, code, h, c, ConnectFailed, r);
    } else {
      AfterError(a, id, code, h, c, Reconnecting, r);
    }
  }

  /** A failed connect whose stored flag cannot be read is taken away, and nothing else happens. */
  lemma UnreadableConnectFailure(a: Agent, id: int, code: Err, h: Env, c: Env)
    requires Due(a, id, Connect) && id == a.ids.connect && !code.ErrNone? && !h.readable
    ensures Step(a, OpCompletes(id, code, h, c)) == Noted(a, id, code)
  {
    KindOfRemembered(a.protocol.Imap4?, a.ops, a.nextId, a.ids, id);
    hide Inv, ChangeNextStateL;
  }

  /** If the choice of the next state leaves, the agent drops everything and starts over. */
  lemma LeaveRestarts(a: Agent, id: int, h: Env, c: Env)
    requires Due(a, id, Connect) && a.protocol.Pop3? && id == a.ids.connect && a.state.Connecting? && !c.readable
    ensures var b := Step(a, OpCompletes(id, ErrNone, h, c));
      b.state.Initialised? && b.ops == map[a.nextId := Kind.Completed] && b.ids == NoIds.(startDelay := a.ids.startDelay) && b.retry == 0
  {
    ConnectHandled(a, id, ErrNone, h);
    var b := CompletionHandled(a, id, ErrNone, h);
    PopChooses(b, c);
    hide Inv, CompletionHandled, ChangeNextStateL;
  }
}
