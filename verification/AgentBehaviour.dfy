/** What single events make an agent do, said of the agent's step as a whole: which operations are
    pending afterwards, and in which state it waits for them. */
module AgentBehaviour {
  import opened AgentState
  import opened AgentRuns
  import opened AgentTable
  import opened AgentInvariant
  import PopAgent
  import ImapAgent

  predicate Pending(a: Agent, id: int, k: Kind) { id in a.ops && a.ops[id] == k }

  /** The platform lets everything through. */
  predicate Through(env: Env) {
    env.queries && env.networkQueries && env.readable && env.saves && env.notes && env.invokes && env.observes
    && !env.iap.Unknown?
  }

  /** The mailbox may be connected now. */
  predicate MayConnect(a: Agent, env: Env) {
    && (!env.diskLow || IsTemporary(a)) && !env.offline && env.iap.Valid?
    && (!a.settings.ao.AutoOff? || !a.settings.emn.NotificationsOff?)
    && (a.settings.ao.AutoHomeNetwork? || a.settings.emn.NotificationsHome? ==> env.homeNetwork)
  }

  /** Connecting fails for a reason that switches the agent off. */
  predicate Hopeless(a: Agent, env: Env) {
    (env.diskLow && !IsTemporary(a)) || (!env.offline && env.iap.Invalid?)
  }

  /** The operation is pending in an agent that a run has kept in order. */
  ghost predicate Due(a: Agent, id: int, k: Kind) { Inv(a) && !a.removed && !a.left && Pending(a, id, k) }

  /** An IMAP agent without notifications that stays online connects to stay; others just connect. */
  predicate Stays(a: Agent) { a.protocol.Imap4? && a.flags.stayOnline && !IsEmn(a) }

  /** b is a, with the connect operation k started; timers apart. */
  predicate Connects(a: Agent, b: Agent, k: nat) {
    && k in b.ops && !(k in a.ops) && b.retry == a.retry && !b.removed
    && (if Stays(a) then b.state.ConnectingToStayOnline? && b.ops[k].StayOnlineConnect? && b.ids.stayOnline == k
        else b.ops[k].Connect? && b.ids.connect == k
             && b.state == if a.protocol.Pop3? then Connecting else PlainConnecting)
  }

  /** The agent is still there, k is its next operation id, and it serves the same mailbox in the same way. */
  predicate GoesOn(a: Agent, b: Agent, k: nat) {
    && b.protocol == a.protocol && b.flags == a.flags && SameAccess(a, b) && b.nextId == k && !b.removed && !b.left
    && b.error.ErrNone?
  }

  /** Switched off: no operation is left, and the setting that kept the agent going is off. */
  predicate SwitchedOff(a: Agent, b: Agent) {
    && b.removed && b.ops == map[] && b.state.Idle?
    && b.settings == if IsEmn(a) then a.settings.(emn := NotificationsOff) else a.settings.(ao := AutoOff)
  }

  /** No connect operation of b is new. */
  ghost predicate NoNewConnect(a: Agent, b: Agent) {
    forall i :: i in b.ops && IsConnect(b.ops[i]) ==> i in a.ops && IsConnect(a.ops[i])
  }

  // ---- the handlers, exactly -------------------------------------------------------------------------

  lemma ConnectDecides(a: Agent, env: Env)
    requires Through(env) && Inv(a) && !a.left && !a.removed
    ensures var b := ConnectL(a, env);
      && !b.left
      && (Hopeless(a, env) ==> SwitchedOff(a, b))
      && (MayConnect(a, env) ==> Connects(a, b, a.nextId))
      && (MayConnect(a, env) ==>
            && b.ops == a.ops[a.nextId := if Stays(a) then StayOnlineConnect else Connect] && b.nextId == a.nextId + 1
            && b.ids == (if Stays(a) then a.ids.(stayOnline := a.nextId) else a.ids.(connect := a.nextId)))
      && (!Hopeless(a, env) && !MayConnect(a, env) ==>
            b == a.(state := Idle, ops := a.ops[a.nextId := Kind.Completed], nextId := a.nextId + 1))
  {}

  function NoTimers(a: Agent): map<int, Kind> { a.ops - {a.ids.waitStop} - {a.ids.waitStart} - {a.ids.interval} }

  lemma TimersCleaned(a: Agent)
    requires Inv(a)
    ensures CleanScheduleTimers(a)
      == a.(ops := NoTimers(a), ids := a.ids.(waitStop := KErrNotFound, waitStart := KErrNotFound, interval := KErrNotFound))
    ensures -1 !in a.ops && a.nextId !in a.ops
  {
    TimersPend(a);
    hide Inv;
    assert a.ids.waitStop == KErrNotFound ==> a.ops - {a.ids.waitStop} == a.ops;
    var b := a.(ops := a.ops - {a.ids.waitStop}, ids := a.ids.(waitStop := KErrNotFound));
    assert a.ids.waitStart == KErrNotFound ==> b.ops - {a.ids.waitStart} == b.ops;
    var c := b.(ops := b.ops - {a.ids.waitStart}, ids := b.ids.(waitStart := KErrNotFound));
    assert a.ids.interval == KErrNotFound ==> c.ops - {a.ids.interval} == c.ops;
  }

  lemma TimersPend(a: Agent)
    requires Inv(a)
    ensures -1 !in a.ops && a.nextId !in a.ops
    ensures a.ids.waitStop != KErrNotFound ==> Pending(a, a.ids.waitStop, StopTimer)
    ensures a.ids.waitStart != KErrNotFound ==> Pending(a, a.ids.waitStart, StartTimer)
    ensures a.ids.interval != KErrNotFound ==> Pending(a, a.ids.interval, IntervalTimer)
    ensures a.ids.waitStart == KErrNotFound || a.ids.waitStop == KErrNotFound
  {}

  /** The schedule says connect until later: the stop timer is set. */
  lemma ScheduleConnects(a: Agent, env: Env)
    requires Inv(a) && env.schedule.Connected? && env.schedule.seconds > 0
    ensures CheckAndHandleSchedulingL(a, env)
      == a.(ops := NoTimers(a)[a.nextId := StopTimer], nextId := a.nextId + 1,
            ids := a.ids.(waitStop := a.nextId, waitStart := KErrNotFound, interval := KErrNotFound))
  {
    TimersCleaned(a);
    hide Inv, CleanScheduleTimers;
    var p := NoTimers(a)[a.nextId := StopTimer];
    assert p - {KErrNotFound} == p;
  }

  /** The schedule says wait: the start timer is set. */
  lemma ScheduleWaits(a: Agent, env: Env)
    requires Inv(a) && !a.left && env.schedule.WaitingToConnect? && a.ids.stayOnline == KErrNotFound
    ensures CheckAndHandleSchedulingL(a, env)
      == a.(ops := NoTimers(a)[a.nextId := StartTimer], nextId := a.nextId + 1, state := TimerWaitingForStart, connectNow := false,
            ids := a.ids.(waitStart := a.nextId, waitStop := KErrNotFound, interval := KErrNotFound))
  {
    TimersCleaned(a);
    hide Inv, CleanScheduleTimers;
    var p := NoTimers(a)[a.nextId := StartTimer];
    assert p - {KErrNotFound} == p;
  }

  /** The schedule says wait while the agent stays online: it is disconnected first. */
  lemma ScheduleEndsConnection(a: Agent, env: Env)
    requires Inv(a) && !a.left && env.schedule.WaitingToConnect? && a.ids.stayOnline != KErrNotFound && (env.connected ==> env.invokes)
    ensures var b := CheckAndHandleSchedulingL(a, env);
      && b.ops == NoTimers(a)[a.nextId := if env.connected then Disconnect else Kind.Completed][a.nextId + 1 := StartTimer]
      && b.ids.waitStart == a.nextId + 1 && b.ids.waitStop == b.ids.interval == KErrNotFound
      && b.state.TimerWaitingForStart? && !b.connectNow && b.retry == a.retry && b.left == a.left && b.removed == a.removed
      && b.protocol == a.protocol && b.settings == a.settings && b.flags == a.flags && b.error == a.error
  {
    TimersCleaned(a);
    hide Inv, CleanScheduleTimers;
    var p := NoTimers(a)[a.nextId := if env.connected then Disconnect else Kind.Completed][a.nextId + 1 := StartTimer];
    assert p - {KErrNotFound} == p;
  }

  // ---- a step in two halves ---------------------------------------------------------------------------

  lemma StepOfCompletion(a: Agent, id: int, code: Err, h: Env, c: Env, b: Agent, d: Agent)
    requires id in a.ops && !a.removed && (IsTimer(a.ops[id]) ==> code.ErrNone?)
    requires CompletionHandled(a, id, code, h) == b && !b.left && ChangeNextStateL(b, c) == d && !d.left
    ensures Step(a, OpCompletes(id, code, h, c)) == d
  {
    hide CompletionHandled, ChangeNextStateL;
  }

  function Taken(a: Agent, id: int): Agent { a.(ops := a.ops - {id}) }

  /** An operation that no id stands for is just taken away. */
  lemma OrdinaryHandled(a: Agent, id: int, code: Err, h: Env)
    requires Inv(a) && id in a.ops && (a.ops[id].Completed? || a.ops[id].Disconnect?)
    ensures CompletionHandled(a, id, code, h) == Taken(a, id)
  {
    KindOfRemembered(a.protocol.Imap4?, a.ops, a.nextId, a.ids, id);
    hide Inv, CheckAndHandleSchedulingL, ImapAgent.RescheduleL, ImapAgent.FolderTimerCompleted, ImapAgent.StartFolderSyncTimerL;
  }

  lemma ConnectHandled(a: Agent, id: int, code: Err, h: Env)
    requires Inv(a) && id in a.ops && id == a.ids.connect && (!code.ErrNone? ==> h.readable)
    ensures CompletionHandled(a, id, code, h) ==
      if code.ErrNone? then
        Taken(a, id).(error := ErrNone, ids := a.ids.(connect := KErrNotFound), retry := 0,
                      settings := if a.protocol.Pop3? then a.settings.(updateOk := true) else a.settings)
      else Taken(a, id).(error := code)
  {
    KindOfRemembered(a.protocol.Imap4?, a.ops, a.nextId, a.ids, id);
    hide Inv;
  }

  lemma IntervalHandled(a: Agent, id: int, h: Env)
    requires Inv(a) && id in a.ops && id == a.ids.interval
    ensures CompletionHandled(a, id, ErrNone, h) == Taken(a, id).(ids := a.ids.(interval := KErrNotFound))
  {
    KindOfRemembered(a.protocol.Imap4?, a.ops, a.nextId, a.ids, id);
    hide Inv;
  }

  lemma NoErrorNoHandling(a: Agent, env: Env)
    requires a.error.ErrNone?
    ensures ErrorHandled(a, env) == a
  {}

  /** The agent is on its way out of the array, or back to a normal one. */
  predicate Removes(a: Agent) { a.protocol.Imap4? && a.state.AutoDisconnecting? && a.flags.removeMe }

  lemma PopChooses(b: Agent, c: Env)
    requires b.protocol.Pop3? && b.error.ErrNone? && !b.left
    ensures b.state.Initialised? ==> ChangeNextStateL(b, c) == PopAgent.InitialiseL(b, c)
    ensures b.state.Connecting? ==> ChangeNextStateL(b, c) == PopAgent.DoFilteredPopulateL(b, c)
    ensures b.state.DoingFilteredPopulate? ==> ChangeNextStateL(b, c) == DisconnectL(b, true, c)
    ensures b.state.TimerWaiting? ==> ChangeNextStateL(b, c) == ConnectIfAllowedL(b, b.ids.interval, c)
    ensures b.state.TimerWaitingForStart? ==> ChangeNextStateL(b, c) == ConnectIfAllowedL(b, b.ids.waitStart, c)
    ensures IsAfterConnection(b.state) ==> ChangeNextStateL(b, c) == PopAgent.AfterConnectionL(b, c)
    ensures b.state.Idle? ==> ChangeNextStateL(b, c) == b
    ensures b.state.FatalError? ==> ChangeNextStateL(b, c) == NoteAndSwitchOffL(b, c)
  {
    NoErrorNoHandling(b, c);
    hide ErrorHandled, DisconnectL, ConnectIfAllowedL, NoteAndSwitchOffL, ImapAgent.ChangeNextStateL;
    hide PopAgent.InitialiseL, PopAgent.AfterConnectionL, PopAgent.DoFilteredPopulateL, PopAgent.RestartL;
  }

  lemma ImapChooses(b: Agent, c: Env)
    requires b.protocol.Imap4? && b.error.ErrNone? && !b.left && !Removes(b)
    ensures b.state.Initialised? ==> ChangeNextStateL(b, c) == ImapAgent.InitialiseL(b, c)
    ensures b.state.PlainConnecting? ==> ChangeNextStateL(b, c) == ImapAgent.SynchroniseNewL(b, c)
    ensures b.state.Synchronising? ==> ChangeNextStateL(b, c) == ImapAgent.FetchNewMailL(b)
    ensures b.state.Fetching? ==> ChangeNextStateL(b, c) == ImapAgent.AfterFetchL(b, c)
    ensures b.state.ConnectingToStayOnline? ==> ChangeNextStateL(b, c) == ConnectIfAllowedL(b, b.ids.stayOnline, c)
    ensures b.state.TimerWaiting? ==> ChangeNextStateL(b, c) == ConnectIfAllowedL(b, b.ids.interval, c)
    ensures b.state.TimerWaitingForStart? ==> ChangeNextStateL(b, c) == ConnectIfAllowedL(b, b.ids.waitStart, c)
    ensures IsAfterConnection(b.state) ==> ChangeNextStateL(b, c) == ImapAgent.AfterConnectionL(b, c)
    ensures b.state.Idle? ==> ChangeNextStateL(b, c) == b
    ensures b.state.FatalError? ==> ChangeNextStateL(b, c) == NoteAndSwitchOffL(b, c)
  {
    NoErrorNoHandling(b, c);
    hide ErrorHandled, DisconnectL, ConnectIfAllowedL, NoteAndSwitchOffL, PopAgent.ChangeNextStateL;
    hide ImapAgent.InitialiseL, ImapAgent.AfterConnectionL, ImapAgent.AfterFetchL, ImapAgent.RestartL;
    hide ImapAgent.FetchNewMailL, ImapAgent.SynchroniseNewL;
  }

  /** The states in which both agents choose alike. */
  lemma BothChoose(b: Agent, c: Env)
    requires b.error.ErrNone? && !b.left
    ensures b.state.TimerWaiting? ==> ChangeNextStateL(b, c) == ConnectIfAllowedL(b, b.ids.interval, c)
    ensures b.state.TimerWaitingForStart? ==> ChangeNextStateL(b, c) == ConnectIfAllowedL(b, b.ids.waitStart, c)
    ensures b.state.Idle? ==> ChangeNextStateL(b, c) == b
    ensures b.state.FatalError? ==> ChangeNextStateL(b, c) == NoteAndSwitchOffL(b, c)
  {
    hide ChangeNextStateL, ConnectIfAllowedL, NoteAndSwitchOffL;
    if b.protocol.Pop3? { PopChooses(b, c); } else if !Removes(b) { ImapChooses(b, c); }
  }

  // ---- POP: connect, populate, disconnect ---------------------------------------------------------------

  /** A connect has succeeded: the counter is reset, the success recorded, and the bodies are fetched if
      they are wanted. */
  lemma PopConnectSucceeds(a: Agent, id: int, h: Env, c: Env)
    requires Due(a, id, Connect) && a.protocol.Pop3? && id == a.ids.connect && a.state.Connecting? && Through(c)
    ensures var b := Step(a, OpCompletes(id, ErrNone, h, c));
      && b.state.DoingFilteredPopulate? && b.retry == 0 && b.settings.updateOk && b.ids.connect == KErrNotFound
      && b.ops == (a.ops - {id})[a.nextId := if c.bodies then Populate else Kind.Completed]
      && (c.bodies ==> b.ids.populate == a.nextId) && GoesOn(a, b, a.nextId + 1)
      && b.ids.waitStop == a.ids.waitStop && b.ids.waitStart == a.ids.waitStart
  {
    ConnectHandled(a, id, ErrNone, h);
    var b := CompletionHandled(a, id, ErrNone, h);
    PopChooses(b, c);
    var d := PopAgent.DoFilteredPopulateL(b, c);
    assert !d.left;
    hide Inv, CompletionHandled, ChangeNextStateL, Step;
    StepOfCompletion(a, id, ErrNone, h, c, b, d);
  }

  /** The bodies are there: the agent disconnects. */
  lemma PopPopulated(a: Agent, id: int, code: Err, h: Env, c: Env)
    requires a.protocol.Pop3? && a.state.DoingFilteredPopulate? && a.error.ErrNone? && Through(c)
    requires (Due(a, id, Populate) && id == a.ids.populate) || Due(a, id, Kind.Completed)
    ensures var b := Step(a, OpCompletes(id, code, h, c));
      && b.state.AutoDisconnecting? && b.ops == (a.ops - {id})[a.nextId := if c.connected then Disconnect else Kind.Completed]
      && (a.ops[id].Populate? ==> b.ids.populate == KErrNotFound) && b.retry == a.retry && b.settings == a.settings && GoesOn(a, b, a.nextId + 1)
      && b.ids.waitStop == a.ids.waitStop && b.ids.waitStart == a.ids.waitStart
  {
    KindOfRemembered(false, a.ops, a.nextId, a.ids, id);
    hide Inv, CheckAndHandleSchedulingL;
    var b := CompletionHandled(a, id, code, h);
    assert b == Taken(a, id).(ids := a.ids.(populate := if id == a.ids.populate then KErrNotFound else a.ids.populate));
    PopChooses(b, c);
    var d := DisconnectL(b, true, c);
    hide CompletionHandled, ChangeNextStateL, Step;
    StepOfCompletion(a, id, code, h, c, b, d);
  }

  // ---- IMAP: connect, synchronise, fetch, disconnect ------------------------------------------------------

  /** A plain connect has succeeded: a connected agent synchronises; one that has lost the connection
      tries again. */
  lemma ImapConnectSucceeds(a: Agent, id: int, h: Env, c: Env)
    requires Due(a, id, Connect) && a.protocol.Imap4? && id == a.ids.connect && a.state.PlainConnecting? && Through(c)
    ensures var b := Step(a, OpCompletes(id, ErrNone, h, c));
      && b.retry == 0 && b.ids.connect == KErrNotFound && b.ids.waitStop == a.ids.waitStop && b.ids.waitStart == a.ids.waitStart
      && (c.connected ==> b.state.Synchronising? && b.ids.sync == a.nextId && b.ops == (a.ops - {id})[a.nextId := Sync]
                            && b.settings.updateOk && GoesOn(a, b, a.nextId + 1))
      && (!c.connected ==> b.state.PlainConnecting? && b.ops == (a.ops - {id})[a.nextId := Kind.Completed] && b.error.ErrDisconnected?)
  {
    ConnectHandled(a, id, ErrNone, h);
    var b := CompletionHandled(a, id, ErrNone, h);
    ImapChooses(b, c);
    var d := ImapAgent.SynchroniseNewL(b, c);
    assert !d.left;
    hide Inv, CompletionHandled, ChangeNextStateL, Step;
    StepOfCompletion(a, id, ErrNone, h, c, b, d);
  }

  /** The synchronisation is through: the new mail is fetched. */
  lemma ImapSyncSucceeds(a: Agent, id: int, h: Env, c: Env)
    requires Due(a, id, Sync) && a.protocol.Imap4? && id == a.ids.sync && a.state.Synchronising?
    ensures var b := Step(a, OpCompletes(id, ErrNone, h, c));
      && b.state.Fetching? && b.retry == 0 && b.ids.sync == KErrNotFound
      && b.ops == (a.ops - {id})[a.nextId := Kind.Completed] && GoesOn(a, b, a.nextId + 1) && b.settings == a.settings
      && b.ids.waitStop == a.ids.waitStop && b.ids.waitStart == a.ids.waitStart
  {
    KindOfRemembered(true, a.ops, a.nextId, a.ids, id);
    hide Inv;
    var b := CompletionHandled(a, id, ErrNone, h);
    assert b == Taken(a, id).(error := ErrNone, ids := a.ids.(sync := KErrNotFound), retry := 0);
    ImapChooses(b, c);
    var d := ImapAgent.FetchNewMailL(b);
    hide CompletionHandled, ChangeNextStateL, Step;
    StepOfCompletion(a, id, ErrNone, h, c, b, d);
  }

  /** The mail is fetched: an agent that is neither temporary nor staying online disconnects; the
      others set the folder timer, unless a folder operation or a populate is outstanding. */
  lemma ImapFetched(a: Agent, id: int, code: Err, h: Env, c: Env)
    requires Due(a, id, Kind.Completed) && a.protocol.Imap4? && a.state.Fetching? && a.error.ErrNone? && Through(c)
    ensures var b := Step(a, OpCompletes(id, code, h, c));
      if !IsTemporary(a) && !Stays(a) then
        && b.state.AutoDisconnecting? && b.ops == (a.ops - {id})[a.nextId := if c.connected then Disconnect else Kind.Completed]
        && (c.connected ==> b.ids.disconnect == a.nextId) && GoesOn(a, b, a.nextId + 1) && b.retry == a.retry
        && b.settings == a.settings && b.ids.waitStop == a.ids.waitStop && b.ids.waitStart == a.ids.waitStart
      else if a.flags.stayOnline && a.ids.folderTimer == a.ids.folderSync == a.ids.populate == KErrNotFound then
        b.state.Fetching? && b.ops == (a.ops - {id})[a.nextId := FolderTimer] && b.ids.folderTimer == a.nextId
      else b == Taken(a, id)
  {
    OrdinaryHandled(a, id, code, h);
    var b := Taken(a, id);
    ImapChooses(b, c);
    var d := ImapAgent.AfterFetchL(b, c);
    assert !d.left;
    hide Inv, CompletionHandled, ChangeNextStateL, Step;
    StepOfCompletion(a, id, code, h, c, b, d);
  }

  // ---- after a connection --------------------------------------------------------------------------------------

  /** The connection is over: an agent that does not serve notifications waits for its next turn; one
      that does gives up and is idle. */
  lemma ConnectionIsOver(a: Agent, id: int, code: Err, h: Env, c: Env)
    requires (Due(a, id, Kind.Completed) || Due(a, id, Disconnect)) && IsAfterConnection(a.state) && a.error.ErrNone?
    requires !Removes(a) && Through(c)
    ensures var b := Step(a, OpCompletes(id, code, h, c));
      if Resigns(a) then
        b.state.Idle? && b.retry == 0 && Pending(b, a.nextId, if c.connected then Disconnect else Kind.Completed) && NoNewConnect(a, b)
      else
        && b.state.TimerWaiting? && b.ids.interval == a.nextId && Pending(b, a.nextId, IntervalTimer)
        && b.retry == a.retry && b.settings == a.settings && NoNewConnect(a, b) && GoesOn(a, b, a.nextId + 1)
        && b.ids.waitStop == a.ids.waitStop && b.ids.waitStart == a.ids.waitStart
  {
    OrdinaryHandled(a, id, code, h);
    var b := Taken(a, id);
    AfterConnectionDoes(b, c);
    var d := ChangeNextStateL(b, c);
    hide Inv, CompletionHandled, ChangeNextStateL, Step;
    StepOfCompletion(a, id, code, h, c, b, d);
  }

  /** The operations without a running interval timer, which only the IMAP agent drops. */
  function Rested(a: Agent): map<int, Kind> {
    if a.protocol.Imap4? && a.ids.interval in a.ops && a.ids.interval > KErrNotFound then a.ops - {a.ids.interval} else a.ops
  }

  /** The agent waits for its next turn. */
  function WaitingNow(b: Agent): Agent {
    b.(ops := Rested(b)[b.nextId := IntervalTimer], nextId := b.nextId + 1, state := TimerWaiting,
       ids := b.ids.(interval := b.nextId), connectNow := b.connectNow && IsEmn(b))
  }

  lemma WaitStarts(b: Agent, c: Env)
    requires !b.state.TimerWaiting? && !b.left && c.readable
    ensures b.protocol.Pop3? ==> PopAgent.StartWaitTimerL(b, c) == WaitingNow(b)
    ensures b.protocol.Imap4? ==> ImapAgent.StartWaitTimerL(b, c) == WaitingNow(b)
  {}

  lemma GivesUpIdle(b: Agent, c: Env)
    requires !b.left && (c.connected ==> c.invokes)
    ensures var d := GiveUpL(b, c);
      && d.state.Idle? && d.retry == 0 && !d.left && d.removed == b.removed
      && d.ops == b.ops[b.nextId := if c.connected then Disconnect else Kind.Completed][b.nextId + 1 := Kind.Completed]
  {}

  /** The agent gives up after a lost connection. */
  predicate Resigns(a: Agent) {
    IsEmn(a) && !IsTemporary(a) && !((a.state.Queued? || a.state.Reconnecting?) && a.retry < 3)
  }

  lemma AfterConnectionChooses(b: Agent, c: Env)
    requires IsAfterConnection(b.state) && b.error.ErrNone? && !b.left && !Removes(b) && c.readable
    ensures ChangeNextStateL(b, c) == if Resigns(b) then GiveUpL(b, c) else WaitingNow(b)
  {
    if b.protocol.Pop3? { PopChooses(b, c); } else { ImapChooses(b, c); }
    hide ChangeNextStateL, GiveUpL, WaitingNow, PopAgent.StartWaitTimerL, ImapAgent.StartWaitTimerL;
    WaitStarts(b, c);
  }

  lemma AfterConnectionDoes(b: Agent, c: Env)
    requires IsAfterConnection(b.state) && b.error.ErrNone? && !b.left && !Removes(b) && Through(c)
    ensures var d := ChangeNextStateL(b, c);
      && !d.left && NoNewConnect(b, d) && d.removed == b.removed
      && if Resigns(b) then
           d.state.Idle? && d.retry == 0 && Pending(d, b.nextId, if c.connected then Disconnect else Kind.Completed)
         else d == WaitingNow(b)
  {
    AfterConnectionChooses(b, c);
    hide ChangeNextStateL;
    GivesUpIdle(b, c);
    hide GiveUpL;
  }
}
