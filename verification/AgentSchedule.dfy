/** An agent connects within its schedule and not outside it. */
module AgentSchedule {
  import opened AgentState
  import opened AgentRuns
  import opened AgentTable
  import opened AgentInvariant
  import opened AgentBehaviour
  import PopAgent
  import ImapAgent

  /** The agent sleeps until its schedule starts. */
  predicate Sleeps(b: Agent, k: nat) {
    && b.state.TimerWaitingForStart? && b.ids.waitStart == k && Pending(b, k, StartTimer)
    && b.ids.waitStop == KErrNotFound && !b.connectNow && !b.removed && !b.left
  }

  /** The schedule runs until a stop timer goes off. */
  predicate Awake(b: Agent, k: nat) {
    b.ids.waitStop == k && Pending(b, k, StopTimer) && b.ids.waitStart == KErrNotFound
  }

  // ---- the interval timer has gone off ----------------------------------------------------------------

  lemma AsksAndSleeps(b: Agent, c: Env)
    requires Inv(b) && !b.left && !b.removed && !IsEmn(b)
    requires c.schedule.WaitingToConnect? && b.ids.stayOnline == KErrNotFound
    ensures var d := ConnectIfAllowedL(b, KErrNotFound, c);
      !d.left && Sleeps(d, b.nextId) && d.ops == NoTimers(b)[b.nextId := StartTimer]
  {
    TimersPend(b);
    ScheduleWaits(b, c);
    hide Inv, CheckAndHandleSchedulingL, ConnectL;
  }

  lemma AsksSchedule(b: Agent, c: Env)
    requires Inv(b) && !b.left && !b.removed && !IsEmn(b) && Through(c)
    requires (c.schedule.WaitingToConnect? && b.ids.stayOnline == KErrNotFound) || (c.schedule.Connected? && c.schedule.seconds > 0)
    ensures var d := ConnectIfAllowedL(b, KErrNotFound, c);
      && !d.left
      && (c.schedule.WaitingToConnect? ==> Sleeps(d, b.nextId) && d.ops == NoTimers(b)[b.nextId := StartTimer])
      && (c.schedule.Connected? && MayConnect(b, c) ==>
            && Awake(d, b.nextId) && Connects(b, d, b.nextId + 1) && d.nextId == b.nextId + 2
            && d.settings == b.settings && d.flags == b.flags && d.protocol == b.protocol && d.error == b.error
            && d.ops == NoTimers(b)[b.nextId := StopTimer][b.nextId + 1 := if Stays(b) then StayOnlineConnect else Connect])
      && (c.schedule.Connected? && Hopeless(b, c) ==> SwitchedOff(b, d))
      && (c.schedule.Connected? && !Hopeless(b, c) && !MayConnect(b, c) ==>
            d.state.Idle? && d.ops == NoTimers(b)[b.nextId := StopTimer][b.nextId + 1 := Kind.Completed])
  {
    if c.schedule.WaitingToConnect? {
      AsksAndSleeps(b, c);
    } else {
      AsksAndWakes(b, c);
    }
    hide ConnectIfAllowedL, Inv, NoTimers;
  }

  lemma AsksAndWakes(b: Agent, c: Env)
    requires Inv(b) && !b.left && !b.removed && !IsEmn(b) && Through(c) && c.schedule.Connected? && c.schedule.seconds > 0
    ensures var d := ConnectIfAllowedL(b, KErrNotFound, c);
      && !d.left
      && (MayConnect(b, c) ==>
            && Awake(d, b.nextId) && Connects(b, d, b.nextId + 1) && d.nextId == b.nextId + 2
            && d.settings == b.settings && d.flags == b.flags && d.protocol == b.protocol && d.error == b.error
            && d.ops == NoTimers(b)[b.nextId := StopTimer][b.nextId + 1 := if Stays(b) then StayOnlineConnect else Connect])
      && (Hopeless(b, c) ==> SwitchedOff(b, d))
      && (!Hopeless(b, c) && !MayConnect(b, c) ==>
            d.state.Idle? && d.ops == NoTimers(b)[b.nextId := StopTimer][b.nextId + 1 := Kind.Completed])
  {
    ScheduleConnects(b, c);
    SchedulingInv(b, c);
    NextIdsAreFree(b);
    var s := CheckAndHandleSchedulingL(b, c);
    assert ConnectIfAllowedL(b, KErrNotFound, c) == ConnectL(s, c);
    hide Inv, CheckAndHandleSchedulingL, NoTimers, ConnectIfAllowedL;
    ConnectDecides(s, c);
    hide ConnectL;
  }

  lemma TakenInv(a: Agent, id: int, h: Env)
    requires Due(a, id, IntervalTimer) && id == a.ids.interval
    ensures var b := Taken(a, id).(ids := a.ids.(interval := KErrNotFound));
      Inv(b) && CompletionHandled(a, id, ErrNone, h) == b && NoTimers(b) == NoTimers(a)
  {
    IntervalHandled(a, id, h);
    CleanTimers(a.protocol.Imap4?, a.ops, a.nextId, a.ids);
    TimersPend(a);
    var b := Taken(a, id).(ids := a.ids.(interval := KErrNotFound));
    assert NoTimers(b) == NoTimers(a);
  }

  /** Main result on the end of a wait, for both agents without notifications.  If the schedule says
      wait, the agent sleeps until its start timer goes off, and connects nowhere.  If it says connect,
      the agent connects exactly if it may, with its stop timer set; otherwise it is idle, or switched
      off. */
  lemma WaitIsOver(a: Agent, id: int, h: Env, c: Env)
    requires Due(a, id, IntervalTimer) && id == a.ids.interval && a.state.TimerWaiting? && a.error.ErrNone?
    requires !IsEmn(a) && Through(c)
    requires (c.schedule.WaitingToConnect? && a.ids.stayOnline == KErrNotFound) || (c.schedule.Connected? && c.schedule.seconds > 0)
    ensures var b := Step(a, OpCompletes(id, ErrNone, h, c)); var k := a.nextId;
      && (c.schedule.WaitingToConnect? ==> Sleeps(b, k) && b.ops == NoTimers(a)[k := StartTimer])
      && (c.schedule.Connected? && MayConnect(a, c) ==>
            && Awake(b, k) && Connects(a, b, k + 1) && GoesOn(a, b, k + 2) && b.settings == a.settings
            && b.ops == NoTimers(a)[k := StopTimer][k + 1 := if Stays(a) then StayOnlineConnect else Connect])
      && (c.schedule.Connected? && Hopeless(a, c) ==> SwitchedOff(a, b))
      && (c.schedule.Connected? && !Hopeless(a, c) && !MayConnect(a, c) ==>
            b.state.Idle? && b.ops == NoTimers(a)[k := StopTimer][k + 1 := Kind.Completed])
  {
    TakenInv(a, id, h);
    var b := CompletionHandled(a, id, ErrNone, h);
    BothChoose(b, c);
    AsksSchedule(b, c);
    TimersPend(a);
    var d := ConnectIfAllowedL(b, KErrNotFound, c);
    hide Inv, CompletionHandled, ChangeNextStateL, Step, ConnectIfAllowedL, NoTimers;
    StepOfCompletion(a, id, ErrNone, h, c, b, d);
  }

  /** A schedule without hours: the agent connects whenever it may, and no schedule timer is set. */
  lemma WaitIsOverAtAnyHour(a: Agent, id: int, h: Env, c: Env)
    requires Due(a, id, IntervalTimer) && id == a.ids.interval && a.state.TimerWaiting? && a.error.ErrNone?
    requires !IsEmn(a) && Through(c) && c.schedule == Connected(0)
    ensures var b := Step(a, OpCompletes(id, ErrNone, h, c)); var k := a.nextId;
      && (MayConnect(a, c) ==>
            && Connects(a, b, k + 1) && b.ids.waitStop == b.ids.waitStart == KErrNotFound
            && b.ops == NoTimers(a)[k := Kind.Completed][k + 1 := if Stays(a) then StayOnlineConnect else Connect])
      && (Hopeless(a, c) ==> SwitchedOff(a, b))
      && (!Hopeless(a, c) && !MayConnect(a, c) ==> b.state.Idle?)
  {
    TakenInv(a, id, h);
    var b := CompletionHandled(a, id, ErrNone, h);
    BothChoose(b, c);
    AsksAlways(b, c);
    TimersPend(a);
    NextIdsAreFree(a);
    var d := ConnectIfAllowedL(b, KErrNotFound, c);
    hide Inv, CompletionHandled, ChangeNextStateL, Step, ConnectIfAllowedL, NoTimers;
    StepOfCompletion(a, id, ErrNone, h, c, b, d);
  }

  lemma AsksAlways(b: Agent, c: Env)
    requires Inv(b) && !b.left && !b.removed && !IsEmn(b) && Through(c) && c.schedule == Connected(0)
    ensures var d := ConnectIfAllowedL(b, KErrNotFound, c);
      && !d.left
      && (MayConnect(b, c) ==>
            && Connects(b, d, b.nextId + 1) && d.ids.waitStop == d.ids.waitStart == KErrNotFound
            && d.ops == NoTimers(b)[b.nextId := Kind.Completed][b.nextId + 1 := if Stays(b) then StayOnlineConnect else Connect])
      && (Hopeless(b, c) ==> SwitchedOff(b, d))
      && (!Hopeless(b, c) && !MayConnect(b, c) ==> d.state.Idle?)
  {
    TimersCleaned(b);
    SchedulingInv(b, c);
    NextIdsAreFree(b);
    var s := CheckAndHandleSchedulingL(b, c);
    assert s == b.(ops := NoTimers(b)[b.nextId := Kind.Completed], nextId := b.nextId + 1, state := TimerWaitingForStart,
                   ids := b.ids.(waitStop := KErrNotFound, waitStart := KErrNotFound, interval := KErrNotFound));
    assert ConnectIfAllowedL(b, KErrNotFound, c) == ConnectL(s, c);
    hide Inv, CheckAndHandleSchedulingL, NoTimers, ConnectIfAllowedL, CleanScheduleTimers;
    ConnectDecides(s, c);
    hide ConnectL;
  }

  /** An agent that serves notifications does not ask the schedule. */
  lemma WaitIsOverForEmn(a: Agent, id: int, h: Env, c: Env)
    requires Due(a, id, IntervalTimer) && id == a.ids.interval && a.state.TimerWaiting? && a.error.ErrNone?
    requires IsEmn(a) && Through(c)
    ensures var b := Step(a, OpCompletes(id, ErrNone, h, c)); var k := a.nextId;
      && (MayConnect(a, c) ==> Connects(a, b, k) && b.ops == (a.ops - {id})[k := Connect])
      && (Hopeless(a, c) ==> SwitchedOff(a, b))
      && (!Hopeless(a, c) && !MayConnect(a, c) ==> b.state.Idle? && b.ops == (a.ops - {id})[k := Kind.Completed])
  {
    TakenInv(a, id, h);
    var b := CompletionHandled(a, id, ErrNone, h);
    BothChoose(b, c);
    TimersPend(a);
    ConnectDecides(b, c);
    var d := ConnectL(b, c);
    assert ConnectIfAllowedL(b, KErrNotFound, c) == d;
    hide Inv, CompletionHandled, ChangeNextStateL, Step, ConnectIfAllowedL, ConnectL;
    StepOfCompletion(a, id, ErrNone, h, c, b, d);
  }

  // ---- the schedule timers go off -----------------------------------------------------------------------

  /** What a schedule timer that has gone off leaves behind: the agent with its id forgotten. */
  function Forgotten(a: Agent, id: int): Agent {
    Taken(a, id).(ids := if id == a.ids.waitStop then a.ids.(waitStop := KErrNotFound) else a.ids.(waitStart := KErrNotFound))
  }

  lemma ScheduleTimerHandled(a: Agent, id: int, h: Env)
    requires Inv(a) && !a.left && id in a.ops && (id == a.ids.waitStop || id == a.ids.waitStart)
    requires !CheckAndHandleSchedulingL(Forgotten(a, id), h).left
    ensures CompletionHandled(a, id, ErrNone, h) == CheckAndHandleSchedulingL(Forgotten(a, id), h)
  {
    KindOfRemembered(a.protocol.Imap4?, a.ops, a.nextId, a.ids, id);
    TimersPend(a);
    hide Inv, CheckAndHandleSchedulingL;
    hide ImapAgent.ConnectionOpCompleted, ImapAgent.FolderTimerCompleted, ImapAgent.StartFolderSyncTimerL, ImapAgent.FetchNewMailL;
  }

  lemma ForgottenTimers(a: Agent, id: int)
    requires Inv(a) && id in a.ops && (id == a.ids.waitStop || id == a.ids.waitStart)
    ensures Inv(Forgotten(a, id)) && NoTimers(Forgotten(a, id)) == NoTimers(a)
  {
    ForgottenInv(a, id);
    TimersPend(a);
    hide Inv;
    assert NoTimers(Forgotten(a, id)) == NoTimers(a);
  }

  /** A schedule timer goes off and the schedule says wait: whatever the agent was doing, it sleeps until
      its start timer goes off; if it was staying online it disconnects. */
  lemma ScheduleSaysWait(a: Agent, id: int, h: Env, c: Env)
    requires Inv(a) && !a.left && !a.removed && id in a.ops && (id == a.ids.waitStop || id == a.ids.waitStart)
    requires h.schedule.WaitingToConnect? && (h.connected ==> h.invokes)
    ensures var b := Step(a, OpCompletes(id, ErrNone, h, c)); var k := a.nextId;
      if a.ids.stayOnline == KErrNotFound then Sleeps(b, k) && b.ops == NoTimers(a)[k := StartTimer]
      else Sleeps(b, k + 1) && b.ops == NoTimers(a)[k := if h.connected then Disconnect else Kind.Completed][k + 1 := StartTimer]
  {
    KindOfRemembered(a.protocol.Imap4?, a.ops, a.nextId, a.ids, id);
    var f := Forgotten(a, id);
    ForgottenTimers(a, id);
    if a.ids.stayOnline == KErrNotFound { ScheduleWaits(f, h); } else { ScheduleEndsConnection(f, h); }
    ScheduleTimerHandled(a, id, h);
    var b := CompletionHandled(a, id, ErrNone, h);
    SleepsOn(b, c);
    hide Inv, CompletionHandled, ChangeNextStateL, Step, CheckAndHandleSchedulingL, NoTimers;
    StepOfCompletion(a, id, ErrNone, h, c, b, b);
  }

  lemma ForgottenInv(a: Agent, id: int)
    requires Inv(a) && id in a.ops && (id == a.ids.waitStop || id == a.ids.waitStart)
    ensures Inv(Forgotten(a, id))
  {
    CleanTimers(a.protocol.Imap4?, a.ops, a.nextId, a.ids);
  }

  /** A sleeping agent chooses to sleep on, even with an error pending. */
  lemma SleepsOn(b: Agent, c: Env)
    requires b.state.TimerWaitingForStart? && b.ids.waitStart != KErrNotFound && !b.left
    ensures ChangeNextStateL(b, c) == b
  {
    hide DisconnectL, NoteAndSwitchOffL, PopAgent.InitialiseL, PopAgent.AfterConnectionL, PopAgent.DoFilteredPopulateL;
    hide ImapAgent.InitialiseL, ImapAgent.AfterConnectionL, ImapAgent.AfterFetchL, ImapAgent.SynchroniseNewL;
    hide CheckAndHandleSchedulingL, ConnectL, PopAgent.RestartL, ImapAgent.RestartL, HandleOpErrorL;
  }

  /** The start timer goes off and the schedule says connect: the agent connects if it may, with its stop
      timer set. */
  lemma ScheduleStarts(a: Agent, id: int, h: Env, c: Env)
    requires Due(a, id, StartTimer) && id == a.ids.waitStart && a.state.TimerWaitingForStart? && a.error.ErrNone?
    requires !IsEmn(a) && Through(c) && h.schedule.Connected? && h.schedule.seconds > 0
    requires c.schedule.Connected? && c.schedule.seconds > 0
    ensures var b := Step(a, OpCompletes(id, ErrNone, h, c)); var k := a.nextId + 1;
      && (MayConnect(a, c) ==>
            && Awake(b, k) && Connects(a, b, k + 1)
            && b.ops == NoTimers(a)[k := StopTimer][k + 1 := if Stays(a) then StayOnlineConnect else Connect])
      && (Hopeless(a, c) ==> SwitchedOff(a, b))
      && (!Hopeless(a, c) && !MayConnect(a, c) ==> b.state.Idle? && b.ops == NoTimers(a)[k := StopTimer][k + 1 := Kind.Completed])
  {
    AwakeAfterStart(a, id, h);
    var b := CompletionHandled(a, id, ErrNone, h);
    BothChoose(b, c);
    AsksSchedule(b, c);
    var d := ConnectIfAllowedL(b, KErrNotFound, c);
    hide Inv, CompletionHandled, ChangeNextStateL, Step, ConnectIfAllowedL, NoTimers;
    StepOfCompletion(a, id, ErrNone, h, c, b, d);
  }

  lemma AwakeAfterStart(a: Agent, id: int, h: Env)
    requires Due(a, id, StartTimer) && id == a.ids.waitStart && h.schedule.Connected? && h.schedule.seconds > 0
    ensures var b := CompletionHandled(a, id, ErrNone, h);
      && Inv(b) && b.ids.waitStart == KErrNotFound && NoTimers(b) == NoTimers(a) && b.nextId == a.nextId + 1
      && b.state == a.state && b.error == a.error && b.settings == a.settings && b.flags == a.flags && b.protocol == a.protocol
      && b.retry == a.retry && b.left == a.left && b.removed == a.removed && a.nextId + 1 !in a.ops && a.nextId + 2 !in a.ops
  {
    var f := Forgotten(a, id);
    ForgottenTimers(a, id);
    ScheduleConnects(f, h);
    SchedulingInv(f, h);
    ScheduleTimerHandled(a, id, h);
    SameRest(a, id);
    NextIdsAreFree(a);
    hide Inv, CompletionHandled, CheckAndHandleSchedulingL, NoTimers;
  }

  lemma NextIdsAreFree(a: Agent)
    requires Inv(a)
    ensures a.nextId + 1 !in a.ops && a.nextId + 2 !in a.ops
  {}

  lemma SameRest(a: Agent, id: int)
    requires Inv(a) && id in a.ops && id == a.ids.waitStart
    ensures var f := Forgotten(a, id);
      var b := f.(ops := NoTimers(f)[f.nextId := StopTimer], nextId := f.nextId + 1,
                  ids := f.ids.(waitStop := f.nextId, waitStart := KErrNotFound, interval := KErrNotFound));
      NoTimers(b) == NoTimers(a)
  {
    TimersPend(a);
    hide Inv;
    var f := Forgotten(a, id);
    assert NoTimers(f) == NoTimers(a);
    assert -1 !in NoTimers(a) && a.nextId !in NoTimers(a);
  }

  // ---- the agent starts afresh ----------------------------------------------------------------------------

  /** What a new start comes to. */
  predicate StartsAfresh(a: Agent, b: Agent, c: Env) {
    var k := a.nextId;
    if IsEmn(a) then
      b.state.Idle? && b.ops == if a.protocol.Pop3? then map[k := Kind.Completed] else map[]
    else if c.schedule.WaitingToConnect? then Sleeps(b, k) && b.ops == map[k := StartTimer]
    else
      && b.state.TimerWaiting? && Awake(b, k) && b.ids.interval == k + 1 && !b.connectNow
      && b.ops == map[k := StopTimer, k + 1 := IntervalTimer]
  }

  lemma InitialisesForEmn(b: Agent, c: Env)
    requires b.state.Initialised? && b.error.ErrNone? && !b.left && !b.removed && IsEmn(b)
    ensures var d := ChangeNextStateL(b, c);
      !d.left && StartsAfresh(b, d, c) && d.retry == b.retry && d.settings == b.settings && d.error.ErrNone? && !d.removed
  {
    if b.protocol.Pop3? { PopChooses(b, c); } else { ImapChooses(b, c); }
    hide ChangeNextStateL;
    assert map[][b.nextId := Kind.Completed] == map[b.nextId := Kind.Completed];
  }

  lemma SchedulesAfresh(r: Agent, c: Env)
    requires Inv(r) && !r.left && r.ops == map[] && r.ids == NoIds.(startDelay := r.ids.startDelay)
    requires c.schedule.WaitingToConnect? || (c.schedule.Connected? && c.schedule.seconds > 0)
    ensures CheckAndHandleSchedulingL(r, c) ==
      if c.schedule.WaitingToConnect? then
        r.(ops := map[r.nextId := StartTimer], nextId := r.nextId + 1, state := TimerWaitingForStart, connectNow := false,
           ids := r.ids.(waitStart := r.nextId))
      else r.(ops := map[r.nextId := StopTimer], nextId := r.nextId + 1, ids := r.ids.(waitStop := r.nextId))
  {
    if c.schedule.WaitingToConnect? { ScheduleWaits(r, c); } else { ScheduleConnects(r, c); }
    hide Inv, CheckAndHandleSchedulingL;
    assert NoTimers(r) == map[];
    assert map[][r.nextId := StopTimer] == map[r.nextId := StopTimer] && map[][r.nextId := StartTimer] == map[r.nextId := StartTimer];
  }

  lemma InitialiseDoes(b: Agent, c: Env)
    requires Inv(b) && b.state.Initialised? && b.error.ErrNone? && !b.left && !b.removed && Through(c)
    requires c.schedule.WaitingToConnect? || (c.schedule.Connected? && c.schedule.seconds > 0)
    ensures var d := ChangeNextStateL(b, c);
      !d.left && StartsAfresh(b, d, c) && d.retry == b.retry && d.settings == b.settings && d.error.ErrNone? && !d.removed
  {
    if IsEmn(b) {
      InitialisesForEmn(b, c);
    } else {
      if b.protocol.Pop3? { PopChooses(b, c); } else { ImapChooses(b, c); }
      hide ChangeNextStateL;
      ResetInv(b);
      SchedulesAfresh(ResetAll(b), c);
      hide Inv, CheckAndHandleSchedulingL;
      assert map[b.nextId := StopTimer][b.nextId + 1 := IntervalTimer] == map[b.nextId := StopTimer, b.nextId + 1 := IntervalTimer];
    }
  }

  /** The completed operation of a restart, or the start delay, brings an initialised agent to its timers;
      one that serves notifications becomes idle. */
  lemma AgentStartsAfresh(a: Agent, id: int, h: Env, c: Env)
    requires Due(a, id, Kind.Completed) || (Due(a, id, DelayTimer) && id == a.ids.startDelay)
    requires a.state.Initialised? && a.error.ErrNone? && Through(c)
    requires c.schedule.WaitingToConnect? || (c.schedule.Connected? && c.schedule.seconds > 0)
    ensures var b := Step(a, OpCompletes(id, ErrNone, h, c));
      StartsAfresh(a, b, c) && b.retry == a.retry && b.settings == a.settings && b.error.ErrNone? && b.ids.startDelay == a.ids.startDelay
  {
    StartHandled(a, id, h);
    CompletionInv(a, id, h, c);
    var b := CompletionHandled(a, id, ErrNone, h);
    InitialiseDoes(b, c);
    DelayStays(b, c);
    var d := ChangeNextStateL(b, c);
    hide Inv, CompletionHandled, ChangeNextStateL, Step;
    StepOfCompletion(a, id, ErrNone, h, c, b, d);
  }

  lemma StartHandled(a: Agent, id: int, h: Env)
    requires Inv(a) && id in a.ops && (a.ops[id].Completed? || (a.ops[id].DelayTimer? && id == a.ids.startDelay))
    ensures CompletionHandled(a, id, ErrNone, h) == Taken(a, id).(connectNow := a.connectNow || a.ops[id].DelayTimer?)
  {
    KindOfRemembered(a.protocol.Imap4?, a.ops, a.nextId, a.ids, id);
    hide Inv, CheckAndHandleSchedulingL, ImapAgent.RescheduleL, ImapAgent.FolderTimerCompleted, ImapAgent.StartFolderSyncTimerL;
  }

  lemma CompletionInv(a: Agent, id: int, h: Env, c: Env)
    requires Inv(a) && id in a.ops
    ensures Inv(CompletionHandled(a, id, ErrNone, h))
  {
    hide CompletionHandled, TableInv, NoConnect, OpCompleted, BeforeChoice;
    OpCompletedInv(a, id, ErrNone, h, c);
  }

  lemma DelayStays(b: Agent, c: Env)
    requires b.state.Initialised? && b.error.ErrNone? && !b.left
    ensures ChangeNextStateL(b, c).ids.startDelay == b.ids.startDelay
  {
    if b.protocol.Pop3? { PopChooses(b, c); } else { ImapChooses(b, c); }
    hide ChangeNextStateL, CheckAndHandleSchedulingL;
    ScheduleKeepsDelay(ResetAll(b), c);
  }

  lemma ScheduleKeepsDelay(a: Agent, c: Env)
    ensures CheckAndHandleSchedulingL(a, c).ids.startDelay == a.ids.startDelay
  {
    var b := CleanScheduleTimers(a);
    assert b.ids.startDelay == a.ids.startDelay;
    DisconnectKeepsDelay(b, c);
    hide CleanScheduleTimers, DisconnectL;
  }

  lemma DisconnectKeepsDelay(a: Agent, c: Env)
    ensures DisconnectL(a, true, c).ids.startDelay == a.ids.startDelay
  {}

  // ---- runs outside the schedule -----------------------------------------------------------------------------

  /** The schedule, when asked, says wait; reloaded settings keep notifications off. */
  predicate OutOfHours(e: Event) {
    match e
    case OpCompletes(_, _, _, c) => c.schedule.WaitingToConnect?
    case Resumed(_, settings, _) => settings.emn.NotificationsOff?
    case _ => true
  }

  lemma {:induction false} StaysUnconnected(a: Agent, es: seq<Event>)
    requires Inv(a) && NoConnect(a.ops) && !IsEmn(a) && forall e :: e in es ==> OutOfHours(e)
    ensures NoConnect(Run(a, es).ops) && !IsEmn(Run(a, es))
    decreases |es|
  {
    if es != [] {
      var e := es[0];
      assert OutOfHours(e);
      OutOfHoursStep(a, e);
      StepInv(a, e);
      hide TableInv, NoConnect, Step, OutOfHours;
      StaysUnconnected(Step(a, e), es[1..]);
    }
  }

  lemma OutOfHoursStep(a: Agent, e: Event)
    requires Inv(a) && NoConnect(a.ops) && !IsEmn(a) && OutOfHours(e)
    ensures NoConnect(Step(a, e).ops) && !IsEmn(Step(a, e))
  {
    StepInv(a, e);
    hide TableInv, NoConnect;
    if e.Resumed? { ResumeTakesSettings(a, e.connectNow, e.settings, e.env); }
    if e.EmnReceived? { assert Step(a, e) == a; }
    hide Step;
  }

  lemma ResumeTakesSettings(a: Agent, connectNow: bool, settings: Settings, env: Env)
    ensures var b := Step(a, Resumed(connectNow, settings, env)); b.settings == a.settings || b.settings == settings
  {}

  /** Main result, over every run of either agent: as long as the schedule says wait whenever it is
      asked, an agent without notifications never has a connect operation pending. */
  lemma NoConnectOutsideSchedule(p: Protocol, next: nat, settings: Settings, es: seq<Event>)
    requires settings.emn.NotificationsOff? && forall e :: e in es ==> OutOfHours(e)
    ensures forall i :: i in Run(Fresh(p, next, settings), es).ops ==> !IsConnect(Run(Fresh(p, next, settings), es).ops[i])
  {
    FreshInv(p, next, settings);
    StaysUnconnected(Fresh(p, next, settings), es);
    hide Run, TableInv;
  }
}
