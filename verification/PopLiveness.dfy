/** A started POP agent never stalls: it is removed, idle, or waits for an operation whose
    completion moves it on. */
module PopLiveness {
  import opened AgentState
  import opened AgentRuns
  import opened AgentTable
  import opened AgentInvariant
  import PopAgent

  predicate Live(a: Agent) { a.removed || a.state.Idle? || a.ops != map[] }

  /** An agent that waits for its interval timer remembers a timer. */
  predicate Waits(a: Agent) { a.state.TimerWaiting? && !a.removed ==> a.ids.interval != KErrNotFound }

  predicate Settled(a: Agent) { Live(a) && Waits(a) }

  /** The completion handler leaves: a failed connect whose stored flag cannot be read. */
  predicate Escapes(a: Agent, e: Event) {
    e.OpCompletes? && e.id in a.ops && e.id == a.ids.connect && !e.code.ErrNone? && !e.h.readable
  }

  // ---- choosing the next state -------------------------------------------------------------------

  predicate Outcome(a: Agent) {
    a.left || a.removed || a.state.Idle? || (a.ops != map[] && Waits(a))
  }

  lemma AddOpNotEmpty(a: Agent, k: Kind)
    ensures AddOp(a, k).ops != map[]
  {
    assert a.nextId in AddOp(a, k).ops;
  }

  lemma DisconnectOutcome(a: Agent, env: Env)
    ensures var b := DisconnectL(a, true, env); b.left || (b.state.AutoDisconnecting? && b.ops != map[])
  {
    AddOpNotEmpty(a, Kind.Completed);
    AddOpNotEmpty(a, Disconnect);
  }

  lemma ConnectOutcome(a: Agent, env: Env)
    ensures var b := ConnectL(a, env);
      b.left || b.removed || b.state.Idle? || (InConnectingState(b.state) && b.ops != map[])
  {
    AddOpNotEmpty(a, Connect);
    AddOpNotEmpty(a, StayOnlineConnect);
  }

  lemma SchedulingOutcome(a: Agent, env: Env)
    requires Inv(a)
    ensures var b := CheckAndHandleSchedulingL(a, env);
      b.left || (b.ops != map[] && (b.state.TimerWaitingForStart? || (b.state == a.state && b.ids.waitStop != KErrNotFound)))
  {
    CleanScheduleTimersInv(a);
    var b := CleanScheduleTimers(a);
    hide TableInv, CleanScheduleTimers, DisconnectL;
    match env.schedule
    case ScheduleLeaves =>
    case WaitingToConnect => LaunchStartOutcome(b, env);
    case Connected(seconds) => LaunchStopOutcome(b, seconds);
  }

  lemma LaunchStartOutcome(a: Agent, env: Env)
    requires Inv(a) && a.ids.waitStop == a.ids.waitStart == KErrNotFound
    ensures var b := LaunchStartTimerL(a, env); b.left || (b.state.TimerWaitingForStart? && b.ops != map[])
  {
    DisconnectInv(a, true, env);
    var b := if a.ids.stayOnline != KErrNotFound then DisconnectL(a, true, env) else a;
    if !b.left {
      assert b.nextId in LaunchStartTimerL(a, env).ops;
    }
  }

  lemma LaunchStopOutcome(a: Agent, seconds: nat)
    requires Inv(a) && a.ids.waitStop == a.ids.waitStart == KErrNotFound
    ensures var b := LaunchStopTimerL(a, seconds);
      b.ops != map[] && (b.state.TimerWaitingForStart? || (b.state == a.state && b.ids.waitStop != KErrNotFound))
  {
    assert a.nextId in LaunchStopTimerL(a, seconds).ops;
  }

  lemma ConnectIfAllowedOutcome(a: Agent, id: int, env: Env)
    requires Inv(a)
    requires id != KErrNotFound ==> id in a.ops && Waits(a)
    ensures Outcome(ConnectIfAllowedL(a, id, env))
  {
    hide TableInv, CheckAndHandleSchedulingL, ConnectL;
    ConnectOutcome(a, env);
    SchedulingOutcome(a, env);
    ConnectOutcome(CheckAndHandleSchedulingL(a, env), env);
  }

  lemma StartWaitTimerOutcome(a: Agent, env: Env)
    requires !a.state.TimerWaiting?
    ensures Outcome(PopAgent.StartWaitTimerL(a, env))
  {
    AddOpNotEmpty(a, IntervalTimer);
  }

  lemma InitialiseOutcome(a: Agent, env: Env)
    requires Inv(a) && a.state.Initialised?
    ensures Outcome(PopAgent.InitialiseL(a, env))
  {
    ResetInv(a);
    hide TableInv, CheckAndHandleSchedulingL, PopAgent.StartWaitTimerL;
    var b := ResetAll(a);
    SchedulingOutcome(b, env);
    var c := CheckAndHandleSchedulingL(b, env);
    if !c.left { StartWaitTimerOutcome(c, env); }
  }

  lemma AfterConnectionOutcome(a: Agent, env: Env)
    requires !a.state.TimerWaiting?
    ensures Outcome(PopAgent.AfterConnectionL(a, env))
  {
    hide PopAgent.StartWaitTimerL, DisconnectL;
    StartWaitTimerOutcome(a, env);
  }

  lemma PopulateOutcome(a: Agent, env: Env)
    ensures Outcome(PopAgent.DoFilteredPopulateL(a, env))
  {
    AddOpNotEmpty(a.(state := DoingFilteredPopulate), Kind.Completed);
    AddOpNotEmpty(a.(state := DoingFilteredPopulate), Populate);
  }

  lemma NamedTimersPend(a: Agent)
    requires Inv(a)
    ensures a.ids.interval != KErrNotFound ==> a.ids.interval in a.ops && a.ops[a.ids.interval] == IntervalTimer
    ensures a.ids.waitStart != KErrNotFound ==> a.ids.waitStart in a.ops && a.ops[a.ids.waitStart] == StartTimer
    ensures a.ids.waitStop != KErrNotFound ==> a.ids.waitStop in a.ops && a.ops[a.ids.waitStop] == StopTimer
  {}

  lemma RestartOutcome(a: Agent)
    ensures PopAgent.RestartL(a).ops != map[] && PopAgent.RestartL(a).state.Initialised?
  {
    AddOpNotEmpty(ResetAll(a).(state := Initialised), Kind.Completed);
  }

  /** Whatever state a POP agent is in, choosing the next state leaves it with something to wait
      for, idle or removed, unless the choice itself leaves. */
  lemma ChangeNextStateOutcome(a: Agent, env: Env)
    requires Inv(a)
    ensures Outcome(PopAgent.ChangeNextStateL(a, env))
  {
    hide TableInv, ErrorHandled, DisconnectL, ConnectIfAllowedL, PopAgent.RestartL;
    hide PopAgent.InitialiseL, PopAgent.AfterConnectionL, PopAgent.DoFilteredPopulateL;
    ErrorHandledKeepsTable(a, env);
    var b := ErrorHandled(a, env);
    NamedTimersPend(b);
    DisconnectOutcome(b, env);
    PopulateOutcome(b, env);
    RestartOutcome(b);
    match b.state
    case Initialised => InitialiseOutcome(b, env);
    case TimerWaiting => ConnectIfAllowedOutcome(b, b.ids.interval, env);
    case TimerWaitingForStart => ConnectIfAllowedOutcome(b, b.ids.waitStart, env);
    case _ => if !b.state.TimerWaiting? { AfterConnectionOutcome(b, env); }
  }

  // ---- steps ----------------------------------------------------------------------------------------

  lemma PopCompletionLeaves(a: Agent, id: int, code: Err, env: Env)
    requires a.protocol.Pop3? && !a.left && id in a.ops
    ensures var b := CompletionHandled(a, id, code, env);
      && (b.left <==> id == a.ids.connect && !code.ErrNone? && !env.readable)
      && (b.left ==> b.state == a.state && b.ops == a.ops - {id} && b.ids == a.ids && b.removed == a.removed)
  {
    hide CheckAndHandleSchedulingL;
  }

  lemma OpCompletedLive(a: Agent, id: int, code: Err, h: Env, c: Env)
    requires Inv(a) && a.protocol.Pop3? && !a.left && !a.removed && id in a.ops
    requires IsTimer(a.ops[id]) ==> code.ErrNone?
    ensures var b := OpCompleted(a, id, code, h, c);
      if id == a.ids.connect && !code.ErrNone? && !h.readable then
        b.state == a.state && b.ops == a.ops - {id} && b.ids == a.ids && !b.removed
      else Settled(b)
  {
    PopCompletionLeaves(a, id, code, h);
    PopCompletionInv(a, id, code, h);
    var b := CompletionHandled(a, id, code, h);
    hide TableInv, CompletionHandled, PopAgent.ChangeNextStateL;
    ChangeNextStateOutcome(b, c);
    var d := PopAgent.ChangeNextStateL(b, c);
    AddOpNotEmpty(ResetAll(d).(state := Initialised, left := false), Kind.Completed);
  }

  lemma NetworkEventLive(a: Agent)
    requires Settled(a)
    ensures Settled(HandleRoamingEventL(a)) && Settled(HandleHomeNetworkEventL(a)) && Settled(Suspend(a))
  {
    AddOpNotEmpty(a, Kind.Completed);
  }

  lemma ResumeLive(a: Agent, connectNow: bool, settings: Settings, env: Env)
    requires Settled(a)
    ensures Settled(ResumeL(a, connectNow, settings, env)) && Settled(HandleOutOfDiskEventL(a, env))
  {
    AddOpNotEmpty(a, Kind.Completed);
  }

  lemma ConnectLive(a: Agent, env: Env)
    requires Settled(a)
    ensures Settled(ConnectL(a, env).(left := false))
  {
    AddOpNotEmpty(a, Connect);
    AddOpNotEmpty(a, StayOnlineConnect);
  }

  lemma StartLive(a: Agent, env: Env)
    ensures Settled(a) ==> Settled(StartL(a, env))
    ensures a.ids.startDelay == KErrNotFound && env.queries && env.networkQueries ==> Settled(StartL(a, env))
  {
    AddOpNotEmpty(a, DelayTimer);
  }

  /** The only pending operation of a busy agent is a connect, and it fails while the stored flags
      cannot be read. */
  predicate Stalls(a: Agent, e: Event) {
    !a.removed && !a.state.Idle? && Escapes(a, e) && a.ops - {e.id} == map[]
  }

  /** One event keeps a POP agent from stalling, with one exception that is met exactly. */
  lemma StepKeepsLive(a: Agent, e: Event)
    requires Inv(a) && a.protocol.Pop3? && !a.left && Settled(a)
    ensures Waits(Step(a, e))
    ensures Live(Step(a, e)) <==> !Stalls(a, e)
  {
    hide TableInv, OpCompleted, StartL, ResumeL, HandleRoamingEventL, HandleHomeNetworkEventL;
    hide HandleOutOfDiskEventL, ConnectL, Suspend;
    if a.removed || !Deliverable(a, e) {
      if a.ids.connect in a.ops { KindOfConnect(a); }
      return;
    }
    match e
    case OpCompletes(id, code, h, c) => OpCompletedLive(a, id, code, h, c);
    case Started(env) => StartLive(a, env);
    case Suspended => NetworkEventLive(a);
    case Resumed(connectNow, settings, env) => ResumeLive(a, connectNow, settings, env);
    case RoamingStarted => NetworkEventLive(a);
    case HomeNetworkFound => NetworkEventLive(a);
    case OutOfDisk(env) => ResumeLive(a, false, a.settings, env);
    case EmnReceived(env) => ConnectLive(a, env);
    case _ =>
  }

  // ---- runs -----------------------------------------------------------------------------------------

  ghost predicate NothingStalls(a: Agent, es: seq<Event>)
    decreases |es|
  {
    es == [] || (!Stalls(a, es[0]) && NothingStalls(Step(a, es[0]), es[1..]))
  }

  /** The agent is live at every moment of the run. */
  ghost predicate AlwaysLive(a: Agent, es: seq<Event>)
    decreases |es|
  {
    Live(a) && (es == [] || AlwaysLive(Step(a, es[0]), es[1..]))
  }

  lemma {:induction false} RunStaysSettled(a: Agent, es: seq<Event>)
    requires Inv(a) && a.protocol.Pop3? && !a.left && Settled(a)
    ensures AlwaysLive(a, es) <==> NothingStalls(a, es)
    ensures NothingStalls(a, es) ==> Settled(Run(a, es))
    decreases |es|
  {
    hide TableInv, Step, Live, Waits, Stalls;
    if es != [] {
      var b := Step(a, es[0]);
      StepInv(a, es[0]);
      StepFrame(a, es[0]);
      StepKeepsLive(a, es[0]);
      if !Stalls(a, es[0]) {
        RunStaysSettled(b, es[1..]);
      } else {
        NotLiveNow(b, es[1..]);
      }
    }
  }

  lemma NotLiveNow(a: Agent, es: seq<Event>)
    requires !Live(a)
    ensures !AlwaysLive(a, es)
  {}

  lemma KindOfConnect(a: Agent)
    requires Inv(a) && a.ids.connect in a.ops
    ensures a.ops[a.ids.connect] == Connect
  {}

  /** Main result.  Take any run of a POP agent up to a StartL that gets through, and any run after it.
      The agent is removed, idle or has an operation pending at every moment if and only if no event
      of the second run stalls it; and then, if it waits for its interval timer, that very timer is
      pending. */
  lemma StartedPopAgentNeverStalls(
      next: nat, settings: Settings, before: seq<Event>, env: Env, after: seq<Event>)
    requires var a := Run(Fresh(Pop3, next, settings), before);
      !a.removed && a.ids.startDelay == KErrNotFound && env.queries && env.networkQueries
    ensures var c := Step(Run(Fresh(Pop3, next, settings), before), Started(env)); var b := Run(c, after);
      && (AlwaysLive(c, after) <==> NothingStalls(c, after))
      && (NothingStalls(c, after) ==>
            && (b.removed || b.state.Idle? || b.ops != map[])
            && (b.state.TimerWaiting? && !b.removed ==>
                  b.ids.interval in b.ops && b.ops[b.ids.interval] == IntervalTimer))
  {
    var f := Fresh(Pop3, next, settings);
    FreshInv(Pop3, next, settings);
    hide TableInv, NothingStalls, AlwaysLive, Run, StartL;
    RunInv(f, before);
    RunFrame(f, before);
    var a := Run(f, before);
    StartLive(a, env);
    StepInv(a, Started(env));
    StepFrame(a, Started(env));
    var c := Step(a, Started(env));
    RunStaysSettled(c, after);
    RunInv(c, after);
    NamedTimersPend(Run(c, after));
  }
}
