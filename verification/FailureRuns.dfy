/** Runs that meet the exceptions: a started POP agent that stalls, and fourteen failures in a row. */
module FailureRuns {
  import opened AgentState
  import opened AgentRuns
  import opened AgentTable
  import opened AgentInvariant
  import opened PopLiveness
  import opened RetryBound
  import PopAgent
  import ImapAgent

  /** The platform lets everything through, and the schedule asks to connect. */
  const Good := Env(false, Connected(60), false, false, true, Valid, true, true, true, true, true, true, true, true, false)

  const Failed := ErrOther(-1)

  // ---- a stall -------------------------------------------------------------------------------------

  const EmnOnly := Settings(AutoOff, NotificationsOn, false)

  /** After the start: the start delay passes, the agent becomes idle, a notification makes it connect,
      and the connect fails while the stored flags cannot be read (h). */
  function StallingEvents(next: nat, h: Env): seq<Event> {
    [OpCompletes(next, ErrNone, Good, Good), OpCompletes(next + 1, ErrNone, Good, Good), EmnReceived(Good),
     OpCompletes(next + 2, Failed, h, Good)]
  }

  function EmnAgent(next: nat, delay: int, state: State, ops: map<int, Kind>, ids: Ids): Agent {
    Agent(Pop3, state, ops, next, ids.(startDelay := delay), ErrNone, 0, true, EmnOnly, NoFlags, false, false)
  }

  lemma EmnStarts(n: nat)
    ensures Step(Fresh(Pop3, n, EmnOnly), Started(Good))
      == EmnAgent(n + 1, n, Initialised, map[n := DelayTimer], NoIds).(connectNow := false)
  {
    hide OpCompleted;
  }

  lemma EmnDelayPasses(n: nat)
    ensures Step(EmnAgent(n + 1, n, Initialised, map[n := DelayTimer], NoIds).(connectNow := false),
                 OpCompletes(n, ErrNone, Good, Good))
      == EmnAgent(n + 2, n, Idle, map[n + 1 := Kind.Completed], NoIds)
  {
    hide ImapAgent.HandleOpCompleted, ImapAgent.ChangeNextStateL, CheckAndHandleSchedulingL, PopAgent.StartWaitTimerL;
    hide NoteAndSwitchOffL, DisconnectL, ConnectIfAllowedL, PopAgent.AfterConnectionL, PopAgent.DoFilteredPopulateL;
  }

  lemma EmnIdles(n: nat)
    ensures Step(EmnAgent(n + 2, n, Idle, map[n + 1 := Kind.Completed], NoIds), OpCompletes(n + 1, ErrNone, Good, Good))
      == EmnAgent(n + 2, n, Idle, map[], NoIds)
  {
    hide ImapAgent.HandleOpCompleted, ImapAgent.ChangeNextStateL, CheckAndHandleSchedulingL, PopAgent.InitialiseL;
    hide NoteAndSwitchOffL, DisconnectL, ConnectIfAllowedL, PopAgent.AfterConnectionL, PopAgent.DoFilteredPopulateL;
    assert map[n + 1 := Kind.Completed] - {n + 1} == map[];
  }

  lemma EmnConnects(n: nat)
    ensures Step(EmnAgent(n + 2, n, Idle, map[], NoIds), EmnReceived(Good))
      == EmnAgent(n + 3, n, Connecting, map[n + 2 := Connect], NoIds.(connect := n + 2))
  {
    hide OpCompleted;
  }

  lemma EmnFails(n: nat, h: Env)
    requires !h.readable
    ensures var a := EmnAgent(n + 3, n, Connecting, map[n + 2 := Connect], NoIds.(connect := n + 2));
      Stalls(a, OpCompletes(n + 2, Failed, h, Good)) && !Live(Step(a, OpCompletes(n + 2, Failed, h, Good)))
  {
    hide ImapAgent.HandleOpCompleted, ChangeNextStateL;
    assert map[n + 2 := Connect] - {n + 2} == map[];
  }

  /** The exception to liveness is met by a run: a started agent ends up connecting, with nothing
      pending. */
  lemma StartedPopAgentCanStall(n: nat, h: Env)
    requires !h.readable
    ensures var c := Step(Fresh(Pop3, n, EmnOnly), Started(Good));
      !Live(Run(c, StallingEvents(n, h))) && !NothingStalls(c, StallingEvents(n, h)) && !AlwaysLive(c, StallingEvents(n, h))
  {
    var c := Step(Fresh(Pop3, n, EmnOnly), Started(Good));
    var es := StallingEvents(n, h);
    EmnStarts(n);
    EmnDelayPasses(n);
    EmnIdles(n);
    EmnConnects(n);
    EmnFails(n, h);
    hide Step, Live, Stalls, EmnAgent;
    var a1 := Step(c, es[0]);
    var a2 := Step(a1, es[1]);
    var a3 := Step(a2, es[2]);
    var a4 := Step(a3, es[3]);
    assert es == [es[0]] + ([es[1]] + ([es[2]] + ([es[3]] + [])));
    StallLast(a3, es[3]);
    StallLater(a2, es[2], [es[3]]);
    StallLater(a1, es[1], [es[2], es[3]]);
    StallLater(c, es[0], [es[1], es[2], es[3]]);
    assert es == [es[0]] + [es[1], es[2], es[3]];
  }

  lemma StallLast(a: Agent, e: Event)
    requires Stalls(a, e) && !Live(Step(a, e))
    ensures Run(a, [e]) == Step(a, e) && !NothingStalls(a, [e]) && !AlwaysLive(a, [e])
  {
    hide Step, Live, Stalls;
    assert [e][1..] == [];
    assert Run(Step(a, e), []) == Step(a, e);
    assert !AlwaysLive(Step(a, e), []);
  }

  lemma StallLater(a: Agent, e: Event, es: seq<Event>)
    requires !NothingStalls(Step(a, e), es) && !AlwaysLive(Step(a, e), es)
    ensures var fs := [e] + es;
      Run(a, fs) == Run(Step(a, e), es) && !NothingStalls(a, fs) && !AlwaysLive(a, fs)
  {
    hide Step, Live, Stalls;
    assert ([e] + es)[1..] == es;
  }

  // ---- fourteen failures ------------------------------------------------------------------------------

  const AutoOnly := Settings(AutoOn, NotificationsOff, false)

  /** A POP agent that was started with operation d, connecting with operation n + 1 within its
      schedule, with r failures behind it. */
  function ConnectingAgent(d: nat, n: nat, r: nat): Agent {
    Agent(Pop3, Connecting, map[n := StopTimer, n + 1 := Connect], n + 2,
          NoIds.(startDelay := d, waitStop := n, connect := n + 1), ErrNone, r, false, AutoOnly, NoFlags, false, false)
  }

  /** The same agent after that connect has failed: it waits with operation n + 2. */
  function WaitingAgent(d: nat, n: nat, r: nat): Agent {
    ConnectingAgent(d, n, r).(state := TimerWaiting, ops := map[n := StopTimer, n + 2 := IntervalTimer], nextId := n + 3,
      ids := NoIds.(startDelay := d, waitStop := n, connect := n + 1, interval := n + 2))
  }

  function FailEvent(n: nat, c: Env): Event { OpCompletes(n + 1, Failed, Good, c) }
  function WaitEvent(n: nat): Event { OpCompletes(n + 2, ErrNone, Good, Good) }

  /** k times: the connect fails, the wait passes. */
  function Cycles(n: nat, k: nat): seq<Event>
    decreases k
  {
    if k == 0 then [] else [FailEvent(n, Good), WaitEvent(n)] + Cycles(n + 3, k - 1)
  }

  lemma FailureHandled(d: nat, n: nat, r: nat)
    requires d < n
    ensures var a := ConnectingAgent(d, n, r);
      && Deliverable(a, FailEvent(n, Good))
      && CompletionHandled(a, n + 1, Failed, Good) == a.(ops := map[n := StopTimer], error := Failed)
  {
    assert map[n := StopTimer, n + 1 := Connect] - {n + 1} == map[n := StopTimer];
    hide ImapAgent.HandleOpCompleted, CheckAndHandleSchedulingL;
  }

  /** What is true of an agent that has just failed to connect. */
  lemma FailureIsDefault(d: nat, n: nat, r: nat, c: Env)
    requires d < n && r < 15
    ensures var a := ConnectingAgent(d, n, r); var e := FailEvent(n, c);
      && DefaultFailure(a, e) && CountedFailure(a, e)
      && (Resets(a, e) ==> GivesUp(BeforeChoice(CompletionHandled(a, n + 1, Failed, Good), c)))
  {
    FailureHandled(d, n, r);
    hide CompletionHandled, BeforeChoice;
  }

  /** A failure short of the fifteenth: the agent waits before it tries again. */
  lemma FailureWaits(d: nat, n: nat, r: nat)
    requires d < n && r < 14
    ensures var a := ConnectingAgent(d, n, r); var e := FailEvent(n, Good);
      Step(a, e) == WaitingAgent(d, n, r + 1) && !Resets(a, e)
  {
    FailureHandled(d, n, r);
    FailureIsDefault(d, n, r, Good);
    var a := ConnectingAgent(d, n, r);
    var b := a.(ops := map[n := StopTimer], error := Failed);
    hide CompletionHandled, ImapAgent.ChangeNextStateL;
    var x := b.(state := if (r + 1) % 3 == 0 then ConnectFailed else Reconnecting, retry := r + 1, error := ErrNone);
    assert ErrorHandled(b, Good) == x;
    hide ErrorHandled;
    assert PopAgent.AfterConnectionL(x, Good) == WaitingAgent(d, n, r + 1) by {
      assert map[n := StopTimer][n + 2 := IntervalTimer] == map[n := StopTimer, n + 2 := IntervalTimer];
    }
    hide PopAgent.AfterConnectionL;
    assert PopAgent.ChangeNextStateL(b, Good) == WaitingAgent(d, n, r + 1);
    hide PopAgent.ChangeNextStateL;
  }

  lemma WaitHandled(d: nat, n: nat, r: nat)
    requires d < n
    ensures var a := WaitingAgent(d, n, r);
      && Deliverable(a, WaitEvent(n))
      && CompletionHandled(a, n + 2, ErrNone, Good)
         == a.(ops := map[n := StopTimer], ids := a.ids.(interval := KErrNotFound))
  {
    assert map[n := StopTimer, n + 2 := IntervalTimer] - {n + 2} == map[n := StopTimer];
    hide ImapAgent.HandleOpCompleted, CheckAndHandleSchedulingL;
  }

  /** A waiting agent with nothing but its stop timer left, s; k is the next operation id. */
  function RestedAgent(ids: Ids, s: nat, k: nat, r: nat): Agent {
    Agent(Pop3, TimerWaiting, map[s := StopTimer], k, ids.(waitStop := s), ErrNone, r, false, AutoOnly, NoFlags, false, false)
  }

  lemma ScheduleAsks(ids: Ids, s: nat, k: nat, r: nat)
    requires s < k && ids.interval == ids.waitStart == ids.stayOnline == KErrNotFound
    ensures CheckAndHandleSchedulingL(RestedAgent(ids, s, k, r), Good)
      == RestedAgent(ids, k, k + 1, r)
  {
    assert map[s := StopTimer] - {s} == map[];
    assert map[][k := StopTimer] == map[k := StopTimer] && map[k := StopTimer] - {-1} == map[k := StopTimer];
  }

  lemma RestedConnects(ids: Ids, s: nat, k: nat, r: nat)
    requires s < k && ids.interval == ids.waitStart == ids.stayOnline == KErrNotFound
    ensures ConnectIfAllowedL(RestedAgent(ids, s, k, r), KErrNotFound, Good)
      == RestedAgent(ids.(connect := k + 1), k, k + 2, r).(state := Connecting, ops := map[k := StopTimer, k + 1 := Connect])
  {
    ScheduleAsks(ids, s, k, r);
    hide CheckAndHandleSchedulingL;
    assert map[k := StopTimer][k + 1 := Connect] == map[k := StopTimer, k + 1 := Connect];
  }

  /** The wait passes, and the agent connects again. */
  lemma WaitConnects(d: nat, n: nat, r: nat)
    requires d < n
    ensures var a := WaitingAgent(d, n, r); var e := WaitEvent(n);
      Step(a, e) == ConnectingAgent(d, n + 3, r) && !Resets(a, e) && !CountedFailure(a, e)
  {
    WaitHandled(d, n, r);
    var ids := NoIds.(startDelay := d, connect := n + 1);
    RestedConnects(ids, n, n + 3, r);
    var b := RestedAgent(ids, n, n + 3, r);
    hide CompletionHandled, ImapAgent.ChangeNextStateL, ConnectIfAllowedL;
    assert ErrorHandled(b, Good) == b;
    hide ErrorHandled;
    assert PopAgent.ChangeNextStateL(b, Good) == ConnectingAgent(d, n + 3, r);
    hide PopAgent.ChangeNextStateL;
    assert BeforeChoice(b, Good) == b;
  }

  lemma TwoMore(a: Agent, m: Agent, b: Agent, e: Event, f: Event, fs: seq<Event>)
    requires Step(a, e) == m && Step(m, f) == b && !a.settings.updateOk && !m.settings.updateOk
    requires CountedFailure(a, e) && !CountedFailure(m, f) && !Resets(a, e) && !Resets(m, f)
    ensures var es := [e, f] + fs;
      && Run(a, es) == Run(b, fs) && Failures(a, es) == 1 + Failures(b, fs)
      && (NeverUpdated(b, fs) ==> NeverUpdated(a, es)) && (NeverReset(b, fs) ==> NeverReset(a, es))
  {
    hide Step, Resets, CountedFailure;
    var ffs := [f] + fs;
    assert ([e, f] + fs)[1..] == ffs && ffs[1..] == fs;
    assert Run(m, ffs) == Run(b, fs) && Failures(m, ffs) == Failures(b, fs);
    assert NeverUpdated(b, fs) ==> NeverUpdated(m, ffs);
    assert NeverReset(b, fs) ==> NeverReset(m, ffs);
  }

  lemma CycleCounts(d: nat, n: nat, r: nat, fs: seq<Event>)
    requires d < n && r < 14
    ensures var a := ConnectingAgent(d, n, r); var b := ConnectingAgent(d, n + 3, r + 1); var es := [FailEvent(n, Good), WaitEvent(n)] + fs;
      && Run(a, es) == Run(b, fs) && Failures(a, es) == 1 + Failures(b, fs)
      && (NeverUpdated(b, fs) ==> NeverUpdated(a, es)) && (NeverReset(b, fs) ==> NeverReset(a, es))
  {
    FailureWaits(d, n, r);
    FailureIsDefault(d, n, r, Good);
    WaitConnects(d, n, r + 1);
    var a, m, b := ConnectingAgent(d, n, r), WaitingAgent(d, n, r + 1), ConnectingAgent(d, n + 3, r + 1);
    assert !a.settings.updateOk && !m.settings.updateOk;
    hide Step, Resets, CountedFailure, DefaultFailure, ConnectingAgent, WaitingAgent, FailEvent, WaitEvent;
    TwoMore(a, m, b, FailEvent(n, Good), WaitEvent(n), fs);
  }

  /** k cycles: k failures counted, and the agent connects once more. */
  lemma {:induction false} CyclesCount(d: nat, n: nat, r: nat, k: nat)
    requires d < n && r + k < 15
    ensures var a := ConnectingAgent(d, n, r); var es := Cycles(n, k);
      && Run(a, es) == ConnectingAgent(d, n + 3 * k, r + k) && Failures(a, es) == k
      && NeverUpdated(a, es) && NeverReset(a, es)
    decreases k
  {
    if k > 0 {
      CycleCounts(d, n, r, Cycles(n + 3, k - 1));
      CyclesCount(d, n + 3, r + 1, k - 1);
      hide ConnectingAgent, Run, Failures, NeverUpdated, NeverReset, FailEvent, WaitEvent;
    }
  }

  // ---- from the start ------------------------------------------------------------------------------------

  function StartEvents(d: nat): seq<Event> {
    [Started(Good), OpCompletes(d, ErrNone, Good, Good), OpCompletes(d + 2, ErrNone, Good, Good)]
  }

  function DelayedAgent(d: nat): Agent {
    Fresh(Pop3, d + 1, AutoOnly).(ops := map[d := DelayTimer], ids := NoIds.(startDelay := d))
  }

  function FirstWait(d: nat): Agent {
    RestedAgent(NoIds.(startDelay := d, interval := d + 2), d + 1, d + 3, 0).(ops := map[d + 1 := StopTimer, d + 2 := IntervalTimer])
  }

  lemma AutoStarts(d: nat)
    ensures Step(Fresh(Pop3, d, AutoOnly), Started(Good)) == DelayedAgent(d)
  {
    hide OpCompleted;
  }

  lemma FirstSchedule(d: nat)
    ensures var b := Fresh(Pop3, d + 1, AutoOnly).(ids := NoIds.(startDelay := d), connectNow := true);
      CheckAndHandleSchedulingL(b, Good)
        == b.(ops := map[d + 1 := StopTimer], nextId := d + 2, ids := NoIds.(startDelay := d, waitStop := d + 1))
  {
    assert map[][d + 1 := StopTimer] == map[d + 1 := StopTimer] && map[d + 1 := StopTimer] - {-1} == map[d + 1 := StopTimer];
  }

  lemma DelayPasses(d: nat)
    ensures Step(DelayedAgent(d), OpCompletes(d, ErrNone, Good, Good)) == FirstWait(d)
  {
    var a := DelayedAgent(d);
    var b := a.(ops := map[], connectNow := true);
    assert map[d := DelayTimer] - {d} == map[];
    assert CompletionHandled(a, d, ErrNone, Good) == b by {
      hide ImapAgent.HandleOpCompleted, CheckAndHandleSchedulingL;
    }
    hide CompletionHandled, ImapAgent.ChangeNextStateL;
    FirstSchedule(d);
    hide CheckAndHandleSchedulingL;
    assert PopAgent.InitialiseL(b, Good) == FirstWait(d) by {
      assert map[d + 1 := StopTimer][d + 2 := IntervalTimer] == map[d + 1 := StopTimer, d + 2 := IntervalTimer];
    }
    hide PopAgent.InitialiseL;
    assert PopAgent.ChangeNextStateL(b, Good) == FirstWait(d);
    hide PopAgent.ChangeNextStateL;
  }

  lemma FirstWaitPasses(d: nat)
    ensures Step(FirstWait(d), OpCompletes(d + 2, ErrNone, Good, Good)) == ConnectingAgent(d, d + 3, 0)
  {
    var a := FirstWait(d);
    var ids := NoIds.(startDelay := d);
    var b := RestedAgent(ids, d + 1, d + 3, 0);
    assert map[d + 1 := StopTimer, d + 2 := IntervalTimer] - {d + 2} == map[d + 1 := StopTimer];
    assert CompletionHandled(a, d + 2, ErrNone, Good) == b by {
      hide ImapAgent.HandleOpCompleted, CheckAndHandleSchedulingL;
    }
    RestedConnects(ids, d + 1, d + 3, 0);
    hide CompletionHandled, ImapAgent.ChangeNextStateL, ConnectIfAllowedL;
    assert ErrorHandled(b, Good) == b;
    hide ErrorHandled;
    assert PopAgent.ChangeNextStateL(b, Good) == ConnectingAgent(d, d + 3, 0);
    hide PopAgent.ChangeNextStateL;
  }

  lemma StartConnects(d: nat)
    ensures Run(Fresh(Pop3, d, AutoOnly), StartEvents(d)) == ConnectingAgent(d, d + 3, 0)
  {
    AutoStarts(d);
    DelayPasses(d);
    FirstWaitPasses(d);
    hide Step, DelayedAgent, FirstWait, ConnectingAgent;
    var es := StartEvents(d);
    assert es[1..] == [es[1], es[2]] && es[1..][1..] == [es[2]] && es[1..][1..][1..] == [];
    assert Run(FirstWait(d), [es[2]]) == Step(FirstWait(d), es[2]);
    assert Run(DelayedAgent(d), [es[1], es[2]]) == Run(FirstWait(d), [es[2]]);
  }

  lemma {:induction false} RunAppend(a: Agent, es: seq<Event>, fs: seq<Event>)
    ensures Run(a, es + fs) == Run(Run(a, es), fs)
    decreases |es|
  {
    hide Step;
    if es == [] {
      assert es + fs == fs;
    } else {
      assert (es + fs)[1..] == es[1..] + fs;
      RunAppend(Step(a, es[0]), es[1..], fs);
    }
  }

  /** From its start a POP agent fails to connect fourteen times, all counted and none reset. */
  lemma FourteenFailures(d: nat, c: Env)
    ensures var a := Run(Fresh(Pop3, d, AutoOnly), StartEvents(d)); var es := Cycles(d + 3, 14);
      && Inv(a) && !a.left && a.retry == 0 && NeverUpdated(a, es) && NeverReset(a, es) && Failures(a, es) == 14
      && Run(a, es) == ConnectingAgent(d, d + 45, 14) && DefaultFailure(Run(a, es), FailEvent(d + 45, c))
  {
    var f := Fresh(Pop3, d, AutoOnly);
    FreshInv(Pop3, d, AutoOnly);
    RunInv(f, StartEvents(d));
    StartConnects(d);
    FailureIsDefault(d, d + 45, 14, c);
    hide Run, Cycles, Failures, NeverUpdated, NeverReset, Inv, DefaultFailure, StartEvents, FailEvent;
    CyclesCount(d, d + 3, 0, 14);
  }

  lemma RunThenStep(a: Agent, es: seq<Event>, fs: seq<Event>, e: Event)
    ensures Run(a, es + fs + [e]) == Step(Run(Run(a, es), fs), e)
  {
    hide Step;
    RunAppend(a, es + fs, [e]);
    RunAppend(a, es, fs);
    var b := Run(Run(a, es), fs);
    assert [e][1..] == [] && Run(Step(b, e), []) == Step(b, e);
  }

  /** The fifteenth failure is reached: it switches the agent off if the success flag can be read; if
      not, the counter leaves its range. */
  lemma FifteenthFailureIsReached(d: nat, c: Env)
    ensures var f := Fresh(Pop3, d, AutoOnly); var a := Run(f, StartEvents(d)); var es := Cycles(d + 3, 14);
      var e := FailEvent(d + 45, c); var all := StartEvents(d) + es + [e];
      && Failures(a, es) == 14 && DefaultFailure(Run(a, es), e)
      && (c.readable && c.notes && c.saves ==> Run(f, all).removed)
      && (!c.readable ==> Run(f, all).retry == 15 && !AlwaysBelow(f, all))
  {
    var f := Fresh(Pop3, d, AutoOnly);
    var a := Run(f, StartEvents(d));
    var es := Cycles(d + 3, 14);
    var e := FailEvent(d + 45, c);
    var all := StartEvents(d) + es + [e];
    FourteenFailures(d, c);
    LastIsCompletion(d, c);
    if !c.readable { LastFailureOvershoots(d, d + 45, c); }
    hide Run, Step, ConnectingAgent, Cycles, Failures, NeverUpdated, NeverReset, Inv, DefaultFailure, StartEvents, FailEvent;
    hide AlwaysBelow, CompletionHandled, BeforeChoice;
    FifteenthFailureSwitchesOff(a, es, e);
    RunThenStep(f, StartEvents(d), es, e);
    if AlwaysBelow(f, all) { BelowAtEnd(f, all); }
  }

  lemma LastIsCompletion(d: nat, c: Env)
    ensures FailEvent(d + 45, c).OpCompletes? && FailEvent(d + 45, c).c == c
  {}

  lemma LastFailureOvershoots(d: nat, n: nat, c: Env)
    requires d < n && !c.readable
    ensures Step(ConnectingAgent(d, n, 14), FailEvent(n, c)).retry == 15
  {
    var a := ConnectingAgent(d, n, 14);
    FailureHandled(d, n, 14);
    var b := a.(ops := map[n := StopTimer], error := Failed);
    hide CompletionHandled, ImapAgent.ChangeNextStateL;
    assert ErrorHandled(b, c) == Leave(b.(retry := 15));
    hide ErrorHandled;
    assert PopAgent.ChangeNextStateL(b, c) == Leave(b.(retry := 15));
    hide PopAgent.ChangeNextStateL;
  }
}
