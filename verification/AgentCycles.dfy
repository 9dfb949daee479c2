/** Whole turns of an agent: from one wait, through a connection, to the next. */
module AgentCycles {
  import opened AgentState
  import opened AgentRuns
  import opened AgentTable
  import opened AgentInvariant
  import opened AgentBehaviour
  import opened AgentSchedule

  /** The agent waits for operation i, without notifications to serve. */
  ghost predicate Waiting(a: Agent, i: int) {
    Due(a, i, IntervalTimer) && i == a.ids.interval && a.state.TimerWaiting? && a.error.ErrNone? && !IsEmn(a)
  }

  /** The platform lets the agent connect, within its schedule. */
  predicate Lets(a: Agent, env: Env) {
    Through(env) && MayConnect(a, env) && env.schedule.Connected? && env.schedule.seconds > 0
  }

  /** A turn of a POP agent.  n: its next operation id. */
  function PopTurn(i: int, n: nat, e: Env): seq<Event> {
    [OpCompletes(i, ErrNone, e, e), OpCompletes(n + 1, ErrNone, e, e), OpCompletes(n + 2, ErrNone, e, e),
     OpCompletes(n + 3, ErrNone, e, e)]
  }

  /** A turn of an IMAP agent that does not stay online. */
  function ImapTurn(i: int, n: nat, e: Env): seq<Event> { PopTurn(i, n, e) + [OpCompletes(n + 4, ErrNone, e, e)] }

  /** What the agent is after the first two events of its turn. */
  function MidTurn(a: Agent, i: int, n: nat, e: Env): Agent {
    Step(Step(a, OpCompletes(i, ErrNone, e, e)), OpCompletes(n + 1, ErrNone, e, e))
  }

  function TwoMore(c: Agent, m: nat, e: Env): Agent {
    Step(Step(c, OpCompletes(m, ErrNone, e, e)), OpCompletes(m + 1, ErrNone, e, e))
  }

  lemma StaysInOrder(a: Agent, e: Event)
    requires Inv(a) && !a.left
    ensures Inv(Step(a, e)) && !Step(a, e).left
  {
    StepInv(a, e);
    StepFrame(a, e);
    hide Inv, Step;
  }

  lemma ProtocolStays(a: Agent, e: Event)
    requires Inv(a)
    ensures Step(a, e).protocol == a.protocol
  {
    StepInv(a, e);
    hide Inv, Step;
  }

  lemma FourSteps(a: Agent, e: Event, f: Event, g: Event, h: Event)
    ensures Run(a, [e, f, g, h]) == Step(Step(Step(Step(a, e), f), g), h)
  {
    hide Step;
    var b := Step(a, e);
    var c := Step(b, f);
    var d := Step(c, g);
    assert [e, f, g, h][1..] == [f, g, h] && [f, g, h][1..] == [g, h] && [g, h][1..] == [h] && [h][1..] == [];
    assert Run(d, [h]) == Step(d, h);
    assert Run(c, [g, h]) == Run(d, [h]);
    assert Run(b, [f, g, h]) == Run(c, [g, h]);
  }

  /** The access settings decide whether the agent may connect. */
  lemma SameRights(a: Agent, b: Agent, env: Env)
    requires SameAccess(a, b) && b.protocol == a.protocol && b.flags == a.flags
    ensures MayConnect(a, env) == MayConnect(b, env) && IsEmn(a) == IsEmn(b) && IsTemporary(a) == IsTemporary(b) && Stays(a) == Stays(b)
  {}

  lemma PopConnectsInTurn(a: Agent, i: int, e: Env)
    requires Waiting(a, i) && a.protocol.Pop3? && Lets(a, e)
    ensures var n := a.nextId; var b := Step(a, OpCompletes(i, ErrNone, e, e)); var c := Step(b, OpCompletes(n + 1, ErrNone, e, e));
      && b.state.Connecting? && c.state.DoingFilteredPopulate? && Inv(c) && !c.left && GoesOn(a, c, n + 3)
      && c.retry == 0 && c.settings.updateOk && (Due(c, n + 2, Kind.Completed) || (Due(c, n + 2, Populate) && c.ids.populate == n + 2))
      && Awake(c, n)
  {
    var n := a.nextId;
    WaitIsOver(a, i, e, e);
    StaysInOrder(a, OpCompletes(i, ErrNone, e, e));
    var b := Step(a, OpCompletes(i, ErrNone, e, e));
    hide Inv, Step, NoTimers;
    PopConnectSucceeds(b, n + 1, e, e);
    StaysInOrder(b, OpCompletes(n + 1, ErrNone, e, e));
  }

  /** From the fetch to the next wait. */
  lemma PopFinishesTurn(c: Agent, m: nat, e: Env)
    requires Inv(c) && !c.left && !c.removed && c.protocol.Pop3? && c.state.DoingFilteredPopulate? && c.error.ErrNone? && !IsEmn(c)
    requires (Due(c, m, Populate) && m == c.ids.populate) || Due(c, m, Kind.Completed)
    requires c.nextId == m + 1 && Through(e)
    ensures var f := Step(Step(c, OpCompletes(m, ErrNone, e, e)), OpCompletes(m + 1, ErrNone, e, e));
      && Waiting(f, m + 2) && GoesOn(c, f, m + 3) && f.retry == c.retry && f.settings == c.settings
      && f.ids.waitStop == c.ids.waitStop && f.ids.waitStart == c.ids.waitStart
  {
    hide Inv, Step, Through;
    PopPopulated(c, m, ErrNone, e, e);
    StaysInOrder(c, OpCompletes(m, ErrNone, e, e));
    var d := Step(c, OpCompletes(m, ErrNone, e, e));
    SameRights(c, d, e);
    LastOfTurn(d, m + 1, e);
  }

  lemma LastOfTurn(d: Agent, m: nat, e: Env)
    requires Inv(d) && !d.left && !d.removed && d.state.AutoDisconnecting? && d.error.ErrNone? && !IsEmn(d) && !Removes(d)
    requires (Due(d, m, Disconnect) || Due(d, m, Kind.Completed)) && d.nextId == m + 1 && Through(e)
    ensures var f := Step(d, OpCompletes(m, ErrNone, e, e));
      && Waiting(f, m + 1) && GoesOn(d, f, m + 2) && f.retry == d.retry && f.settings == d.settings
      && f.ids.waitStop == d.ids.waitStop && f.ids.waitStart == d.ids.waitStart
  {
    hide Inv, Step, NoNewConnect, Through;
    ConnectionIsOver(d, m, ErrNone, e, e);
    StaysInOrder(d, OpCompletes(m, ErrNone, e, e));
    SameRights(d, Step(d, OpCompletes(m, ErrNone, e, e)), e);
  }

  /** b has taken a turn: it waits for operation k, its stop timer is n, its counter is reset and its
      success recorded. */
  ghost predicate TookTurn(a: Agent, b: Agent, n: nat, k: nat) {
    && Waiting(b, k) && b.nextId == k + 1 && b.retry == 0 && b.settings.updateOk && Awake(b, n) && b.flags == a.flags
    && SameAccess(a, b) && b.protocol == a.protocol
  }

  /** c is on its turn: its stop timer is n, and operation m is the one it works on. */
  ghost predicate OnTurn(a: Agent, c: Agent, n: nat, m: nat) {
    && Inv(c) && GoesOn(a, c, m + 1) && c.retry == 0 && c.settings.updateOk && !IsEmn(c)
    && c.ids.waitStop == n && c.ids.waitStart == KErrNotFound
  }

  lemma LetsThrough(a: Agent, e: Env)
    requires Lets(a, e)
    ensures Through(e)
  {}

  lemma PopFetchesOnTurn(a: Agent, i: int, e: Env)
    requires Waiting(a, i) && a.protocol.Pop3? && Lets(a, e)
    ensures var n := a.nextId; var c := MidTurn(a, i, n, e);
      && OnTurn(a, c, n, n + 2) && c.state.DoingFilteredPopulate? && c.protocol.Pop3?
      && ((Due(c, n + 2, Populate) && n + 2 == c.ids.populate) || Due(c, n + 2, Kind.Completed))
  {
    var n := a.nextId;
    hide Inv, Step, Pending, Lets, MayConnect;
    PopConnectsInTurn(a, i, e);
    SameRights(a, Step(Step(a, OpCompletes(i, ErrNone, e, e)), OpCompletes(n + 1, ErrNone, e, e)), e);
  }

  lemma PopEndsTurn(a: Agent, c: Agent, n: nat, m: nat, e: Env)
    requires OnTurn(a, c, n, m) && c.protocol.Pop3? && c.state.DoingFilteredPopulate? && Through(e)
    requires (Due(c, m, Populate) && m == c.ids.populate) || Due(c, m, Kind.Completed)
    ensures TookTurn(a, TwoMore(c, m, e), n, m + 2)
  {
    hide Step, Through;
    PopFinishesTurn(c, m, e);
    StopTimerStays(TwoMore(c, m, e), n);
    hide Inv;
  }

  lemma TurnRuns(a: Agent, i: int, n: nat, e: Env)
    ensures Run(a, PopTurn(i, n, e)) == TwoMore(MidTurn(a, i, n, e), n + 2, e)
    ensures Run(a, ImapTurn(i, n, e)) ==
      TwoMore(Step(MidTurn(a, i, n, e), OpCompletes(n + 2, ErrNone, e, e)), n + 3, e)
  {
    hide Step, Run;
    FourSteps(a, OpCompletes(i, ErrNone, e, e), OpCompletes(n + 1, ErrNone, e, e), OpCompletes(n + 2, ErrNone, e, e),
              OpCompletes(n + 3, ErrNone, e, e));
    LastStep(a, PopTurn(i, n, e), OpCompletes(n + 4, ErrNone, e, e));
  }

  /** Main result: a turn of a POP agent.  Its wait is over, it connects, fetches, disconnects and waits
      again, with its counter reset, its success recorded and its stop timer set. */
  lemma PopAgentTakesItsTurn(a: Agent, i: int, e: Env)
    requires Waiting(a, i) && a.protocol.Pop3? && Lets(a, e)
    ensures TookTurn(a, Run(a, PopTurn(i, a.nextId, e)), a.nextId, a.nextId + 4)
  {
    hide Step, Run, OnTurn, TookTurn, Due, Waiting, Lets, Through, PopTurn, ImapTurn, TwoMore, MidTurn, Inv, Awake;
    LetsThrough(a, e);
    PopFetchesOnTurn(a, i, e);
    var n := a.nextId;
    TurnRuns(a, i, n, e);
    PopEndsTurn(a, MidTurn(a, i, n, e), n, n + 2, e);
  }

  lemma StopTimerStays(f: Agent, n: nat)
    requires Inv(f) && f.ids.waitStop == n && f.ids.waitStart == KErrNotFound
    ensures Awake(f, n)
  {}

  /** Main result: a turn of an IMAP agent that does not stay online.  Its wait is over, it connects,
      synchronises, fetches, disconnects and waits again. */
  lemma ImapAgentTakesItsTurn(a: Agent, i: int, e: Env)
    requires Waiting(a, i) && a.protocol.Imap4? && Lets(a, e) && e.connected && a.flags == NoFlags
    ensures TookTurn(a, Run(a, ImapTurn(i, a.nextId, e)), a.nextId, a.nextId + 5)
    ensures var c := MidTurn(a, i, a.nextId, e);
      c.state.Synchronising? && Step(c, OpCompletes(a.nextId + 2, ErrNone, e, e)).state.Fetching?
  {
    hide Step, Run, OnTurn, TookTurn, Due, Waiting, Lets, Through, PopTurn, ImapTurn, TwoMore, MidTurn, Inv, Awake;
    LetsThrough(a, e);
    ImapSynchronisesOnTurn(a, i, e);
    var n := a.nextId;
    TurnRuns(a, i, n, e);
    var c := MidTurn(a, i, n, e);
    ImapFetchesOnTurn(a, c, n, n + 2, e);
    ImapEndsTurn(a, Step(c, OpCompletes(n + 2, ErrNone, e, e)), n, n + 3, e);
  }

  lemma ImapFetchesOnTurn(a: Agent, c: Agent, n: nat, m: nat, e: Env)
    requires OnTurn(a, c, n, m) && c.protocol.Imap4? && c.state.Synchronising? && Due(c, m, Sync) && m == c.ids.sync
    ensures var d := Step(c, OpCompletes(m, ErrNone, e, e));
      OnTurn(a, d, n, m + 1) && d.state.Fetching? && Due(d, m + 1, Kind.Completed) && d.protocol.Imap4?
  {
    hide Step, Inv;
    ImapSyncSucceeds(c, m, e, e);
    StaysInOrder(c, OpCompletes(m, ErrNone, e, e));
  }

  lemma ImapEndsTurn(a: Agent, d: Agent, n: nat, m: nat, e: Env)
    requires OnTurn(a, d, n, m) && d.protocol.Imap4? && d.state.Fetching? && a.flags == NoFlags && Through(e) && e.connected
    requires Due(d, m, Kind.Completed)
    ensures TookTurn(a, TwoMore(d, m, e), n, m + 2)
  {
    hide Step, Through;
    ImapFinishesTurn(d, m, e);
    StopTimerStays(TwoMore(d, m, e), n);
    hide Inv;
  }

  lemma ImapFinishesTurn(d: Agent, m: nat, e: Env)
    requires Inv(d) && !d.left && !d.removed && d.protocol.Imap4? && d.state.Fetching? && d.error.ErrNone? && !IsEmn(d)
    requires Due(d, m, Kind.Completed) && d.nextId == m + 1 && Through(e) && e.connected && d.flags == NoFlags
    ensures var f := Step(Step(d, OpCompletes(m, ErrNone, e, e)), OpCompletes(m + 1, ErrNone, e, e));
      && Waiting(f, m + 2) && GoesOn(d, f, m + 3) && f.retry == d.retry && f.settings == d.settings
      && f.ids.waitStop == d.ids.waitStop && f.ids.waitStart == d.ids.waitStart
  {
    hide Inv, Step, Through;
    ImapFetched(d, m, ErrNone, e, e);
    StaysInOrder(d, OpCompletes(m, ErrNone, e, e));
    var f := Step(d, OpCompletes(m, ErrNone, e, e));
    SameRights(d, f, e);
    LastOfTurn(f, m + 1, e);
  }

  lemma {:induction false} LastStep(a: Agent, es: seq<Event>, e: Event)
    ensures Run(a, es + [e]) == Step(Run(a, es), e)
    decreases |es|
  {
    hide Step;
    if es == [] {
      assert [] + [e] == [e] && [e][1..] == [];
      assert Run(Step(a, e), []) == Step(a, e);
    } else {
      assert (es + [e])[1..] == es[1..] + [e];
      LastStep(Step(a, es[0]), es[1..], e);
    }
  }

  lemma ImapConnectsInTurn(a: Agent, i: int, e: Env)
    requires Waiting(a, i) && a.protocol.Imap4? && Lets(a, e) && a.flags == NoFlags
    ensures var n := a.nextId; var b := Step(a, OpCompletes(i, ErrNone, e, e));
      && b.state.PlainConnecting? && Due(b, n + 1, Connect) && b.ids.connect == n + 1 && GoesOn(a, b, n + 2)
      && b.ids.waitStop == n && b.ids.waitStart == KErrNotFound
  {
    WaitIsOver(a, i, e, e);
    StaysInOrder(a, OpCompletes(i, ErrNone, e, e));
    hide Inv, Step, NoTimers;
  }

  lemma ImapSynchronisesOnTurn(a: Agent, i: int, e: Env)
    requires Waiting(a, i) && a.protocol.Imap4? && Lets(a, e) && e.connected && a.flags == NoFlags
    ensures var n := a.nextId; var c := MidTurn(a, i, n, e);
      OnTurn(a, c, n, n + 2) && c.protocol.Imap4? && c.state.Synchronising? && Due(c, n + 2, Sync) && n + 2 == c.ids.sync
  {
    var n := a.nextId;
    ImapConnectsInTurn(a, i, e);
    var b := Step(a, OpCompletes(i, ErrNone, e, e));
    hide Inv, Step, MayConnect;
    ImapConnectSucceeds(b, n + 1, e, e);
    StaysInOrder(b, OpCompletes(n + 1, ErrNone, e, e));
    hide Through;
    SameRights(a, Step(b, OpCompletes(n + 1, ErrNone, e, e)), e);
  }
}
