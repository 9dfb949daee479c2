/** Reconnect attempts are bounded while no update has ever succeeded. */
module RetryBound {
  import opened AgentState
  import opened AgentRuns
  import opened AgentTable
  import opened AgentInvariant
  import PopAgent
  import ImapAgent

  /** A connect has failed with a code that goes to the default retry mechanism. */
  predicate DefaultFailureAt(a: Agent) {
    (a.error.ErrDisconnected? || a.error.ErrOther?) && InConnectingState(a.state)
  }

  /** An error that switches the agent off when no update has succeeded. */
  predicate HopelessAt(a: Agent) {
    (a.error.ErrFatal? || a.error.ErrServerNotFound?) && !a.state.TimerWaitingForStart?
  }

  /** e completes an operation of a, and the completion handler gets through. */
  predicate Choosing(a: Agent, e: Event) {
    e.OpCompletes? && !a.removed && Deliverable(a, e) && !CompletionHandled(a, e.id, e.code, e.h).left
  }

  predicate DefaultFailure(a: Agent, e: Event) {
    Choosing(a, e) && DefaultFailureAt(CompletionHandled(a, e.id, e.code, e.h))
  }

  /** A connect has failed, the failure is about to be counted, and the agent is not being removed. */
  predicate CountsAt(a: Agent) {
    && (DefaultFailureAt(a) || (a.error.ErrServerNotFound? && !a.state.TimerWaitingForStart?))
    && !(a.protocol.Imap4? && a.state.AutoDisconnecting? && a.flags.removeMe && !a.flags.dontRemove)
  }

  /** A failed connection attempt is counted: every default failure, and a missing server if the success
      flag cannot be read. */
  predicate CountedFailure(a: Agent, e: Event) {
    Choosing(a, e) &&
    var b := CompletionHandled(a, e.id, e.code, e.h);
    CountsAt(b) && (DefaultFailureAt(b) || !e.c.readable)
  }

  /** The event may reset the retry counter for another reason than the fifteenth failure. */
  predicate Resets(a: Agent, e: Event) {
    || e.Synchronised?
    || (e.OpCompletes? && Succeeds(a, e.id, e.code))
    || (Choosing(a, e) &&
        var b := CompletionHandled(a, e.id, e.code, e.h);
        (HopelessAt(b) && (b.error.ErrFatal? || e.c.readable)) || GivesUp(BeforeChoice(b, e.c)))
  }

  predicate Readable(e: Event) { e.OpCompletes? ==> e.c.readable }

  /** The fifteenth failure is counted, but the success flag cannot be read then. */
  predicate Overshoots(a: Agent, e: Event) {
    Choosing(a, e) && !e.c.readable &&
    var b := CompletionHandled(a, e.id, e.code, e.h);
    CountsAt(b) && b.retry == KAOMaxRetriesSwitchOff - 1
  }

  ghost predicate NeverUpdated(a: Agent, es: seq<Event>)
    decreases |es|
  {
    !a.settings.updateOk && (es == [] || NeverUpdated(Step(a, es[0]), es[1..]))
  }

  ghost predicate NeverReset(a: Agent, es: seq<Event>)
    decreases |es|
  {
    es == [] || (!Resets(a, es[0]) && NeverReset(Step(a, es[0]), es[1..]))
  }

  function Failures(a: Agent, es: seq<Event>): nat
    decreases |es|
  {
    if es == [] then 0 else (if CountedFailure(a, es[0]) then 1 else 0) + Failures(Step(a, es[0]), es[1..])
  }

  // ---- one step ------------------------------------------------------------------------------------

  lemma ErrorHandledRetry(a: Agent, env: Env)
    requires !a.settings.updateOk && !a.left && a.retry < KAOMaxRetriesSwitchOff
    ensures var b := ErrorHandled(a, env);
      if DefaultFailureAt(a) then
        if a.retry == KAOMaxRetriesSwitchOff - 1 && env.readable
        then b.retry == 0 && b.state.FatalError? && !b.left
        else b.retry == a.retry + 1 && !b.state.FatalError?
      else if HopelessAt(a) then b.retry == (if a.error.ErrFatal? || env.readable then 0 else a.retry + 1)
      else b.retry == a.retry
  {}

  lemma ErrorHandledBound(a: Agent, env: Env)
    requires !a.settings.updateOk && a.retry < KAOMaxRetriesSwitchOff
    ensures ErrorHandled(a, env).retry < KAOMaxRetriesSwitchOff <==>
      !((DefaultFailureAt(a) || (a.error.ErrServerNotFound? && !a.state.TimerWaitingForStart?))
        && !env.readable && a.retry == KAOMaxRetriesSwitchOff - 1)
  {}

  lemma BeforeChoiceBound(a: Agent, env: Env)
    requires !a.settings.updateOk && a.retry < KAOMaxRetriesSwitchOff
    ensures BeforeChoice(a, env).retry < KAOMaxRetriesSwitchOff <==>
      !(CountsAt(a) && !env.readable && a.retry == KAOMaxRetriesSwitchOff - 1)
    ensures BeforeChoice(a, env).retry >= KAOMaxRetriesSwitchOff ==> BeforeChoice(a, env).left
  {
    hide ErrorHandled;
    ErrorHandledBound(a, env);
    ErrorHandledBound(ImapAgent.BackToNormal(a), env);
    OvershootLeaves(a, env);
    OvershootLeaves(ImapAgent.BackToNormal(a), env);
  }

  lemma OvershootLeaves(a: Agent, env: Env)
    requires !a.settings.updateOk && a.retry < KAOMaxRetriesSwitchOff
    ensures ErrorHandled(a, env).retry >= KAOMaxRetriesSwitchOff ==> ErrorHandled(a, env).left
  {}

  lemma LeftChoiceStays(a: Agent, env: Env)
    requires BeforeChoice(a, env).left && !a.left
    ensures ChangeNextStateL(a, env) == BeforeChoice(a, env)
  {
    hide ErrorHandled;
    hide PopAgent.InitialiseL, PopAgent.AfterConnectionL, PopAgent.DoFilteredPopulateL, PopAgent.RestartL;
    hide ImapAgent.InitialiseL, ImapAgent.AfterConnectionL, ImapAgent.AfterFetchL, ImapAgent.RestartL;
    hide ConnectIfAllowedL, NoteAndSwitchOffL, DisconnectL, ImapAgent.FetchNewMailL, ImapAgent.SynchroniseNewL;
  }

  /** One event leaves the counter within 0..14, unless it overshoots. */
  lemma StepKeepsBound(a: Agent, e: Event)
    requires Inv(a) && !a.left && a.retry < KAOMaxRetriesSwitchOff
    requires !a.settings.updateOk && !Step(a, e).settings.updateOk
    ensures Step(a, e).retry < KAOMaxRetriesSwitchOff <==> !Overshoots(a, e)
  {
    StepInv(a, e);
    if e.OpCompletes? && !a.removed && Deliverable(a, e) {
      hide TableInv, NoConnect, CompletionHandled, BeforeChoice, CountsAt, ChangeNextStateL;
      OpCompletedInv(a, e.id, e.code, e.h, e.c);
      var b := CompletionHandled(a, e.id, e.code, e.h);
      BeforeChoiceKeepsTable(b, e.c);
      if !b.left {
        BeforeChoiceBound(b, e.c);
        if BeforeChoice(b, e.c).left { LeftChoiceStays(b, e.c); }
      }
    } else if e.Synchronised? {
      hide TableInv, NoConnect;
    }
  }

  lemma BeforeChoiceRetry(a: Agent, env: Env)
    requires !a.settings.updateOk && !a.left && a.retry < KAOMaxRetriesSwitchOff
    ensures DefaultFailureAt(a) ==>
      (BeforeChoice(a, env).state.FatalError? <==> a.retry == KAOMaxRetriesSwitchOff - 1 && env.readable) &&
      (BeforeChoice(a, env).state.FatalError? ==> !BeforeChoice(a, env).left)
    ensures CountsAt(a) && (DefaultFailureAt(a) || !env.readable) ==>
      BeforeChoice(a, env).retry == (if a.retry == KAOMaxRetriesSwitchOff - 1 && env.readable then 0 else a.retry + 1)
    ensures !(CountsAt(a) && (DefaultFailureAt(a) || !env.readable)) && !(HopelessAt(a) && (a.error.ErrFatal? || env.readable)) ==>
      BeforeChoice(a, env).retry == a.retry
  {
    hide ErrorHandled;
    ErrorHandledRetry(a, env);
    ErrorHandledRetry(ImapAgent.BackToNormal(a), env);
  }

  function CountedRetry(a: Agent, e: Event): int {
    if !CountedFailure(a, e) then a.retry
    else if a.retry == KAOMaxRetriesSwitchOff - 1 && e.c.readable then 0 else a.retry + 1
  }

  lemma StepRetry(a: Agent, e: Event)
    requires Inv(a) && !a.left && a.retry < KAOMaxRetriesSwitchOff && !Resets(a, e)
    requires !a.settings.updateOk && !Step(a, e).settings.updateOk
    ensures Step(a, e).retry == CountedRetry(a, e)
  {
    StepInv(a, e);
    if e.OpCompletes? && !a.removed && Deliverable(a, e) {
      hide TableInv, NoConnect, CompletionHandled, OpCompleted, BeforeChoice;
      OpCompletedInv(a, e.id, e.code, e.h, e.c);
      var b := CompletionHandled(a, e.id, e.code, e.h);
      BeforeChoiceKeepsTable(b, e.c);
      if !b.left { BeforeChoiceRetry(b, e.c); }
    }
  }

  // ---- runs ----------------------------------------------------------------------------------------

  ghost predicate NeverOvershoots(a: Agent, es: seq<Event>)
    decreases |es|
  {
    es == [] || (!Overshoots(a, es[0]) && NeverOvershoots(Step(a, es[0]), es[1..]))
  }

  /** The counter is within 0..14 at every moment of the run. */
  ghost predicate AlwaysBelow(a: Agent, es: seq<Event>)
    decreases |es|
  {
    a.retry < 15 && (es == [] || AlwaysBelow(Step(a, es[0]), es[1..]))
  }

  lemma {:induction false} RunRetry(a: Agent, es: seq<Event>)
    requires Inv(a) && !a.left && a.retry < KAOMaxRetriesSwitchOff && NeverUpdated(a, es)
    ensures AlwaysBelow(a, es) <==> NeverOvershoots(a, es)
    decreases |es|
  {
    hide TableInv, Step, Overshoots;
    if es != [] {
      StepInv(a, es[0]);
      StepFrame(a, es[0]);
      StepKeepsBound(a, es[0]);
      if !Overshoots(a, es[0]) {
        RunRetry(Step(a, es[0]), es[1..]);
      } else {
        NotBelowNow(Step(a, es[0]), es[1..]);
      }
    }
  }

  lemma {:induction false} BelowAtEnd(a: Agent, es: seq<Event>)
    requires AlwaysBelow(a, es)
    ensures Run(a, es).retry < 15
    decreases |es|
  {
    hide Step;
    if es != [] { BelowAtEnd(Step(a, es[0]), es[1..]); }
  }

  lemma NotBelowNow(a: Agent, es: seq<Event>)
    requires a.retry >= 15
    ensures !AlwaysBelow(a, es)
  {}

  lemma {:induction false} ReadableNeverOvershoots(a: Agent, es: seq<Event>)
    requires forall e :: e in es ==> Readable(e)
    ensures NeverOvershoots(a, es)
    decreases |es|
  {
    hide Step, CompletionHandled, CountsAt;
    if es != [] {
      assert Readable(es[0]);
      ReadableNeverOvershoots(Step(a, es[0]), es[1..]);
    }
  }

  /** Main result, for both agents: as long as no update has succeeded with the current settings, the
      retry counter stays within 0..14 at every moment if and only if the success flag can be read
      whenever a fifteenth failure is counted; so it does in every run with readable settings. */
  lemma RetryCounterStaysBelowFifteen(p: Protocol, next: nat, settings: Settings, es: seq<Event>)
    requires NeverUpdated(Fresh(p, next, settings), es)
    ensures AlwaysBelow(Fresh(p, next, settings), es) <==> NeverOvershoots(Fresh(p, next, settings), es)
    ensures (forall e :: e in es ==> Readable(e)) ==> AlwaysBelow(Fresh(p, next, settings), es)
  {
    var a := Fresh(p, next, settings);
    FreshInv(p, next, settings);
    hide TableInv, AlwaysBelow, NeverUpdated, NeverOvershoots;
    RunRetry(a, es);
    if forall e :: e in es ==> Readable(e) { ReadableNeverOvershoots(a, es); }
  }

  /** The counter counts the failed connection attempts since its last reset, whatever else happens and
      whatever settings can be read. */
  lemma {:induction false} FailuresAreCounted(a: Agent, es: seq<Event>)
    requires Inv(a) && !a.left && a.retry + Failures(a, es) < KAOMaxRetriesSwitchOff
    requires NeverUpdated(a, es) && NeverReset(a, es)
    ensures Run(a, es).retry == a.retry + Failures(a, es)
    decreases |es|
  {
    hide TableInv, Step, Resets, CountedFailure;
    if es != [] {
      StepInv(a, es[0]);
      StepFrame(a, es[0]);
      StepRetry(a, es[0]);
      FailuresAreCounted(Step(a, es[0]), es[1..]);
    }
  }

  lemma {:induction false} NeverUpdatedAtEnd(a: Agent, es: seq<Event>)
    requires NeverUpdated(a, es)
    ensures !Run(a, es).settings.updateOk
    decreases |es|
  {
    hide Step;
    if es != [] { NeverUpdatedAtEnd(Step(a, es[0]), es[1..]); }
  }

  /** Main result: starting from a reset counter, and however queued, terminated or cancelled errors
      interleave, a default connect failure takes the agent to the fatal error state exactly when it
      is the fifteenth failure and the success flag can be read; the agent then switches automatic
      updates off and is removed.  If the flag cannot be read, the fifteenth is only counted. */
  lemma FifteenthFailureSwitchesOff(a: Agent, es: seq<Event>, e: Event)
    requires Inv(a) && !a.left && a.retry == 0 && Failures(a, es) < KAOMaxRetriesSwitchOff
    requires NeverUpdated(a, es) && NeverReset(a, es) && DefaultFailure(Run(a, es), e)
    ensures var b := Run(a, es);
      var x := BeforeChoice(CompletionHandled(b, e.id, e.code, e.h), e.c);
      && (x.state.FatalError? <==> Failures(a, es) == 14 && e.c.readable)
      && (Failures(a, es) == 14 && e.c.readable && e.c.notes && e.c.saves ==>
            Step(b, e).removed && Step(b, e).ops == map[] && Step(b, e).retry == 0)
      && (Failures(a, es) == 14 && !e.c.readable ==> x.retry == 15)
  {
    var b := Run(a, es);
    FailuresAreCounted(a, es);
    RunInv(a, es);
    RunFrame(a, es);
    NeverUpdatedAtEnd(a, es);
    hide Inv, Run, NeverUpdated, NeverReset, Failures, DefaultFailure, CompletionHandled, BeforeChoice, Step;
    FailureIsFatal(b, e);
  }

  /** One default connect failure, with the counter in its range. */
  lemma FailureIsFatal(a: Agent, e: Event)
    requires Inv(a) && !a.left && a.retry < KAOMaxRetriesSwitchOff && DefaultFailure(a, e)
    requires !a.settings.updateOk
    ensures var x := BeforeChoice(CompletionHandled(a, e.id, e.code, e.h), e.c);
      && (x.state.FatalError? <==> a.retry == 14 && e.c.readable)
      && (a.retry == 14 && e.c.readable && e.c.notes && e.c.saves ==>
            Step(a, e).removed && Step(a, e).ops == map[] && Step(a, e).retry == 0)
      && (a.retry == 14 && !e.c.readable ==> x.retry == 15)
  {
    FailureKeepsCounter(a, e);
    var y := CompletionHandled(a, e.id, e.code, e.h);
    hide Inv, CompletionHandled, BeforeChoice, ChangeNextStateL;
    BeforeChoiceRetry(y, e.c);
    if a.retry == 14 && e.c.readable && e.c.notes && e.c.saves { FatalErrorRemoves(y, e.c); }
  }

  lemma FailureKeepsCounter(a: Agent, e: Event)
    requires Inv(a) && DefaultFailure(a, e)
    ensures var b := CompletionHandled(a, e.id, e.code, e.h); b.retry == a.retry && b.settings == a.settings
  {
    hide TableInv, NoConnect, CompletionHandled, OpCompleted, BeforeChoice;
    OpCompletedInv(a, e.id, e.code, e.h, e.c);
    if Succeeds(a, e.id, e.code) { SuccessClearsError(a, e.id, e.code, e.h); }
  }

  lemma SuccessClearsError(a: Agent, id: int, code: Err, env: Env)
    requires Inv(a) && id in a.ops && Succeeds(a, id, code)
    ensures CompletionHandled(a, id, code, env).error.ErrNone?
  {
    KindOfRemembered(a.protocol.Imap4?, a.ops, a.nextId, a.ids, id);
    hide TableInv;
  }

  lemma FatalErrorRemoves(a: Agent, env: Env)
    requires BeforeChoice(a, env).state.FatalError? && !BeforeChoice(a, env).left
    requires env.notes && env.saves
    ensures var b := ChangeNextStateL(a, env); b.removed && b.ops == map[] && !b.left && b.retry == BeforeChoice(a, env).retry
  {
    hide ErrorHandled;
    ErrorHandledKeepsTable(a, env);
  }

  // ---- after a success --------------------------------------------------------------------------------

  lemma {:induction false} SuccessIsRemembered(a: Agent, es: seq<Event>)
    requires Inv(a) && a.settings.updateOk && forall e :: e in es ==> !e.Resumed?
    ensures Run(a, es).settings.updateOk
    decreases |es|
  {
    hide TableInv, Step;
    if es != [] {
      StepInv(a, es[0]);
      SuccessIsRemembered(Step(a, es[0]), es[1..]);
    }
  }

  /** Once an update has succeeded, and until new settings are loaded, dealing with an error makes an
      agent that does not serve notifications fatal only for the codes that are fatal by themselves:
      however often it has failed, the default mechanism never gives it up. */
  lemma UpdatedAgentIsNeverGivenUp(a: Agent, es: seq<Event>, env: Env)
    requires Inv(a) && a.settings.updateOk && forall e :: e in es ==> !e.Resumed?
    ensures var b := Run(a, es);
      !IsEmn(b) && !b.state.FatalError? ==>
        && !HandleDefaultError(b, env).state.FatalError?
        && (ErrorHandled(b, env).state.FatalError? <==> b.error.ErrFatal? && !b.state.TimerWaitingForStart?)
  {
    SuccessIsRemembered(a, es);
    hide Inv, Run;
    var b := Run(a, es);
    if !IsEmn(b) && !b.state.FatalError? { DefaultIsNotFatal(b, env); }
    hide HandleDefaultError;
  }

  lemma DefaultIsNotFatal(a: Agent, env: Env)
    requires a.settings.updateOk && !IsEmn(a) && !a.state.FatalError?
    ensures !HandleDefaultError(a, env).state.FatalError?
  {}
}
