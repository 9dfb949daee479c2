/** The engine under the mail editor's long-running operations: run a state, complete, choose the next
    state, and in the end call back whoever started the operation. */
module BaseOp {

  const KErrNone: int := 0
  const KErrCancel: int := -3
  const KErrNoMemory: int := -4
  const KErrDiskFull: int := -26
  const KLeaveExit: int := -1003
  const KMaxTInt: int := 0x7FFFFFFF
  const EIdleState: nat := 0

  datatype Option<T> = None | Some(value: T)

  /** One of the two ways to be told of the end: an observer, or an external request status. */
  datatype Client = Observer | RequestStatus

  /** A callback: the number of the StartOp it answers, who is told, the code, and the state it was made in. */
  datatype Callback = Callback(start: nat, client: Client, code: int, state: nat)

  datatype Dialog = NoDialog | Open(callback: bool)

  /** started: how many StartOp calls there have been.  log: the callbacks made so far.
      panicked: the framework has stopped the thread. */
  datatype Op = Op(
    iState: nat, iObserver: Option<nat>, iExtRequestStatus: Option<nat>, iWaitingError: int,
    iWaitDialog: Dialog, active: bool, started: nat, log: seq<Callback>, panicked: bool)

  /** What the subclass and the platform do during one RunL.  code: how the request completed.
      handled, leaveHandled: HandleStateActionError's answer to that code and to a leave.  next:
      SetNextState's choice.  leave: the code HandleStateActionL leaves with.  note: a wait note is open after the
      action.  stays: a wait note told to finish is still open. */
  datatype Answers = Answers(code: int, handled: bool, next: nat, leave: Option<int>, leaveHandled: bool, note: bool, stays: bool)

  datatype Event =
    | StartOp(client: Client, stays: bool)
    | RunL(answers: Answers)
    | Cancel(stays: bool)
    | DialogCloses

  const New := Op(EIdleState, None, None, KMaxTInt, NoDialog, false, 0, [], false)

  // ---- the operation as a value -----------------------------------------------------------------

  function Calls(start: Option<nat>, client: Client, code: int, state: nat): seq<Callback> {
    match start
    case None => []
    case Some(n) => [Callback(n, client, code, state)]
  }

  function NotifyObservers(o: Op, code: int): Op {
    o.(log := o.log + Calls(o.iObserver, Observer, code, o.iState) + Calls(o.iExtRequestStatus, RequestStatus, code, o.iState),
       iObserver := None, iExtRequestStatus := None)
  }

  function CompleteOperation(o: Op, code: int, stays: bool): Op {
    var p := o.(iState := EIdleState);
    if p.iWaitDialog.Open? && stays then p.(iWaitDialog := Open(true), iWaitingError := code)
    else NotifyObservers(p.(iWaitDialog := NoDialog), code)
  }

  function RunError(o: Op, error: int, handled: bool, stays: bool): Op {
    if error == KLeaveExit then o
    else if error == KErrDiskFull || error == KErrNoMemory then CompleteOperation(o, KErrCancel, stays)
    else if handled then o
    else CompleteOperation(o, error, stays)
  }

  /** A RunL whose leave, if any, goes on to RunError. */
  function Run(o: Op, x: Answers): Op {
    var p := o.(active := false);
    if x.code != KErrNone && !x.handled then CompleteOperation(p, x.code, x.stays)
    else if p.iWaitingError <= KErrNone && p.iState == EIdleState then NotifyObservers(p, p.iWaitingError)
    else if x.next == EIdleState then CompleteOperation(p.(iState := x.next), KErrNone, x.stays)
    else
      var q := p.(iState := x.next,
                  iWaitDialog := if !x.note then NoDialog else if p.iWaitDialog.Open? then p.iWaitDialog else Open(false));
      match x.leave
      case None => q.(active := true)
      case Some(error) => RunError(q, error, x.leaveHandled, x.stays)
  }

  function Cancelled(o: Op, stays: bool): Op {
    if o.active then CompleteOperation(o.(active := false), KErrCancel, stays) else o
  }

  function Started(o: Op, client: Client, stays: bool): Op {
    var p := Cancelled(o, stays);
    var q := if client.Observer? then p.(iObserver := Some(o.started)) else p.(iExtRequestStatus := Some(o.started));
    q.(started := o.started + 1, active := true)
  }

  /** A wait note closes.  If its callback is set, the operation is activated; the framework does not
      let an active operation be activated again. */
  function DialogClosed(o: Op): Op {
    if o.iWaitDialog.NoDialog? then o
    else if !o.iWaitDialog.callback then o.(iWaitDialog := NoDialog)
    else o.(iWaitDialog := NoDialog, active := true, panicked := o.active)
  }

  function Step(o: Op, e: Event): Op {
    if o.panicked then o
    else
      match e
      case StartOp(client, stays) => Started(o, client, stays)
      case RunL(x) => if o.active then Run(o, x) else o
      case Cancel(stays) => Cancelled(o, stays)
      case DialogCloses => DialogClosed(o)
  }

  function Steps(o: Op, es: seq<Event>): Op
    decreases |es|
  {
    if es == [] then o else Steps(Step(o, es[0]), es[1..])
  }

  // ---- at most one callback -----------------------------------------------------------------------

  ghost predicate Waits(log: seq<Callback>, started: nat, client: Option<nat>) {
    client.Some? ==> client.value < started && forall c :: c in log ==> c.start != client.value
  }

  /** Callbacks answer distinct starts, are made in the idle state, and whoever still waits has not
      been called back. */
  ghost predicate LogInv(log: seq<Callback>, started: nat, observer: Option<nat>, status: Option<nat>) {
    && (forall i, j :: 0 <= i < j < |log| ==> log[i].start != log[j].start)
    && (forall c :: c in log ==> c.start < started && c.state == EIdleState)
    && Waits(log, started, observer) && Waits(log, started, status)
    && (observer.Some? ==> status != observer)
  }

  ghost predicate Inv(o: Op) { LogInv(o.log, o.started, o.iObserver, o.iExtRequestStatus) }

  lemma NotifyInv(o: Op, code: int)
    requires Inv(o) && o.iState == EIdleState
    ensures Inv(NotifyObservers(o, code))
  {}

  lemma NotifyKeeps(o: Op, code: int)
    ensures NotifyObservers(o, code).started == o.started
  {}

  lemma CompleteInv(o: Op, code: int, stays: bool)
    requires Inv(o)
    ensures Inv(CompleteOperation(o, code, stays)) && CompleteOperation(o, code, stays).started == o.started
  {
    hide NotifyObservers, LogInv;
    NotifyInv(o.(iState := EIdleState, iWaitDialog := NoDialog), code);
    NotifyKeeps(o.(iState := EIdleState, iWaitDialog := NoDialog), code);
  }

  lemma RunInv(o: Op, x: Answers)
    requires Inv(o)
    ensures Inv(Run(o, x))
  {
    hide LogInv, NotifyObservers, CompleteOperation;
    var p := o.(active := false);
    if p.iState == EIdleState { NotifyInv(p, p.iWaitingError); }
    CompleteInv(p, x.code, x.stays);
    CompleteInv(p.(iState := x.next), KErrNone, x.stays);
    var q := p.(iState := x.next,
                iWaitDialog := if !x.note then NoDialog else if p.iWaitDialog.Open? then p.iWaitDialog else Open(false));
    CompleteInv(q, KErrCancel, x.stays);
    if x.leave.Some? { CompleteInv(q, x.leave.value, x.stays); }
  }

  lemma StepInv(o: Op, e: Event)
    requires Inv(o)
    ensures Inv(Step(o, e))
  {
    hide CompleteOperation, Run;
    match e
    case StartOp(_, stays) => CompleteInv(o.(active := false), KErrCancel, stays);
    case RunL(x) => RunInv(o, x);
    case Cancel(stays) => CompleteInv(o.(active := false), KErrCancel, stays);
    case DialogCloses =>
  }

  lemma {:induction false} StepsInv(o: Op, es: seq<Event>)
    requires Inv(o)
    ensures Inv(Steps(o, es))
    decreases |es|
  {
    hide Inv, Step;
    if es != [] {
      StepInv(o, es[0]);
      StepsInv(Step(o, es[0]), es[1..]);
    }
  }

  /** Main result.  Over any interleaving of starts, runs, leaves, cancellations and wait notes
      closing, every StartOp is answered by at most one callback, and callbacks are made only in the
      idle state and only to starts that happened. */
  lemma AtMostOneCallback(es: seq<Event>)
    ensures var log := Steps(New, es).log;
      && (forall i, j :: 0 <= i < |log| && 0 <= j < |log| && log[i].start == log[j].start ==> i == j)
      && (forall i :: 0 <= i < |log| ==> log[i].state == EIdleState && log[i].start < Steps(New, es).started)
  {
    StepsInv(New, es);
    hide Steps;
  }

  // ---- exactly one callback in a first run ------------------------------------------------------------

  /** A run of an action leaves with KLeaveExit, or with a code that the subclass claims to have
      handled. */
  predicate Loses(o: Op, e: Event) {
    && e.RunL? && o.active && !o.panicked
    && (e.answers.code == KErrNone || e.answers.handled)
    && !(o.iWaitingError <= KErrNone && o.iState == EIdleState)
    && e.answers.next != EIdleState && e.answers.leave.Some?
    && (e.answers.leave.value == KLeaveExit ||
        (e.answers.leaveHandled && e.answers.leave.value != KErrDiskFull && e.answers.leave.value != KErrNoMemory))
  }

  predicate LosesIn(o: Op, es: seq<Event>)
    decreases |es|
  {
    es != [] && (Loses(o, es[0]) || LosesIn(Step(o, es[0]), es[1..]))
  }

  /** Codes are zero or negative. */
  predicate RealCodes(e: Event) {
    e.RunL? ==> e.answers.code <= KErrNone && (e.answers.leave.Some? ==> e.answers.leave.value <= KErrNone)
  }

  predicate FirstRunEvent(e: Event) { !e.StartOp? && RealCodes(e) }

  /** Nothing is on its way to the operation: no request, no callback from a wait note. */
  predicate Quiescent(o: Op) { !o.active && o.iWaitDialog != Open(true) }

  predicate OneClient(o: Op, client: Client) {
    if client.Observer? then o.iObserver == Some(0) && o.iExtRequestStatus.None?
    else o.iObserver.None? && o.iExtRequestStatus == Some(0)
  }

  /** The code, if any, with which the event ends a run that is on: zero when there is no next state, a
      completion or a leave that is not handled with its own code, and otherwise cancellation. */
  function EndCode(o: Op, e: Event): Option<int> {
    if !o.active || o.panicked then None
    else
      match e
      case StartOp(_, _) => None
      case DialogCloses => None
      case Cancel(_) => Some(KErrCancel)
      case RunL(x) =>
        if x.code != KErrNone && !x.handled then Some(x.code)
        else if o.iWaitingError <= KErrNone && o.iState == EIdleState then None
        else if x.next == EIdleState then Some(KErrNone)
        else if x.leave.None? || x.leave.value == KLeaveExit then None
        else if x.leave.value == KErrDiskFull || x.leave.value == KErrNoMemory then Some(KErrCancel)
        else if x.leaveHandled then None
        else Some(x.leave.value)
  }

  function Later(end: Option<int>, next: Option<int>): Option<int> { if next.Some? then next else end }

  /** The last code with which the events end the run. */
  function EndOf(o: Op, es: seq<Event>, end: Option<int>): Option<int>
    decreases |es|
  {
    if es == [] then end else EndOf(Step(o, es[0]), es[1..], Later(end, EndCode(o, es[0])))
  }

  /** The run goes on; or it has ended with the code end and waits for its wait note. */
  predicate Running(o: Op, client: Client, end: Option<int>) {
    && !o.panicked && o.log == [] && OneClient(o, client)
    && (o.active ==> o.iWaitDialog != Open(true))
    && (!o.active ==> o.iWaitDialog == Open(true) && end.Some?)
    && (if end.Some? then o.iState == EIdleState && o.iWaitingError == end.value <= KErrNone else o.iWaitingError > KErrNone)
  }

  predicate Done(o: Op, client: Client, code: int) {
    && Quiescent(o) && !o.panicked && o.log == [Callback(0, client, code, EIdleState)]
    && o.iObserver.None? && o.iExtRequestStatus.None?
  }

  predicate Lost(o: Op) { Quiescent(o) && !o.panicked && o.log == [] }

  /** The run is on, with no callback pending from a wait note. */
  predicate Acting(o: Op, client: Client) { !o.panicked && o.log == [] && OneClient(o, client) && o.iWaitDialog != Open(true) }

  /** The run has ended with this code: the client is told, or a wait note is waited for. */
  predicate Ended(o: Op, client: Client, code: int) { Running(o, client, Some(code)) || Done(o, client, code) }

  lemma CompleteFirst(o: Op, client: Client, code: int, stays: bool)
    requires Acting(o, client) && !o.active && code <= KErrNone
    ensures Ended(CompleteOperation(o, code, stays), client, code)
  {}

  lemma NotifyFirst(o: Op, client: Client, code: int)
    requires Acting(o, client) && !o.active && o.iState == EIdleState
    ensures Done(NotifyObservers(o, code), client, code)
  {}

  lemma RunErrorFirst(o: Op, client: Client, error: int, handled: bool, stays: bool)
    requires Acting(o, client) && !o.active && error <= KErrNone
    ensures var p := RunError(o, error, handled, stays);
      if error == KLeaveExit then p == o
      else if error == KErrDiskFull || error == KErrNoMemory then Ended(p, client, KErrCancel)
      else if handled then p == o
      else Ended(p, client, error)
  {
    CompleteFirst(o, client, KErrCancel, stays);
    CompleteFirst(o, client, error, stays);
    hide CompleteOperation, Ended;
  }

  lemma RunFirst(o: Op, x: Answers, client: Client, end: Option<int>)
    requires Running(o, client, end) && o.active && RealCodes(RunL(x))
    ensures Loses(o, RunL(x)) ==> Lost(Run(o, x)) && EndCode(o, RunL(x)).None?
    ensures !Loses(o, RunL(x)) ==>
      var last := Later(end, EndCode(o, RunL(x)));
      Running(Run(o, x), client, last) || (last.Some? && Done(Run(o, x), client, last.value))
  {
    hide CompleteOperation, NotifyObservers, RunError, Done;
    var p := o.(active := false);
    if x.code != KErrNone && !x.handled {
      CompleteFirst(p, client, x.code, x.stays);
    } else if p.iWaitingError <= KErrNone && p.iState == EIdleState {
      NotifyFirst(p, client, p.iWaitingError);
    } else if x.next == EIdleState {
      CompleteFirst(p.(iState := x.next), client, KErrNone, x.stays);
    } else {
      var q := p.(iState := x.next,
                  iWaitDialog := if !x.note then NoDialog else if p.iWaitDialog.Open? then p.iWaitDialog else Open(false));
      if x.leave.Some? { RunErrorFirst(q, client, x.leave.value, x.leaveHandled, x.stays); }
    }
  }

  lemma StepFirst(o: Op, e: Event, client: Client, end: Option<int>)
    requires FirstRunEvent(e)
    ensures var last := Later(end, EndCode(o, e));
      && (end.Some? && Done(o, client, end.value) ==> Done(Step(o, e), client, end.value) && last == end && !Loses(o, e))
      && (Lost(o) ==> Lost(Step(o, e)) && !Loses(o, e))
      && (Running(o, client, end) && Loses(o, e) ==> Lost(Step(o, e)))
      && (Running(o, client, end) && !Loses(o, e) ==>
            Running(Step(o, e), client, last) || (last.Some? && Done(Step(o, e), client, last.value)))
  {
    hide CompleteOperation, NotifyObservers, Run;
    if Running(o, client, end) && o.active {
      if e.RunL? { hide RealCodes; RunFirst(o, e.answers, client, end); }
      if e.Cancel? { CompleteFirst(o.(active := false), client, KErrCancel, e.stays); }
    }
  }

  lemma {:induction false} StepsFirst(o: Op, es: seq<Event>, client: Client, end: Option<int>)
    requires (end.Some? && Done(o, client, end.value)) || Lost(o) || Running(o, client, end)
    requires forall e :: e in es ==> FirstRunEvent(e)
    ensures var p := Steps(o, es); var last := EndOf(o, es, end);
      && (end.Some? && Done(o, client, end.value) ==> Done(p, client, end.value) && last == end && !LosesIn(o, es))
      && (Lost(o) ==> Lost(p) && !LosesIn(o, es))
      && (Running(o, client, end) && LosesIn(o, es) ==> Lost(p))
      && (Running(o, client, end) && !LosesIn(o, es) ==> Running(p, client, last) || (last.Some? && Done(p, client, last.value)))
    decreases |es|
  {
    hide Step, Done, Lost, Running, Loses, FirstRunEvent, EndCode, Later;
    if es != [] {
      StepFirst(o, es[0], client, end);
      StepsFirst(Step(o, es[0]), es[1..], client, Later(end, EndCode(o, es[0])));
    }
  }

  /** Main result.  Follow the first StartOp to the point where nothing is on its way to the
      operation any more, wait notes included.  If no action left with KLeaveExit or with a leave
      claimed as handled, exactly one callback has been made, to the client that started the operation,
      with the code that ended the run; if one did, there is none. */
  lemma FirstRunCallsBack(client: Client, stays: bool, es: seq<Event>)
    requires forall e :: e in es ==> FirstRunEvent(e)
    ensures var s := Step(New, StartOp(client, stays)); var o := Steps(s, es); var end := EndOf(s, es, None);
      Quiescent(o) ==>
        && (!LosesIn(s, es) <==> o.log != [])
        && (!LosesIn(s, es) ==> end.Some? && o.log == [Callback(0, client, end.value, EIdleState)])
  {
    var s := Step(New, StartOp(client, stays));
    assert Running(s, client, None);
    StepsFirst(s, es, client, None);
    hide Steps, LosesIn, EndOf;
  }

  /** A run step without an end, a leave or an old code enters the state that was chosen, and goes on. */
  lemma ChosenStateIsEntered(o: Op, x: Answers)
    requires o.active && !o.panicked && (x.code == KErrNone || x.handled) && x.next != EIdleState && x.leave.None?
    requires o.iState != EIdleState || o.iWaitingError > KErrNone
    ensures var p := Step(o, RunL(x)); p.iState == x.next && p.active && p.log == o.log && p.iWaitingError == o.iWaitingError
  {}

  /** The code of a run that ended behind a wait note is never forgotten: the next StartOp is called
      back with it at once, before any state has been entered. */
  lemma OldCodeAnswersNextStart(o: Op, client: Client, stays: bool, x: Answers)
    requires !o.panicked && !o.active && o.iState == EIdleState && o.iWaitingError <= KErrNone && x.code == KErrNone
    ensures var p := Step(Step(o, StartOp(client, stays)), RunL(x));
      Callback(o.started, client, o.iWaitingError, EIdleState) in p.log && !p.active && p.iState == EIdleState
  {
    var p := Step(o, StartOp(client, stays));
    var c := Callback(o.started, client, o.iWaitingError, EIdleState);
    assert c in Calls(p.iObserver, Observer, o.iWaitingError, EIdleState) + Calls(p.iExtRequestStatus, RequestStatus, o.iWaitingError, EIdleState);
  }

  /** A start of an idle operation enters its first state, as SetNextState chooses it, if and only if no
      code is kept from an earlier run. */
  lemma FirstStateIsEntered(o: Op, client: Client, stays: bool, x: Answers)
    requires !o.panicked && !o.active && o.iState == EIdleState
    requires x.code == KErrNone && x.next != EIdleState && x.leave.None?
    ensures Step(Step(o, StartOp(client, stays)), RunL(x)).iState == x.next <==> o.iWaitingError > KErrNone
  {}

  /** A state with an old code is reached: a wait note is opened by the first state, is still open when
      the operation completes, and then closes.  The client is called back, and the code is kept. */
  lemma OldCodeIsKept(client: Client, code: int)
    requires code < KErrNone
    ensures var o := Steps(New, WaitedRun(client, code));
      && !o.panicked && !o.active && o.iState == EIdleState && o.iWaitingError == code
      && o.log == [Callback(0, client, code, EIdleState)]
  {
    var es := WaitedRun(client, code);
    var o1 := Step(New, es[0]);
    var o2 := Step(o1, es[1]);
    var o3 := Step(o2, es[2]);
    var o4 := Step(o3, es[3]);
    var o5 := Step(o4, es[4]);
    assert o2.iState == 1 && o2.active && o2.iWaitDialog == Open(false) && o2.log == [];
    assert o3.iState == EIdleState && !o3.active && o3.iWaitDialog == Open(true) && o3.iWaitingError == code && o3.log == [];
    assert o4.active && o4.iWaitDialog == NoDialog && o4.iWaitingError == code;
    assert o5.log == [Callback(0, client, code, EIdleState)];
    hide Step;
    assert es[1..] == [es[1], es[2], es[3], es[4]] && es[1..][1..] == [es[2], es[3], es[4]];
    assert [es[2], es[3], es[4]][1..] == [es[3], es[4]] && [es[3], es[4]][1..] == [es[4]] && [es[4]][1..] == [];
    assert Steps(o4, [es[4]]) == o5;
    assert Steps(o3, [es[3], es[4]]) == Steps(o4, [es[4]]);
    assert Steps(o2, [es[2], es[3], es[4]]) == Steps(o3, [es[3], es[4]]);
    assert Steps(o1, es[1..]) == Steps(o2, [es[2], es[3], es[4]]);
  }

  /** A run whose wait note outlasts it. */
  function WaitedRun(client: Client, code: int): seq<Event> {
    [StartOp(client, false), RunL(Answers(KErrNone, false, 1, None, false, true, false)),
     RunL(Answers(code, false, 1, None, false, true, true)), DialogCloses,
     RunL(Answers(KErrNone, false, 1, None, false, false, false))]
  }

  lemma CompleteKeepsStarted(o: Op, code: int, stays: bool)
    ensures CompleteOperation(o, code, stays).started == o.started
  {}
}
