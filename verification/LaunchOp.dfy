/** Opening a mail in the editor: the launch operation runs the restore operation, which runs the two
    operations that restore attachments and attached messages. */
module LaunchOp {
  import opened RestoreAttachments

  datatype Option<T> = None | Some(value: T)

  /** How an operation is getting on.  Stalled: not finished, and nothing will run it again. */
  datatype Progress = Runs | Stalled | Finished(code: Code)

  /** A leave out of a state's action, as RunError tells them apart. */
  datatype Leave = ExitLeave | DiskOrMemoryLeave | OtherLeave(code: Code)

  const CancelCode := OtherError(-3)

  /** RunError.  handles: HandleStateActionError claims to have handled the leave. */
  function AfterLeave(l: Leave, handles: bool): Progress {
    match l
    case ExitLeave => Stalled
    case DiskOrMemoryLeave => Finished(CancelCode)
    case OtherLeave(code) => if handles then Stalled else Finished(code)
  }

  // ---- restoring the attachments -----------------------------------------------------------------

  datatype Attas = Attas(state: State, progress: Progress, all: nat, pass: Pass)

  function NewAttas(manager: seq<int>): Attas { Attas(Idle, Runs, 0, Begin(manager)) }

  /** What happens during one RunL: the action leaves, or it runs through. */
  datatype AttasAnswers = AttasAnswers(leave: Option<Leave>, visit: Answers)

  /** A leave out of the current action; an operation that finishes becomes idle. */
  function AttasLeave(a: Attas, l: Leave, handles: bool): Attas {
    var after := AfterLeave(l, handles);
    a.(progress := after, state := if after.Finished? then Idle else a.state)
  }

  /** HandleStateActionError on a leave before the child operation is started. */
  function Recorded(p: Pass, l: Leave): Pass {
    match l
    case ExitLeave => p
    case DiskOrMemoryLeave => p
    case OtherLeave(code) =>
      if code.NoPermission? then p.(drm := p.drm + 1, iIndex := p.iIndex - 1) else p.(invalid := p.invalid + 1)
  }

  function AttasRun(a: Attas, x: AttasAnswers): Attas
    requires 0 <= a.pass.iIndex
  {
    var next := match a.state
      case Idle => Initialize
      case Initialize => if |a.pass.document.manager| > 0 then RestoreAtta else Finalize
      case RestoreAtta => if Ended(a.pass) then Finalize else RestoreAtta
      case Finalize => Idle;
    var b := a.(state := next);
    match next
    case Idle => b.(progress := Finished(NoError))
    case Finalize => b
    case Initialize =>
      if x.leave.Some? then AttasLeave(b, x.leave.value, false)
      else b.(all := |a.pass.document.manager|, pass := Begin(a.pass.document.manager))
    case RestoreAtta =>
      if x.leave.Some? then AttasLeave(b.(pass := Recorded(b.pass, x.leave.value)), x.leave.value, true)
      else if Ended(b.pass) then b
      else b.(pass := Next(b.pass, x.visit))
  }

  // ---- restoring the attached messages ---------------------------------------------------------------

  datatype MsgsState = MsgsIdle | GetMsgDigestEntries | PrepareAddAttMsgs | AddAttMsgs

  /** entries: the attached messages.  added: those shown in the editor. */
  datatype Msgs = Msgs(
    state: MsgsState, progress: Progress, entries: seq<int>, iIndex: nat, invalid: nat, added: seq<int>)

  const NewMsgs := Msgs(MsgsIdle, Runs, [], 0, 0, [])

  /** code: how the request for the entries has completed. */
  datatype MsgsAnswers = MsgsAnswers(code: Code, entries: seq<int>, leave: Option<Leave>)

  function MsgsLeave(m: Msgs, l: Leave, handles: bool): Msgs {
    var after := AfterLeave(l, handles);
    m.(progress := after, state := if after.Finished? then MsgsIdle else m.state)
  }

  function MsgsRun(m: Msgs, x: MsgsAnswers): Msgs {
    if m.state.GetMsgDigestEntries? && !x.code.NoError? then m.(state := MsgsIdle, progress := Finished(x.code))
    else
      var next := match m.state
        case MsgsIdle => GetMsgDigestEntries
        case GetMsgDigestEntries => PrepareAddAttMsgs
        case PrepareAddAttMsgs => if m.iIndex < |m.entries| then AddAttMsgs else MsgsIdle
        case AddAttMsgs => if m.iIndex < |m.entries| then AddAttMsgs else MsgsIdle;
      var n := m.(state := next);
      match next
      case MsgsIdle => n.(progress := Finished(NoError))
      case GetMsgDigestEntries => if x.leave.Some? then MsgsLeave(n, x.leave.value, false) else n
      case PrepareAddAttMsgs =>
        if x.leave.Some? then MsgsLeave(n, x.leave.value, false)
        else n.(entries := x.entries, invalid := 0, iIndex := 0, added := [])
      case AddAttMsgs =>
        if x.leave.Some? then
          MsgsLeave(n.(invalid := n.invalid + (if x.leave.value.OtherLeave? then 1 else 0)), x.leave.value, true)
        else if n.iIndex < |n.entries| then n.(iIndex := n.iIndex + 1, added := n.added + [n.entries[n.iIndex]])
        else n
  }

  // ---- the two restore operations, one after the other ---------------------------------------------------

  datatype SuperState = SuperIdle | RestoreAttachments | RestoreAttachedMsgs

  datatype Super = Super(state: SuperState, progress: Progress, attas: Option<Attas>, msgs: Option<Msgs>)

  const NewSuper := Super(SuperIdle, Runs, None, None)

  /** manager: the attachments of the mail.  leave: creating the child operation leaves. */
  datatype SuperAnswers = SuperAnswers(manager: seq<int>, leave: Option<Leave>)

  /** The child operation of the current state has completed, with what code? */
  function SuperRequest(s: Super): Option<Code> {
    match s.state
    case SuperIdle => Some(NoError)
    case RestoreAttachments => if s.attas.Some? && s.attas.value.progress.Finished? then Some(s.attas.value.progress.code) else None
    case RestoreAttachedMsgs => if s.msgs.Some? && s.msgs.value.progress.Finished? then Some(s.msgs.value.progress.code) else None
  }

  function SuperLeave(s: Super, l: Leave): Super {
    var after := AfterLeave(l, false);
    s.(progress := after, state := if after.Finished? then SuperIdle else s.state)
  }

  function SuperRun(s: Super, code: Code, x: SuperAnswers): Super {
    if !code.NoError? then s.(state := SuperIdle, progress := Finished(code))
    else
      match s.state
      case SuperIdle =>
        var t := s.(state := RestoreAttachments, attas := None);
        if x.leave.Some? then SuperLeave(t, x.leave.value) else t.(attas := Some(NewAttas(x.manager)))
      case RestoreAttachments =>
        var t := s.(state := RestoreAttachedMsgs, msgs := None);
        if x.leave.Some? then SuperLeave(t, x.leave.value) else t.(msgs := Some(NewMsgs))
      case RestoreAttachedMsgs => s.(state := SuperIdle, progress := Finished(NoError))
  }

  // ---- the launch -------------------------------------------------------------------------------------------

  datatype LaunchState =
    | LaunchIdle | InitLaunch | RestoreBody | ConvertLineBreaks | RestoreAllAttas | ExecuteView | FinalizeLaunch

  datatype Launch = Launch(state: LaunchState, progress: Progress, super: Option<Super>)

  const NewLaunch := Launch(LaunchIdle, Stalled, None)

  /** body: how reading the body text has completed. */
  datatype LaunchAnswers = LaunchAnswers(body: Code, leave: Option<Leave>)

  function LaunchRequest(l: Launch, x: LaunchAnswers): Option<Code> {
    match l.state
    case RestoreBody => Some(x.body)
    case RestoreAllAttas => if l.super.Some? && l.super.value.progress.Finished? then Some(l.super.value.progress.code) else None
    case _ => Some(NoError)
  }

  function LaunchRun(l: Launch, code: Code, x: LaunchAnswers): Launch {
    if !code.NoError? then l.(state := LaunchIdle, progress := Finished(code))
    else
      var next := match l.state
        case LaunchIdle => InitLaunch
        case InitLaunch => RestoreBody
        case RestoreBody => ConvertLineBreaks
        case ConvertLineBreaks => RestoreAllAttas
        case RestoreAllAttas => ExecuteView
        case ExecuteView => FinalizeLaunch
        case FinalizeLaunch => LaunchIdle;
      var m := l.(state := next, super := if next.RestoreAllAttas? then None else l.super);
      if next.LaunchIdle? then m.(progress := Finished(NoError))
      else if x.leave.Some? then
        var after := AfterLeave(x.leave.value, false);
        m.(progress := after, state := if after.Finished? then LaunchIdle else next)
      else if next.RestoreAllAttas? then m.(super := Some(NewSuper))
      else m
  }

  // ---- all four together ---------------------------------------------------------------------------------------

  /** One operation's RunL, or the launch being started or cancelled. */
  datatype Event =
    | LaunchStarts
    | LaunchCancelled
    | LaunchRuns(launch: LaunchAnswers)
    | SuperRuns(super: SuperAnswers)
    | AttasRuns(attas: AttasAnswers)
    | MsgsRuns(msgs: MsgsAnswers)

  function StepAttas(s: Super, x: AttasAnswers): Super {
    if s.attas.Some? && s.attas.value.progress.Runs? && 0 <= s.attas.value.pass.iIndex
    then s.(attas := Some(AttasRun(s.attas.value, x))) else s
  }

  function StepMsgs(s: Super, x: MsgsAnswers): Super {
    if s.msgs.Some? && s.msgs.value.progress.Runs? then s.(msgs := Some(MsgsRun(s.msgs.value, x))) else s
  }

  function StepSuper(s: Super, x: SuperAnswers): Super {
    if s.progress.Runs? && SuperRequest(s).Some? then SuperRun(s, SuperRequest(s).value, x) else s
  }

  /** An operation is started only when idle, as StartOp asserts; cancelling a launch that is running
      deletes its child. */
  function Step(l: Launch, e: Event): Launch {
    match e
    case LaunchStarts => if l.state.LaunchIdle? then l.(progress := Runs) else l
    case LaunchCancelled =>
      if l.progress.Runs? then Launch(LaunchIdle, Finished(CancelCode), None) else l
    case LaunchRuns(x) =>
      if l.progress.Runs? && LaunchRequest(l, x).Some? then LaunchRun(l, LaunchRequest(l, x).value, x) else l
    case SuperRuns(x) => if l.super.Some? then l.(super := Some(StepSuper(l.super.value, x))) else l
    case AttasRuns(x) => if l.super.Some? then l.(super := Some(StepAttas(l.super.value, x))) else l
    case MsgsRuns(x) => if l.super.Some? then l.(super := Some(StepMsgs(l.super.value, x))) else l
  }

  function Steps(l: Launch, es: seq<Event>): Launch
    decreases |es|
  {
    if es == [] then l else Steps(Step(l, es[0]), es[1..])
  }

  // ---- invariants ----------------------------------------------------------------------------------------------------

  /** Conservation at every moment: what is not yet visited is still to be shared out. */
  predicate AttasInv(a: Attas) {
    && (!a.progress.Stalled? ==> 0 <= a.pass.iIndex <= |a.pass.document.manager|)
    && (a.progress == Finished(NoError) || (a.progress.Runs? && !a.state.Idle?) ==>
          a.all == |a.pass.document.model| + a.pass.drm + a.pass.invalid + |a.pass.document.manager| - a.pass.iIndex)
    && (a.progress == Finished(NoError) || (a.progress.Runs? && a.state.Finalize?) ==> Ended(a.pass))
  }

  /** As long as the operation is not stuck, no attached message has been found invalid. */
  predicate MsgsInv(m: Msgs) {
    && (m.progress == Finished(NoError) || (m.progress.Runs? && (m.state.PrepareAddAttMsgs? || m.state.AddAttMsgs?)) ==>
          m.invalid == 0 && m.iIndex <= |m.entries| && m.added == m.entries[..m.iIndex])
    && (m.progress == Finished(NoError) ==> m.iIndex == |m.entries|)
  }

  predicate AttasDone(a: Option<Attas>) { a.Some? && a.value.progress == Finished(NoError) && AttasInv(a.value) }

  predicate MsgsDone(m: Option<Msgs>) { m.Some? && m.value.progress == Finished(NoError) && MsgsInv(m.value) }

  predicate SuperInv(s: Super) {
    && (s.attas.Some? ==> AttasInv(s.attas.value)) && (s.msgs.Some? ==> MsgsInv(s.msgs.value))
    && (s.state.RestoreAttachedMsgs? ==> AttasDone(s.attas))
    && (s.progress == Finished(NoError) ==> AttasDone(s.attas) && MsgsDone(s.msgs))
  }

  predicate LaunchInv(l: Launch) {
    && (l.super.Some? ==> SuperInv(l.super.value))
    && (l.state.ExecuteView? || l.state.FinalizeLaunch? ==> l.super.Some? && l.super.value.progress == Finished(NoError))
  }

  /** The platform's codes: a failure is not "no error", and only a removal is reported as one. */
  predicate RealLeave(l: Option<Leave>) { l.Some? && l.value.OtherLeave? ==> !l.value.code.NoError? }

  predicate Real(e: Event) {
    match e
    case LaunchStarts => true
    case LaunchCancelled => true
    case LaunchRuns(x) => RealLeave(x.leave)
    case SuperRuns(x) => RealLeave(x.leave)
    case AttasRuns(x) => RealLeave(x.leave) && Honest(x.visit)
    case MsgsRuns(x) => RealLeave(x.leave)
  }

  lemma VisitConserves(p: Pass, x: Answers)
    requires 0 <= p.iIndex && !Ended(p) && Honest(x)
    ensures var q := Next(p, x);
      && 0 <= q.iIndex <= |q.document.manager|
      && |q.document.model| + q.drm + q.invalid + |q.document.manager| - q.iIndex
         == |p.document.model| + p.drm + p.invalid + |p.document.manager| - p.iIndex
  {}

  lemma AttasRunInv(a: Attas, x: AttasAnswers)
    requires AttasInv(a) && a.progress.Runs? && RealLeave(x.leave) && Honest(x.visit)
    ensures AttasInv(AttasRun(a, x))
  {
    if !Ended(a.pass) { VisitConserves(a.pass, x.visit); }
    hide Next, Honest;
  }

  lemma MsgsRunInv(m: Msgs, x: MsgsAnswers)
    requires MsgsInv(m) && m.progress.Runs? && RealLeave(x.leave)
    ensures MsgsInv(MsgsRun(m, x))
  {}

  lemma SuperRunInv(s: Super, x: SuperAnswers)
    requires SuperInv(s) && RealLeave(x.leave)
    ensures SuperInv(StepSuper(s, x))
  {
    assert AttasInv(NewAttas(x.manager)) && MsgsInv(NewMsgs);
    hide AttasInv, MsgsInv;
  }

  lemma ChildRunInv(s: Super, x: AttasAnswers, y: MsgsAnswers)
    requires SuperInv(s) && RealLeave(x.leave) && Honest(x.visit) && RealLeave(y.leave)
    ensures SuperInv(StepAttas(s, x)) && SuperInv(StepMsgs(s, y))
  {
    if s.attas.Some? && s.attas.value.progress.Runs? { AttasRunInv(s.attas.value, x); }
    if s.msgs.Some? && s.msgs.value.progress.Runs? { MsgsRunInv(s.msgs.value, y); }
    hide AttasInv, MsgsInv, AttasRun, MsgsRun, Honest;
  }

  lemma ChildRunKeepsFinished(s: Super, x: SuperAnswers, y: AttasAnswers, z: MsgsAnswers)
    ensures s.progress.Finished? ==> StepSuper(s, x).progress == s.progress
    ensures StepAttas(s, y).progress == s.progress && StepMsgs(s, z).progress == s.progress
  {}

  lemma StepInv(l: Launch, e: Event)
    requires LaunchInv(l) && Real(e)
    ensures LaunchInv(Step(l, e))
  {
    var none := AttasAnswers(None, Answers(NoError, NoError, NoError, false, NoError, NoError));
    var nothing := MsgsAnswers(NoError, [], None);
    if l.super.Some? {
      var s := l.super.value;
      match e
      case SuperRuns(x) =>
        SuperRunInv(s, x);
        ChildRunKeepsFinished(s, x, none, nothing);
      case AttasRuns(x) =>
        ChildRunInv(s, x, nothing);
        ChildRunKeepsFinished(s, SuperAnswers([], None), x, nothing);
      case MsgsRuns(x) =>
        ChildRunInv(s, none, x);
        ChildRunKeepsFinished(s, SuperAnswers([], None), none, x);
      case _ =>
    }
    assert SuperInv(NewSuper);
    hide SuperInv, StepSuper, StepAttas, StepMsgs;
  }

  lemma {:induction false} StepsInv(l: Launch, es: seq<Event>)
    requires LaunchInv(l) && forall e :: e in es ==> Real(e)
    ensures LaunchInv(Steps(l, es))
    decreases |es|
  {
    hide LaunchInv, Step, Real;
    if es != [] {
      StepInv(l, es[0]);
      StepsInv(Step(l, es[0]), es[1..]);
    }
  }

  // ---- the order of the launch ------------------------------------------------------------------------------------

  function Rank(s: LaunchState): nat {
    match s
    case LaunchIdle => 0
    case InitLaunch => 1
    case RestoreBody => 2
    case ConvertLineBreaks => 3
    case RestoreAllAttas => 4
    case ExecuteView => 5
    case FinalizeLaunch => 6
  }

  /** A launch goes through its states one by one, or back to being idle. */
  lemma LaunchNeverSkips(l: Launch, e: Event)
    ensures var m := Step(l, e); Rank(m.state) == Rank(l.state) || Rank(m.state) == Rank(l.state) + 1 || m.state.LaunchIdle?
  {}

  /** Main result: a launch in its final state has been in each of the states before it. */
  lemma {:induction false} LaunchWasEverywhere(l: Launch, es: seq<Event>, r: nat)
    requires Rank(l.state) <= r <= Rank(Steps(l, es).state)
    ensures exists k: nat :: k <= |es| && Rank(Steps(l, es[..k]).state) == r
    decreases |es|
  {
    if Rank(l.state) == r || es == [] {
      assert es[..0] == [] && Steps(l, es[..0]) == l;
    } else {
      var m := Step(l, es[0]);
      LaunchNeverSkips(l, es[0]);
      hide Step;
      LaunchWasEverywhere(m, es[1..], r);
      var k: nat :| k <= |es[1..]| && Rank(Steps(m, es[1..][..k]).state) == r;
      assert es[..k + 1][1..] == es[1..][..k] && es[..k + 1][0] == es[0];
      assert Steps(l, es[..k + 1]) == Steps(m, es[1..][..k]);
    }
  }

  /** A failure ends the operation that waits for it, with the same code, level by level: the restore of
      attachments or messages ends the restore operation, and that or the body ends the launch. */
  lemma FailuresPropagate(l: Launch, s: Super, code: Code, x: LaunchAnswers, y: SuperAnswers)
    requires !code.NoError?
    ensures l.state.RestoreBody? && l.progress.Runs? && x.body == code ==>
      Step(l, LaunchRuns(x)) == l.(state := LaunchIdle, progress := Finished(code))
    ensures l.state.RestoreAllAttas? && l.progress.Runs? && l.super == Some(s) && s.progress == Finished(code) ==>
      Step(l, LaunchRuns(x)) == l.(state := LaunchIdle, progress := Finished(code))
    ensures l.super == Some(s) && s.progress.Runs? && s.state.RestoreAttachments? && s.attas.Some? && s.attas.value.progress == Finished(code) ==>
      Step(l, SuperRuns(y)) == l.(super := Some(s.(state := SuperIdle, progress := Finished(code))))
    ensures l.super == Some(s) && s.progress.Runs? && s.state.RestoreAttachedMsgs? && s.msgs.Some? && s.msgs.value.progress == Finished(code) ==>
      Step(l, SuperRuns(y)) == l.(super := Some(s.(state := SuperIdle, progress := Finished(code))))
  {}

  // ---- the note at the end ----------------------------------------------------------------------------------------------

  datatype Note = NoNote | OneInvalid | TheOnlyOneInvalid | FewInvalid | AllInvalid

  function NoteIfInvalidAtta(all: nat, invalid: nat): Note {
    match invalid
    case 0 => NoNote
    case 1 => if all != invalid then OneInvalid else TheOnlyOneInvalid
    case _ => if all != invalid then FewInvalid else AllInvalid
  }

  predicate BothPresent(s: Super) { s.attas.Some? && s.msgs.Some? }

  /** The counts that FinalizeL adds up, and the two that it does not look at. */
  function CountAll(s: Super): nat
    requires BothPresent(s)
  {
    s.attas.value.all + |s.msgs.value.entries|
  }

  function CountInvalid(s: Super): nat
    requires BothPresent(s)
  {
    s.attas.value.pass.invalid + s.msgs.value.invalid
  }

  function CountGood(s: Super): nat
    requires BothPresent(s)
  {
    |s.attas.value.pass.document.model| + |s.msgs.value.added|
  }

  function CountRemoved(s: Super): nat
    requires BothPresent(s)
  {
    s.attas.value.pass.drm
  }

  /** Main result.  A launch that reaches its final state, over any interleaving of the four
      operations with leaves, failures and cancellations, has both restore operations, both finished
      without error; every attachment and attached message is accounted for; and the note says that
      all are invalid, in its wording for one or for many, exactly when there is something and nothing
      is good or removed.  So with a removed attachment it never says so, even when none is good. */
  lemma LaunchReachesFinalState(es: seq<Event>)
    requires (forall e :: e in es ==> Real(e)) && Steps(NewLaunch, es).state.FinalizeLaunch?
    ensures var l := Steps(NewLaunch, es);
      && l.super.Some? && BothPresent(l.super.value)
      && var s := l.super.value; var note := NoteIfInvalidAtta(CountAll(s), CountInvalid(s));
         && s.attas.value.progress == Finished(NoError) && s.msgs.value.progress == Finished(NoError)
         && s.msgs.value.added == s.msgs.value.entries && s.msgs.value.invalid == 0
         && CountAll(s) == CountGood(s) + CountRemoved(s) + CountInvalid(s)
         && (note.AllInvalid? || note.TheOnlyOneInvalid? <==> CountAll(s) > 0 && CountGood(s) == 0 && CountRemoved(s) == 0)
         && (note.NoNote? <==> CountAll(s) == CountGood(s) + CountRemoved(s))
         && (note.OneInvalid? || note.TheOnlyOneInvalid? <==> CountInvalid(s) == 1)
         && (note.FewInvalid? || note.AllInvalid? <==> CountInvalid(s) > 1)
  {
    StepsInv(NewLaunch, es);
    hide Steps;
  }

  lemma {:induction false} StepsAppend(l: Launch, xs: seq<Event>, ys: seq<Event>)
    ensures Steps(l, xs + ys) == Steps(Steps(l, xs), ys)
    decreases |xs|
  {
    if xs == [] {
      assert xs + ys == ys;
    } else {
      assert (xs + ys)[1..] == xs[1..] + ys;
      StepsAppend(Step(l, xs[0]), xs[1..], ys);
    }
  }

  // ---- runs that reach the final state ----------------------------------------------------------------------------------

  predicate AllReal(es: seq<Event>) { forall e :: e in es ==> Real(e) }

  lemma FourSteps(l: Launch, a: Event, b: Event, c: Event, d: Event)
    ensures Steps(l, [a, b, c, d]) == Step(Step(Step(Step(l, a), b), c), d)
  {
    hide Step;
    var m := Step(l, a);
    var n := Step(m, b);
    var o := Step(n, c);
    assert [a, b, c, d][1..] == [b, c, d] && [b, c, d][1..] == [c, d] && [c, d][1..] == [d] && [d][1..] == [];
    assert Steps(o, [d]) == Step(o, d);
    assert Steps(n, [c, d]) == Steps(o, [d]);
    assert Steps(m, [b, c, d]) == Steps(n, [c, d]);
  }

  const LaunchGoesOn := LaunchRuns(LaunchAnswers(NoError, None))
  const MsgsGoOn := MsgsRuns(MsgsAnswers(NoError, [], None))

  function SuperGoesOn(manager: seq<int>): Event { SuperRuns(SuperAnswers(manager, None)) }

  function AttaVisited(x: Answers): Event { AttasRuns(AttasAnswers(None, x)) }

  /** The launch while the attachments of m are being restored. */
  function Restoring(a: Attas): Launch { Launch(RestoreAllAttas, Runs, Some(Super(RestoreAttachments, Runs, Some(a), None))) }

  /** The same when the attached messages, of which there are none, come next. */
  function Messaging(a: Attas, n: Msgs): Launch {
    Launch(RestoreAllAttas, Runs, Some(Super(RestoreAttachedMsgs, Runs, Some(a), Some(n))))
  }

  function AtVisit(m: seq<int>, xs: nat -> Answers, k: nat): Attas {
    Attas(if k == 0 then Initialize else RestoreAtta, Runs, |m|, After(m, xs, k))
  }

  function Visits(xs: nat -> Answers, k: nat): seq<Event> {
    if k == 0 then [] else Visits(xs, k - 1) + [AttaVisited(xs(k - 1))]
  }

  lemma {:induction false} StepsLast(l: Launch, es: seq<Event>, e: Event)
    ensures Steps(l, es + [e]) == Step(Steps(l, es), e)
  {
    hide Step;
    StepsAppend(l, es, [e]);
    var m := Steps(l, es);
    assert [e][1..] == [] && Steps(Step(m, e), []) == Step(m, e);
  }

  lemma LaunchBegins(m: seq<int>, x: Answers)
    ensures Step(Step(Step(Step(NewLaunch, LaunchStarts), LaunchGoesOn), LaunchGoesOn), LaunchGoesOn)
      == Launch(ConvertLineBreaks, Runs, None)
    ensures Step(Step(Step(Launch(ConvertLineBreaks, Runs, None), LaunchGoesOn), SuperGoesOn(m)), AttaVisited(x))
      == Restoring(Attas(Initialize, Runs, |m|, Begin(m)))
  {}

  lemma VisitStep(m: seq<int>, xs: nat -> Answers, k: nat)
    requires k < |m| && AllHonest(xs, |m|)
    ensures Step(Restoring(AtVisit(m, xs, k)), AttaVisited(xs(k))) == Restoring(AtVisit(m, xs, k + 1))
  {
    EveryAttachmentIsVisitedOnce(m, xs, k);
    assert After(m, xs, k + 1) == Next(After(m, xs, k), xs(k));
    assert k == 0 ==> After(m, xs, 0) == Begin(m);
    hide After, Next;
  }

  lemma {:induction false} VisitSteps(m: seq<int>, xs: nat -> Answers, k: nat)
    requires k <= |m| && AllHonest(xs, |m|)
    ensures Steps(Restoring(AtVisit(m, xs, 0)), Visits(xs, k)) == Restoring(AtVisit(m, xs, k))
    ensures AllReal(Visits(xs, k))
  {
    if k > 0 {
      VisitSteps(m, xs, k - 1);
      VisitStep(m, xs, k - 1);
      hide Step, Steps, AtVisit, Restoring;
      StepsLast(Restoring(AtVisit(m, xs, 0)), Visits(xs, k - 1), AttaVisited(xs(k - 1)));
      assert Honest(xs(k - 1));
    }
  }

  /** All attachments visited: the restore operations end, and so does the launch. */
  lemma LaunchEnds(m: seq<int>, xs: nat -> Answers, x: Answers)
    requires AllHonest(xs, |m|)
    ensures var a := AtVisit(m, xs, |m|); var done := a.(state := Idle, progress := Finished(NoError));
      && Step(Step(Step(Step(Restoring(a), AttaVisited(x)), AttaVisited(x)), SuperGoesOn([])), MsgsGoOn)
         == Messaging(done, NewMsgs.(state := GetMsgDigestEntries))
      && var n := Step(Step(Step(Step(Messaging(done, NewMsgs.(state := GetMsgDigestEntries)), MsgsGoOn), MsgsGoOn), SuperGoesOn([])), LaunchGoesOn);
         n == Launch(ExecuteView, Runs,
                Some(Super(SuperIdle, Finished(NoError), Some(done), Some(NewMsgs.(progress := Finished(NoError))))))
         && Step(n, LaunchGoesOn) == n.(state := FinalizeLaunch)
  {
    EveryAttachmentIsVisitedOnce(m, xs, |m|);
    var p := After(m, xs, |m|);
    assert m == [] ==> p.document.manager == [];
    hide After;
    EndsAttas(m, p, x);
    EndsMsgs(AtVisit(m, xs, |m|).(state := Idle, progress := Finished(NoError)));
  }

  lemma EndsAttas(m: seq<int>, p: Pass, x: Answers)
    requires Ended(p) && p.iIndex >= 0 && (m == [] ==> p.document.manager == [])
    ensures var a := Attas(if |m| == 0 then Initialize else RestoreAtta, Runs, |m|, p);
      Step(Step(Step(Step(Restoring(a), AttaVisited(x)), AttaVisited(x)), SuperGoesOn([])), MsgsGoOn)
      == Messaging(a.(state := Idle, progress := Finished(NoError)), NewMsgs.(state := GetMsgDigestEntries))
  {
    var a := Attas(if |m| == 0 then Initialize else RestoreAtta, Runs, |m|, p);
    assert Step(Restoring(a), AttaVisited(x)) == Restoring(a.(state := Finalize));
    assert Step(Restoring(a.(state := Finalize)), AttaVisited(x)) == Restoring(a.(state := Idle, progress := Finished(NoError)));
  }

  lemma EndsMsgs(done: Attas)
    requires done.progress == Finished(NoError)
    ensures var n := Step(Step(Step(Step(Messaging(done, NewMsgs.(state := GetMsgDigestEntries)), MsgsGoOn), MsgsGoOn), SuperGoesOn([])), LaunchGoesOn);
      n == Launch(ExecuteView, Runs,
             Some(Super(SuperIdle, Finished(NoError), Some(done), Some(NewMsgs.(progress := Finished(NoError))))))
      && Step(n, LaunchGoesOn) == n.(state := FinalizeLaunch)
  {}

  lemma OpeningRun(m: seq<int>, xs: nat -> Answers)
    ensures Steps(NewLaunch, Opening + Creating(m)) == Restoring(AtVisit(m, xs, 0))
    ensures AllReal(Opening) && AllReal(Creating(m))
  {
    LaunchBegins(m, Fine);
    assert AtVisit(m, xs, 0) == Attas(Initialize, Runs, |m|, Begin(m));
    hide Step, Steps, Restoring, AtVisit, NewLaunch;
    FourSteps(NewLaunch, LaunchStarts, LaunchGoesOn, LaunchGoesOn, LaunchGoesOn);
    ThreeSteps(Launch(ConvertLineBreaks, Runs, None), LaunchGoesOn, SuperGoesOn(m), AttaVisited(Fine));
    StepsAppend(NewLaunch, Opening, Creating(m));
  }

  lemma ClosingRun(m: seq<int>, xs: nat -> Answers)
    requires AllHonest(xs, |m|)
    ensures Steps(Restoring(AtVisit(m, xs, |m|)), Closing + Ending + [LaunchGoesOn])
      == Launch(FinalizeLaunch, Runs,
           Some(Super(SuperIdle, Finished(NoError), Some(AtVisit(m, xs, |m|).(state := Idle, progress := Finished(NoError))),
                      Some(NewMsgs.(progress := Finished(NoError))))))
    ensures AllReal(Closing) && AllReal(Ending) && AllReal([LaunchGoesOn])
  {
    LaunchEnds(m, xs, Fine);
    var a := AtVisit(m, xs, |m|);
    var mid := Messaging(a.(state := Idle, progress := Finished(NoError)), NewMsgs.(state := GetMsgDigestEntries));
    hide Step, Steps, Restoring, Messaging, After;
    FourSteps(Restoring(a), AttaVisited(Fine), AttaVisited(Fine), SuperGoesOn([]), MsgsGoOn);
    FourSteps(mid, MsgsGoOn, MsgsGoOn, SuperGoesOn([]), LaunchGoesOn);
    StepsAppend(Restoring(a), Closing, Ending);
    StepsLast(Restoring(a), Closing + Ending, LaunchGoesOn);
  }

  lemma AllRealAppend(es: seq<Event>, fs: seq<Event>)
    requires AllReal(es) && AllReal(fs)
    ensures AllReal(es + fs)
  {
    hide Real;
  }

  /** Whatever the mail's attachments are and whatever becomes of each, the final state is reached by
      a run, with exactly the outcome of the restore pass. */
  lemma LaunchCanReachFinalState(m: seq<int>, xs: nat -> Answers)
    requires AllHonest(xs, |m|)
    ensures var es := LaunchOf(m, xs); var l := Steps(NewLaunch, es);
      && AllReal(es) && l.state.FinalizeLaunch? && l.super.Some? && BothPresent(l.super.value)
      && l.super.value.attas.value.all == |m| && l.super.value.attas.value.pass == After(m, xs, |m|)
      && l.super.value.msgs.value.entries == []
  {
    OpeningRun(m, xs);
    VisitSteps(m, xs, |m|);
    ClosingRun(m, xs);
    hide Steps, NewLaunch, AllReal, After, Opening, Creating, Closing, Ending, LaunchGoesOn, Restoring;
    StepsAppend(NewLaunch, Opening + Creating(m), Visits(xs, |m|));
    StepsAppend(NewLaunch, Opening + Creating(m) + Visits(xs, |m|), Closing + Ending + [LaunchGoesOn]);
    AllRealAppend(Opening, Creating(m));
    AllRealAppend(Opening + Creating(m), Visits(xs, |m|));
    AllRealAppend(Closing, Ending);
    AllRealAppend(Closing + Ending, [LaunchGoesOn]);
    AllRealAppend(Opening + Creating(m) + Visits(xs, |m|), Closing + Ending + [LaunchGoesOn]);
  }

  const Fine := Answers(NoError, NoError, NoError, false, NoError, NoError)
  const Opening := [LaunchStarts, LaunchGoesOn, LaunchGoesOn, LaunchGoesOn]
  const Closing := [AttaVisited(Fine), AttaVisited(Fine), SuperGoesOn([]), MsgsGoOn]
  const Ending := [MsgsGoOn, MsgsGoOn, SuperGoesOn([]), LaunchGoesOn]

  function Creating(m: seq<int>): seq<Event> { [LaunchGoesOn, SuperGoesOn(m), AttaVisited(Fine)] }

  function LaunchOf(m: seq<int>, xs: nat -> Answers): seq<Event> {
    Opening + Creating(m) + Visits(xs, |m|) + (Closing + Ending + [LaunchGoesOn])
  }

  lemma ThreeSteps(l: Launch, a: Event, b: Event, c: Event)
    ensures Steps(l, [a, b, c]) == Step(Step(Step(l, a), b), c)
  {
    hide Step;
    var m := Step(l, a);
    var n := Step(m, b);
    assert [a, b, c][1..] == [b, c] && [b, c][1..] == [c] && [c][1..] == [];
    assert Steps(n, [c]) == Step(n, c);
    assert Steps(m, [b, c]) == Steps(n, [c]);
  }

  // ---- the note with and without a removed attachment --------------------------------------------------------------------

  const Broken := Fine.(add := OtherError(-20))
  const Locked := Fine.(locked := true)

  /** The first so many attachments are removed, the others are invalid. */
  function NoneGood(removed: nat): nat -> Answers { (k: nat) => if k < removed then Locked else Broken }

  lemma {:induction false} NoneGoodFates(m: seq<int>, removed: nat, k: nat)
    requires k <= |m|
    ensures AllHonest(NoneGood(removed), k)
    ensures Those(m, NoneGood(removed), k, Good) == []
    ensures |Those(m, NoneGood(removed), k, Removed)| == if k < removed then k else removed
  {
    if k > 0 { NoneGoodFates(m, removed, k - 1); }
  }

  /** A mail with n attachments of which the first r are removed and the others invalid: none is good,
      and the launch reaches its final state.  With two or more invalid ones the note says that all
      are invalid if none is removed, and that few are if one is. */
  lemma NoneGoodButNotAllInvalid(m: seq<int>, r: nat)
    requires r + 2 <= |m|
    ensures var es := LaunchOf(m, NoneGood(r)); var l := Steps(NewLaunch, es);
      && AllReal(es) && l.state.FinalizeLaunch? && l.super.Some? && BothPresent(l.super.value)
      && var s := l.super.value;
         && CountAll(s) == |m| && CountGood(s) == 0 && CountRemoved(s) == r && CountInvalid(s) == |m| - r
         && NoteIfInvalidAtta(CountAll(s), CountInvalid(s)) == if r == 0 then AllInvalid else FewInvalid
  {
    NoneGoodFates(m, r, |m|);
    LaunchCanReachFinalState(m, NoneGood(r));
    AfterVisits(m, NoneGood(r), |m|);
    AttachmentsAreConserved(m, NoneGood(r));
    hide Those, After, LaunchOf, AllReal;
    LaunchReachesFinalState(LaunchOf(m, NoneGood(r)));
  }
}
