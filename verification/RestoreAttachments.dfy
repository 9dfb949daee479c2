/** Restoring the attachments of a mail: a pass over a list that shrinks while it is walked. */
module RestoreAttachments {

  /** How an operation ends.  NoPermission is the code that says an attachment was removed for
      digital rights reasons. */
  datatype Code = NoError | NoPermission | OtherError(code: int)

  /** The document: the attachment manager's list, and the list shown in the editor. */
  datatype Document = Document(manager: seq<int>, model: seq<int>)

  /** The platform's answers during one visit.  mime, update and drm: reading the attachment,
      storing its type, reading its rights.  locked: the attachment may not be forwarded.  remove: the removal, as
      a leave or on completion.  add: adding to the model. */
  datatype Answers = Answers(mime: Code, update: Code, drm: Code, locked: bool, remove: Code, add: Code)

  datatype Visit = Visit(document: Document, code: Code)

  function Without(s: seq<int>, k: nat): seq<int>
    requires k < |s|
  {
    s[..k] + s[k + 1..]
  }

  /** The operation on one attachment: check its MIME type, check its rights, finalize. */
  function RestoreOne(d: Document, k: nat, x: Answers): Visit
    requires k < |d.manager|
  {
    if !x.mime.NoError? then Visit(d, x.mime)
    else if !x.update.NoError? then Visit(d, x.update)
    else if !x.drm.NoError? then Visit(d, x.drm)
    else if x.locked then
      if !x.remove.NoError? then Visit(d, x.remove)
      else Visit(d.(manager := Without(d.manager, k)), NoPermission)
    else if !x.add.NoError? then Visit(d, x.add)
    else Visit(d.(model := d.model + [d.manager[k]]), NoError)
  }

  /** No step fails with the code that is to mean a removal. */
  predicate Honest(x: Answers) {
    && !x.mime.NoPermission? && !x.update.NoPermission? && !x.drm.NoPermission?
    && !x.remove.NoPermission? && !x.add.NoPermission?
  }

  // ---- the pass ------------------------------------------------------------------------------------

  /** visited: the attachments visited so far. */
  datatype Pass = Pass(document: Document, iIndex: int, drm: nat, invalid: nat, visited: seq<int>)

  function Begin(manager: seq<int>): Pass { Pass(Document(manager, []), 0, 0, 0, []) }

  predicate Ended(p: Pass) { p.iIndex >= |p.document.manager| }

  /** RestoreAttaL, the child operation, and HandleStateActionError when the child fails. */
  function Next(p: Pass, x: Answers): Pass
    requires 0 <= p.iIndex && !Ended(p)
  {
    var v := RestoreOne(p.document, p.iIndex, x);
    var q := p.(document := v.document, iIndex := p.iIndex + 1, visited := p.visited + [p.document.manager[p.iIndex]]);
    match v.code
    case NoError => q
    case NoPermission => q.(drm := q.drm + 1, iIndex := q.iIndex - 1)
    case OtherError(_) => q.(invalid := q.invalid + 1)
  }

  lemma NextIndex(p: Pass, x: Answers)
    requires 0 <= p.iIndex && !Ended(p)
    ensures 0 <= Next(p, x).iIndex
  {}

  /** The pass after k visits, or after its last one if there are fewer.  xs k: the answers to the
      k-th visit. */
  function After(manager: seq<int>, xs: nat -> Answers, k: nat): (p: Pass)
    ensures 0 <= p.iIndex
  {
    if k == 0 then Begin(manager)
    else
      var p := After(manager, xs, k - 1);
      if Ended(p) then p
      else
        NextIndex(p, xs(k - 1));
        Next(p, xs(k - 1))
  }

  // ---- what the pass is for -------------------------------------------------------------------------

  datatype Fate = Good | Removed | Invalid

  function FateOf(x: Answers): Fate {
    if !x.mime.NoError? || !x.update.NoError? || !x.drm.NoError? then Invalid
    else if x.locked then (if x.remove.NoError? then Removed else Invalid)
    else if x.add.NoError? then Good else Invalid
  }

  /** Of the first k attachments of s, those whose fate is, or is not, f, in order. */
  function Those(s: seq<int>, xs: nat -> Answers, k: nat, f: Fate): seq<int>
    requires k <= |s|
  {
    if k == 0 then [] else Those(s, xs, k - 1, f) + (if FateOf(xs(k - 1)) == f then [s[k - 1]] else [])
  }

  function Staying(s: seq<int>, xs: nat -> Answers, k: nat): seq<int>
    requires k <= |s|
  {
    if k == 0 then [] else Staying(s, xs, k - 1) + (if FateOf(xs(k - 1)).Removed? then [] else [s[k - 1]])
  }

  ghost predicate AllHonest(xs: nat -> Answers, n: nat) { forall i: nat :: i < n ==> Honest(xs(i)) }

  lemma NextFate(p: Pass, x: Answers)
    requires 0 <= p.iIndex && !Ended(p) && Honest(x)
    ensures var q := Next(p, x); var m := p.document.manager;
      && q.visited == p.visited + [m[p.iIndex]]
      && q.document.model == p.document.model + (if FateOf(x).Good? then [m[p.iIndex]] else [])
      && q.document.manager == (if FateOf(x).Removed? then Without(m, p.iIndex) else m)
      && q.iIndex == (if FateOf(x).Removed? then p.iIndex else p.iIndex + 1)
      && q.drm == (if FateOf(x).Removed? then p.drm + 1 else p.drm)
      && q.invalid == (if FateOf(x).Invalid? then p.invalid + 1 else p.invalid)
  {}

  /** After k visits: the first k attachments have been visited in their original order, the staying
      ones stand before the index, and the rest of the list is untouched. */
  ghost predicate Progress(m: seq<int>, xs: nat -> Answers, k: nat, p: Pass)
    requires k <= |m|
  {
    && p.visited == m[..k]
    && p.document.manager == Staying(m, xs, k) + m[k..] && p.iIndex == |Staying(m, xs, k)|
    && p.document.model == Those(m, xs, k, Good)
    && p.drm == |Those(m, xs, k, Removed)| && p.invalid == |Those(m, xs, k, Invalid)|
  }

  /** The attachment at the boundary between the visited and the others is removed, or joins the
      visited. */
  lemma AtBoundary(s: seq<int>, m: seq<int>, k: nat)
    requires k < |m|
    ensures var list := s + m[k..];
      && list[|s|] == m[k] && Without(list, |s|) == s + m[k + 1..] && list == (s + [m[k]]) + m[k + 1..]
    ensures m[..k + 1] == m[..k] + [m[k]]
  {}

  lemma VisitProgress(m: seq<int>, xs: nat -> Answers, k: nat, p: Pass)
    requires k < |m| && Progress(m, xs, k, p) && Honest(xs(k))
    ensures !Ended(p) && Progress(m, xs, k + 1, Next(p, xs(k)))
  {
    AtBoundary(Staying(m, xs, k), m, k);
    NextFate(p, xs(k));
    hide Next, FateOf, Honest, Without;
  }

  lemma {:induction false} AfterVisits(m: seq<int>, xs: nat -> Answers, k: nat)
    requires k <= |m| && AllHonest(xs, k)
    ensures Progress(m, xs, k, After(m, xs, k))
  {
    if k > 0 {
      AfterVisits(m, xs, k - 1);
      VisitProgress(m, xs, k - 1, After(m, xs, k - 1));
      hide Next, Progress;
    } else {
      assert m[..0] == [] && m[0..] == m;
    }
  }

  /** The three fates share the attachments out among them. */
  lemma {:induction false} FatesCount(m: seq<int>, xs: nat -> Answers, k: nat)
    requires k <= |m|
    ensures |Those(m, xs, k, Good)| + |Those(m, xs, k, Removed)| + |Those(m, xs, k, Invalid)| == k
    ensures |Staying(m, xs, k)| == k - |Those(m, xs, k, Removed)|
  {
    hide FateOf;
    if k > 0 { FatesCount(m, xs, k - 1); }
  }

  /** Main result.  If the code for removals is reported only after a removal, the pass over n
      attachments ends after exactly n visits, having visited each of them once, in the order in which
      they stood at the beginning, although removals shift the list. */
  lemma EveryAttachmentIsVisitedOnce(m: seq<int>, xs: nat -> Answers, k: nat)
    requires AllHonest(xs, |m|)
    ensures After(m, xs, |m|).visited == m
    ensures Ended(After(m, xs, k)) <==> k >= |m|
    ensures k <= |m| ==> |After(m, xs, k).document.manager| - After(m, xs, k).iIndex == |m| - k
  {
    AfterVisits(m, xs, |m|);
    FatesCount(m, xs, |m|);
    assert m[..|m|] == m;
    if k <= |m| {
      AfterVisits(m, xs, k);
      FatesCount(m, xs, k);
    } else {
      EndedStays(m, xs, |m|, k);
    }
  }

  lemma {:induction false} EndedStays(m: seq<int>, xs: nat -> Answers, j: nat, k: nat)
    requires j <= k && Ended(After(m, xs, j))
    ensures After(m, xs, k) == After(m, xs, j)
  {
    if j < k { EndedStays(m, xs, j, k - 1); }
  }

  /** Main result: the attachments are conserved.  Each is shown, removed or invalid; the manager holds
      all but the removed ones in order, and the editor lists exactly the good ones in order. */
  lemma AttachmentsAreConserved(m: seq<int>, xs: nat -> Answers)
    requires AllHonest(xs, |m|)
    ensures var p := After(m, xs, |m|);
      && |m| == |p.document.model| + p.drm + p.invalid
      && |p.document.manager| == |m| - p.drm
      && p.document.manager == Staying(m, xs, |m|)
      && p.document.model == Those(m, xs, |m|, Good)
  {
    AfterVisits(m, xs, |m|);
    FatesCount(m, xs, |m|);
  }

  // ---- without the assumption ----------------------------------------------------------------------

  function HonestVisits(xs: nat -> Answers, k: nat): nat {
    if k == 0 then 0 else HonestVisits(xs, k - 1) + (if SaysRemovedWrongly(xs(k - 1)) then 0 else 1)
  }

  /** The visit reports a removal that has not happened. */
  predicate SaysRemovedWrongly(x: Answers) {
    if !x.mime.NoError? then x.mime.NoPermission?
    else if !x.update.NoError? then x.update.NoPermission?
    else if !x.drm.NoError? then x.drm.NoPermission?
    else if x.locked then x.remove.NoPermission?
    else x.add.NoPermission?
  }

  lemma NextRemaining(p: Pass, x: Answers)
    requires 0 <= p.iIndex && !Ended(p)
    ensures |Next(p, x).document.manager| - Next(p, x).iIndex ==
      |p.document.manager| - p.iIndex - (if SaysRemovedWrongly(x) then 0 else 1)
  {}

  lemma {:induction false} PassShrinksByRightReports(m: seq<int>, xs: nat -> Answers, k: nat)
    ensures var p := After(m, xs, k);
      if HonestVisits(xs, k) >= |m| then Ended(p)
      else |p.document.manager| - p.iIndex == |m| - HonestVisits(xs, k)
  {
    if k > 0 {
      PassShrinksByRightReports(m, xs, k - 1);
      var p := After(m, xs, k - 1);
      if !Ended(p) {
        NextRemaining(p, xs(k - 1));
        hide Next, SaysRemovedWrongly;
      }
    }
  }

  lemma {:induction false} AllRight(xs: nat -> Answers, k: nat)
    ensures HonestVisits(xs, k) <= k
    ensures HonestVisits(xs, k) == k <==> forall i: nat :: i < k ==> !SaysRemovedWrongly(xs(i))
  {
    hide SaysRemovedWrongly;
    if k > 0 { AllRight(xs, k - 1); }
  }

  /** The assumption is needed, exactly: whatever is reported, a pass over n attachments has ended
      after k visits if and only if n of them were right.  So it ends after n visits if and only if
      no visit reports a removal that has not happened. */
  lemma PassEndsWhenReportsAreRight(m: seq<int>, xs: nat -> Answers, k: nat)
    ensures Ended(After(m, xs, k)) <==> HonestVisits(xs, k) >= |m|
    ensures Ended(After(m, xs, |m|)) <==> forall i: nat :: i < |m| ==> !SaysRemovedWrongly(xs(i))
  {
    PassShrinksByRightReports(m, xs, k);
    PassShrinksByRightReports(m, xs, |m|);
    AllRight(xs, |m|);
    hide After, HonestVisits, SaysRemovedWrongly;
  }

  // ---- the operation as an object ---------------------------------------------------------------------

  datatype State = Idle | Initialize | RestoreAtta | Finalize

  class RestoreAttasOp {
    var iState: State
    var iIndex: int
    var iAllAttaCount: nat
    var iDRMAttaCount: nat
    var iInvalidAttaCount: nat
    var iManager: seq<int>
    var attachmentModel: seq<int>

    constructor (manager: seq<int>, model: seq<int>)
      ensures iState == Idle && iManager == manager && attachmentModel == model
    {
      iState, iIndex, iAllAttaCount, iDRMAttaCount, iInvalidAttaCount := Idle, 0, 0, 0, 0;
      iManager, attachmentModel := manager, model;
    }

    method SetNextState()
      modifies this`iState
      ensures iState == match old(iState)
        case Idle => Initialize
        case Initialize => if |iManager| > 0 then RestoreAtta else Finalize
        case RestoreAtta => if iIndex < |iManager| then RestoreAtta else Finalize
        case Finalize => Idle
    {
      match iState
      case Idle => iState := Initialize;
      case Initialize => if |iManager| > 0 { iState := RestoreAtta; } else { iState := Finalize; }
      case RestoreAtta => if iIndex < |iManager| { iState := RestoreAtta; } else { iState := Finalize; }
      case Finalize => iState := Idle;
    }

    method InitializeL()
      modifies this
      ensures iState == old(iState) && iManager == old(iManager) && iAllAttaCount == |iManager|
      ensures iIndex == 0 && iDRMAttaCount == 0 && iInvalidAttaCount == 0 && attachmentModel == []
    {
      iAllAttaCount := |iManager|;
      iDRMAttaCount := 0;
      iInvalidAttaCount := 0;
      iIndex := 0;
      attachmentModel := [];
    }

    /** Runs the child operation on the attachment at the index, and moves the index on. */
    method RestoreAttaL(x: Answers) returns (code: Code)
      requires 0 <= iIndex < |iManager|
      modifies this`iIndex, this`iManager, this`attachmentModel
      ensures Visit(Document(iManager, attachmentModel), code) ==
        RestoreOne(Document(old(iManager), old(attachmentModel)), old(iIndex), x)
      ensures iIndex == old(iIndex) + 1
    {
      code := x.mime;
      if code.NoError? { code := x.update; }
      if code.NoError? { code := x.drm; }
      if code.NoError? {
        if x.locked {
          code := x.remove;
          if code.NoError? {
            iManager := iManager[..iIndex] + iManager[iIndex + 1..];
            code := NoPermission;
          }
        } else {
          code := x.add;
          if code.NoError? { attachmentModel := attachmentModel + [iManager[iIndex]]; }
        }
      }
      iIndex := iIndex + 1;
    }

    method HandleStateActionError(code: Code) returns (handled: bool)
      requires !code.NoError?
      modifies this`iIndex, this`iDRMAttaCount, this`iInvalidAttaCount
      ensures handled <==> iState == RestoreAtta
      ensures iIndex == old(iIndex) - (if handled && code.NoPermission? then 1 else 0)
      ensures iDRMAttaCount == old(iDRMAttaCount) + (if handled && code.NoPermission? then 1 else 0)
      ensures iInvalidAttaCount == old(iInvalidAttaCount) + (if handled && !code.NoPermission? then 1 else 0)
    {
      handled := false;
      if iState == RestoreAtta {
        if code.NoPermission? {
          iDRMAttaCount := iDRMAttaCount + 1;
          iIndex := iIndex - 1;
        } else {
          iInvalidAttaCount := iInvalidAttaCount + 1;
        }
        handled := true;
      }
    }

    /** One attachment: the child runs, and its error, if any, is recorded. */
    method VisitOne(x: Answers)
      requires iState == RestoreAtta && 0 <= iIndex < |iManager|
      modifies this
      ensures iState == RestoreAtta && iAllAttaCount == old(iAllAttaCount)
      ensures var q := Next(
        Pass(Document(old(iManager), old(attachmentModel)), old(iIndex), old(iDRMAttaCount), old(iInvalidAttaCount), []), x);
        && iManager == q.document.manager && attachmentModel == q.document.model && iIndex == q.iIndex
        && iDRMAttaCount == q.drm && iInvalidAttaCount == q.invalid
    {
      var code := RestoreAttaL(x);
      if !code.NoError? { var _ := HandleStateActionError(code); }
    }

    /** From the start to the idle state: the operation ends, and leaves the document and its counters
        as the pass does. */
    method Run(xs: nat -> Answers)
      requires iState == Idle && AllHonest(xs, |iManager|)
      modifies this
      ensures iState == Idle && iAllAttaCount == |old(iManager)|
      ensures var p := After(old(iManager), xs, |old(iManager)|);
        && iManager == p.document.manager && attachmentModel == p.document.model
        && iDRMAttaCount == p.drm && iInvalidAttaCount == p.invalid
    {
      SetNextState();
      InitializeL();
      SetNextState();
      ghost var m := iManager;
      var k := 0;
      while iState == RestoreAtta
        invariant 0 <= k <= |m| && (iState == RestoreAtta || iState == Finalize) && iAllAttaCount == |m|
        invariant iState == RestoreAtta <==> k < |m|
        invariant Shows(After(m, xs, k))
        decreases |m| - k
      {
        EveryAttachmentIsVisitedOnce(m, xs, k);
        EveryAttachmentIsVisitedOnce(m, xs, k + 1);
        VisitOne(xs(k));
        NextForgets(After(m, xs, k), xs(k));
        k := k + 1;
        SetNextState();
      }
      SetNextState();
    }

    ghost predicate Shows(p: Pass)
      reads this
    {
      && iManager == p.document.manager && attachmentModel == p.document.model && iIndex == p.iIndex
      && iDRMAttaCount == p.drm && iInvalidAttaCount == p.invalid
    }
  }

  lemma NextForgets(p: Pass, x: Answers)
    requires 0 <= p.iIndex && !Ended(p)
    ensures Next(p.(visited := []), x).(visited := []) == Next(p, x).(visited := [])
  {}
}
