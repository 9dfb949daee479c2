/** The header of the mail editor: which controls it shows, and where each one is inserted. */
module HeaderControls {

  datatype Control = To | Cc | Bcc | ReplyTo | Subject | Attachment

  datatype Status = Hidden | Visible | OnlySave

  datatype HeaderStatus = HeaderStatus(control: Control, status: Status)

  const ControlOrder: seq<Control> := [To, Cc, Bcc, ReplyTo, Subject]

  /** The place of a control in the order that the editor promises. */
  function Rank(c: Control): nat {
    match c
    case To => 0 case Cc => 1 case Bcc => 2 case ReplyTo => 3 case Subject => 4 case Attachment => 5
  }

  ghost predicate Ordered(s: seq<Control>) { forall i, j :: 0 <= i < j < |s| ==> Rank(s[i]) < Rank(s[j]) }

  ghost function Shown(s: seq<Control>): set<Control> { set c | c in s }

  /** How many of the first n controls of the order are shown. */
  function Before(s: seq<Control>, n: nat): nat
    requires n <= |ControlOrder|
  {
    if n == 0 then 0 else Before(s, n - 1) + (if ControlOrder[n - 1] in s then 1 else 0)
  }

  /** In an ordered header, the controls before rank n are as many as are shown. */
  lemma {:induction false} BeforeIsPosition(s: seq<Control>, n: nat)
    requires Ordered(s) && n <= |ControlOrder|
    ensures Before(s, n) <= |s|
    ensures forall i :: 0 <= i < |s| ==> (i < Before(s, n) <==> Rank(s[i]) < n)
  {
    if n > 0 {
      BeforeIsPosition(s, n - 1);
      var c := ControlOrder[n - 1];
      assert Rank(c) == n - 1;
      var k := Before(s, n - 1);
      if c in s {
        var j :| 0 <= j < |s| && s[j] == c;
        assert j >= k && Rank(s[k]) >= n - 1 == Rank(s[j]);
        assert j == k;
      } else {
        forall i | 0 <= i < |s| ensures Rank(s[i]) != n - 1 { RankIsUnique(s[i], c); }
      }
    }
  }

  lemma RankIsUnique(c: Control, d: Control)
    ensures Rank(c) == Rank(d) ==> c == d
  {}

  lemma RanksOfOrder(c: Control)
    ensures forall i :: 0 <= i < |ControlOrder| ==> Rank(ControlOrder[i]) == i
    ensures c == Attachment || ControlOrder[Rank(c)] == c
  {}

  /** Without an attachment control, everything comes before it. */
  lemma AllBefore(s: seq<Control>)
    requires Ordered(s) && Attachment !in s
    ensures Before(s, 5) == |s|
  {
    BeforeIsPosition(s, 5);
    if s != [] { assert s[|s| - 1] in s && Rank(s[|s| - 1]) < 5; }
  }

  /** Exactly the controls of lower rank stand before k. */
  ghost predicate IsPlace(s: seq<Control>, c: Control, k: nat) {
    k <= |s| && forall i :: 0 <= i < |s| ==> Rank(s[i]) != Rank(c) && (i < k <==> Rank(s[i]) < Rank(c))
  }

  lemma PlaceKeepsOrder(s: seq<Control>, c: Control, k: nat)
    requires Ordered(s) && IsPlace(s, c, k)
    ensures Ordered(s[..k] + [c] + s[k..])
  {
    var t := s[..k] + [c] + s[k..];
    forall i, j | 0 <= i < j < |t| ensures Rank(t[i]) < Rank(t[j]) {
      assert t[i] == if i < k then s[i] else if i == k then c else s[i - 1];
      assert t[j] == if j < k then s[j] else if j == k then c else s[j - 1];
    }
  }

  lemma OrderedOnlyInPlace(s: seq<Control>, c: Control, k: nat)
    requires k <= |s| && Ordered(s[..k] + [c] + s[k..])
    ensures IsPlace(s, c, k)
  {
    var t := s[..k] + [c] + s[k..];
    forall i | 0 <= i < |s| ensures Rank(s[i]) != Rank(c) && (i < k <==> Rank(s[i]) < Rank(c)) {
      assert t[k] == c && s[i] == t[if i < k then i else i + 1];
    }
  }

  /** Where a new control goes: before those of its rank and above. */
  function Location(s: seq<Control>, c: Control): nat { Before(s, if c.Attachment? then 5 else Rank(c)) }

  lemma LocationIsPlace(s: seq<Control>, c: Control)
    requires Ordered(s) && c !in s
    ensures IsPlace(s, c, Location(s, c))
  {
    BeforeIsPosition(s, if c.Attachment? then 5 else Rank(c));
    forall i | 0 <= i < |s| ensures Rank(s[i]) != Rank(c) {
      assert s[i] in s;
      RankIsUnique(s[i], c);
    }
    if c.Attachment? { AllBefore(s); }
  }

  /** Main result on insertion: there is exactly one place that keeps the header ordered, and it is the
      number of shown controls that come before the new one. */
  lemma InsertionKeepsOrder(s: seq<Control>, c: Control, k: nat)
    requires Ordered(s) && c !in s && k <= |s|
    ensures Location(s, c) <= |s|
    ensures Ordered(s[..k] + [c] + s[k..]) <==> k == Location(s, c)
  {
    LocationIsPlace(s, c);
    var b := Location(s, c);
    PlaceKeepsOrder(s, c, b);
    if Ordered(s[..k] + [c] + s[k..]) {
      OrderedOnlyInPlace(s, c, k);
      assert k < |s| ==> Rank(s[k]) > Rank(c);
      assert b < |s| ==> Rank(s[b]) > Rank(c);
    }
  }

  /** An ordered header is determined by what it shows. */
  lemma {:induction false} OrderIsUnique(s: seq<Control>, t: seq<Control>)
    requires Ordered(s) && Ordered(t) && Shown(s) == Shown(t)
    ensures s == t
  {
    assert s != [] ==> s[0] in Shown(t);
    assert t != [] ==> t[0] in Shown(s);
    if s != [] {
      var i :| 0 <= i < |t| && t[i] == s[0];
      var j :| 0 <= j < |s| && s[j] == t[0];
      assert i == 0;
      TailShows(s);
      TailShows(t);
      OrderIsUnique(s[1..], t[1..]);
    }
  }

  lemma NothingShown(s: seq<Control>)
    requires s == []
    ensures Shown(s) == {}
  {}

  lemma TailShows(s: seq<Control>)
    requires s != [] && Ordered(s)
    ensures Shown(s[1..]) == Shown(s) - {s[0]} && Ordered(s[1..])
  {
    assert s == [s[0]] + s[1..];
    forall c | c in s[1..] ensures c != s[0] {
      var i :| 0 <= i < |s[1..]| && s[1..][i] == c;
      assert s[i + 1] == c;
    }
  }

  lemma DeletionKeepsOrder(s: seq<Control>, k: nat)
    requires Ordered(s) && k < |s|
    ensures var t := s[..k] + s[k + 1..]; Ordered(t) && Shown(t) == Shown(s) - {s[k]}
  {
    var t := s[..k] + s[k + 1..];
    forall i | 0 <= i < |t| ensures t[i] == s[if i < k then i else i + 1] {}
    assert s == s[..k] + [s[k]] + s[k + 1..];
    forall c | c in t ensures c != s[k] {
      var i :| 0 <= i < |t| && t[i] == c;
    }
  }

  /** One header of a visibility update, on what is shown. */
  function Updated(shown: set<Control>, h: HeaderStatus): set<Control> {
    if h.status.Hidden? then shown - {h.control} else shown + {h.control}
  }

  function AllUpdated(shown: set<Control>, hs: seq<HeaderStatus>): set<Control>
    decreases |hs|
  {
    if hs == [] then shown else AllUpdated(Updated(shown, hs[0]), hs[1..])
  }

  /** A visibility update settles each listed control, and leaves the others alone. */
  lemma {:induction false} UpdateSettles(shown: set<Control>, hs: seq<HeaderStatus>)
    requires forall i, j :: 0 <= i < j < |hs| ==> hs[i].control != hs[j].control
    ensures forall h :: h in hs ==> (h.control in AllUpdated(shown, hs) <==> !h.status.Hidden?)
    ensures forall c :: (forall h :: h in hs ==> h.control != c) ==> (c in AllUpdated(shown, hs) <==> c in shown)
    decreases |hs|
  {
    if hs != [] {
      UpdateSettles(Updated(shown, hs[0]), hs[1..]);
      assert hs == [hs[0]] + hs[1..];
      assert forall h :: h in hs[1..] ==> h.control != hs[0].control;
    }
  }

  class MailEditorHeader {
    var controls: seq<Control>

    /** The controls are always in the promised order, the attachment control last. */
    ghost predicate Valid()
      reads this
    {
      Ordered(controls)
    }

    constructor ()
      ensures Valid() && controls == []
    {
      controls := [];
    }

    method InsertControl(c: Control, location: nat)
      requires Valid() && c !in controls && location == Location(controls, c)
      modifies this
      ensures Valid() && Shown(controls) == Shown(old(controls)) + {c}
    {
      LocationIsPlace(controls, c);
      InsertionKeepsOrder(controls, c, location);
      assert controls == controls[..location] + controls[location..];
      controls := controls[..location] + [c] + controls[location..];
    }

    method AddControl(c: Control)
      requires Valid()
      modifies this
      ensures Valid() && Shown(controls) == Shown(old(controls)) + {c}
    {
      if c in controls { return; }
      var location := 0;
      var index := 0;
      while index < |ControlOrder|
        invariant 0 <= index <= |ControlOrder|
        invariant location == Before(controls, index)
        invariant forall j :: 0 <= j < index ==> ControlOrder[j] != c
      {
        if ControlOrder[index] in controls && ControlOrder[index] != c {
          location := location + 1;
        } else if ControlOrder[index] == c {
          break;
        }
        index := index + 1;
      }
      RanksOfOrder(c);
      InsertControl(c, location);
    }

    method DeleteControl(c: Control)
      requires Valid()
      modifies this
      ensures Valid() && Shown(controls) == Shown(old(controls)) - {c}
    {
      var k := 0;
      while k < |controls|
        invariant 0 <= k <= |controls| && controls == old(controls)
        invariant forall j :: 0 <= j < k ==> controls[j] != c
      {
        if controls[k] == c {
          DeletionKeepsOrder(controls, k);
          controls := controls[..k] + controls[k + 1..];
          return;
        }
        k := k + 1;
      }
    }

    /** The attachment control is appended. */
    method CreateAttachmentControl()
      requires Valid()
      modifies this
      ensures Valid() && Shown(controls) == Shown(old(controls)) + {Attachment}
    {
      if Attachment !in controls {
        AllBefore(controls);
        InsertControl(Attachment, |controls|);
      }
    }

    method UpdateReplyToControl(replyTo: string)
      requires Valid()
      modifies this
      ensures Valid()
      ensures Shown(controls) == if replyTo != "" then Shown(old(controls)) + {ReplyTo} else Shown(old(controls)) - {ReplyTo}
    {
      if replyTo != "" { AddControl(ReplyTo); } else { DeleteControl(ReplyTo); }
    }

    method UpdateHeaderVisibility(headers: seq<HeaderStatus>)
      requires Valid()
      modifies this
      ensures Valid() && Shown(controls) == AllUpdated(Shown(old(controls)), headers)
    {
      var index := 0;
      assert headers[0..] == headers;
      while index < |headers|
        invariant 0 <= index <= |headers| && Valid()
        invariant AllUpdated(Shown(controls), headers[index..]) == AllUpdated(Shown(old(controls)), headers)
      {
        var header := headers[index];
        assert headers[index..][1..] == headers[index + 1..];
        ghost var was := Shown(controls);
        if header.control in controls {
          if header.status == Hidden { DeleteControl(header.control); }
          assert Shown(controls) == Updated(was, header);
        } else {
          if header.status == Visible || header.status == OnlySave { AddControl(header.control); }
          assert Shown(controls) == Updated(was, header);
        }
        index := index + 1;
      }
    }

    /** The header of a mail that is opened. */
    method CreateHeaders(cc: bool, bcc: bool, replyTo: string, subject: bool)
      requires Valid() && controls == []
      modifies this
      ensures Valid()
      ensures Shown(controls) == {To} + (if cc then {Cc} else {}) + (if bcc then {Bcc} else {})
        + (if replyTo != "" then {ReplyTo} else {}) + (if subject then {Subject} else {})
    {
      hide Ordered, Shown;
      assert Shown(controls) == {} by { NothingShown(controls); }
      AddControl(To);
      if cc { AddControl(Cc); }
      if bcc { AddControl(Bcc); }
      UpdateReplyToControl(replyTo);
      if subject { AddControl(Subject); }
    }
  }
}
