/** Line-break conversion of a mail body, edited in place in the buffer that holds it. */
module LineBreaks {

  const LF: int := 0x0A
  const CR: int := 0x0D
  const ELineBreak: int := 0x2028
  const EParagraphDelimiter: int := 0x2029

  predicate IsCrLf(s: seq<int>) { |s| >= 2 && s[0] == CR && s[1] == LF }

  /** The conversion in one pass.  count: line breaks examined since the last paragraph delimiter.
      skip: the first character directly follows a CRLF, and so is not examined. */
  function Convert(s: seq<int>, count: nat, skip: bool): seq<int> {
    if s == [] then []
    else if IsCrLf(s) then [ELineBreak] + Convert(s[2..], count, true)
    else if skip then [s[0]] + Convert(s[1..], count, false)
    else if s[0] == ELineBreak then
      if count + 1 == 10 then [EParagraphDelimiter] + Convert(s[1..], 0, false)
      else [ELineBreak] + Convert(s[1..], count + 1, false)
    else if s[0] == LF then [ELineBreak] + Convert(s[1..], count, false)
    else [s[0]] + Convert(s[1..], count, false)
  }

  /** Where the loop stands: done is final, text[k..] is as it was, and i stands at its first
      character or, if that is passed over, at its second. */
  ghost predicate At(text: seq<int>, buf: seq<int>, i: int, done: seq<int>, k: nat, count: nat, skip: bool) {
    && k <= |text| && count < 10
    && buf == done + text[k..] && i == |done| + (if skip then 1 else 0)
    && done + Convert(text[k..], count, skip) == Convert(text, 0, false)
    && (!skip && 0 < i < |buf| && buf[i - 1] == CR ==> buf[i] != LF)
  }

  /** The first of the remaining characters is passed over and is not half of a CRLF. */
  ghost predicate PassesOver(text: seq<int>, k: nat, skip: bool) { skip && k < |text| && !IsCrLf(text[k..]) }

  /** The loop deletes from the buffer that it walks. */
  method ConvertLineBreaks(text: seq<int>) returns (buf: seq<int>)
    ensures buf == Convert(text, 0, false)
  {
    buf := text;
    var count := 0;
    var i := 0;
    ghost var done, k, skip := [], 0, false;
    AtStart(text);
    hide At, Convert, PassesOver, IsCrLf;
    while i < |buf|
      invariant At(text, buf, i, done, k, count, skip)
      decreases |buf| + 1 - i
    {
      Bounds(text, buf, i, done, k, count, skip);
      if PassesOver(text, k, skip) {
        PassOver(text, buf, i, done, k, count, skip);
        done, k, skip := done + [text[k]], k + 1, false;
      }
      Here(text, buf, i, done, k, count, skip);
      if buf[i] == ELineBreak {
        LineBreakStep(text, buf, i, done, k, count);
        count := count + 1;
        if count == 10 {
          buf := buf[i := EParagraphDelimiter];
          count := 0;
        }
        done, k := done + [buf[i]], k + 1;
      } else if buf[i] == LF {
        LfStep(text, buf, i, done, k, count, skip);
        k := if skip then k + 2 else k + 1;
        done := done + [ELineBreak];
        buf := buf[i := ELineBreak];
        if i > 0 && buf[i - 1] == CR {
          buf := buf[..i - 1] + buf[i..];
        }
      } else {
        OtherStep(text, buf, i, done, k, count);
        if IsCrLf(text[k..]) { skip := true; } else { done, k := done + [text[k]], k + 1; }
      }
      i := i + 1;
    }
    AtEnd(text, buf, i, done, k, count, skip);
  }

  lemma AtStart(text: seq<int>)
    ensures At(text, text, 0, [], 0, 0, false)
  {
    assert text[0..] == text;
  }

  lemma Bounds(text: seq<int>, buf: seq<int>, i: int, done: seq<int>, k: nat, count: nat, skip: bool)
    requires At(text, buf, i, done, k, count, skip) && i < |buf|
    ensures 0 <= i && k < |text|
  {}

  lemma PassOver(text: seq<int>, buf: seq<int>, i: int, done: seq<int>, k: nat, count: nat, skip: bool)
    requires At(text, buf, i, done, k, count, skip) && i < |buf| && PassesOver(text, k, skip)
    ensures At(text, buf, i, done + [text[k]], k + 1, count, false) && !PassesOver(text, k + 1, false)
  {
    var rest := text[k..];
    assert rest == [text[k]] + text[k + 1..] && rest[1..] == text[k + 1..];
    assert done + Convert(rest, count, true) == (done + [text[k]]) + Convert(text[k + 1..], count, false);
    assert buf[i - 1] == rest[0] && buf[i] == rest[1];
  }

  /** What the loop sees at i. */
  lemma Here(text: seq<int>, buf: seq<int>, i: int, done: seq<int>, k: nat, count: nat, skip: bool)
    requires At(text, buf, i, done, k, count, skip) && 0 <= i < |buf| && !PassesOver(text, k, skip)
    ensures k < |text| && (skip ==> i > 0 && buf[i - 1] == CR && buf[i] == LF)
    ensures !skip && buf[i] == LF && i > 0 ==> buf[i - 1] != CR
  {
    var rest := text[k..];
    assert buf[|done|] == rest[0];
    if skip { assert buf[i] == rest[1]; }
  }

  lemma LineBreakStep(text: seq<int>, buf: seq<int>, i: int, done: seq<int>, k: nat, count: nat)
    requires At(text, buf, i, done, k, count, false) && 0 <= i < |buf| && k < |text| && buf[i] == ELineBreak
    ensures count + 1 == 10 ==>
      At(text, buf[i := EParagraphDelimiter], i + 1, done + [EParagraphDelimiter], k + 1, 0, false)
    ensures count + 1 != 10 ==> At(text, buf, i + 1, done + [ELineBreak], k + 1, count + 1, false)
  {
    var rest := text[k..];
    assert buf[i] == rest[0] && rest == [ELineBreak] + text[k + 1..] && rest[1..] == text[k + 1..];
    var c := if count + 1 == 10 then EParagraphDelimiter else ELineBreak;
    var n := if count + 1 == 10 then 0 else count + 1;
    assert Convert(rest, count, false) == [c] + Convert(text[k + 1..], n, false);
    assert done + Convert(rest, count, false) == (done + [c]) + Convert(text[k + 1..], n, false);
    assert buf[i := c] == (done + [c]) + text[k + 1..];
  }

  /** A line feed becomes a line break, and takes a CR before it along. */
  lemma LfStep(text: seq<int>, buf: seq<int>, i: int, done: seq<int>, k: nat, count: nat, skip: bool)
    requires At(text, buf, i, done, k, count, skip) && 0 <= i < |buf| && k < |text| && buf[i] == LF
    requires !PassesOver(text, k, skip)
    ensures skip ==> i > 0
    ensures skip ==>
      At(text, buf[i := ELineBreak][..i - 1] + buf[i := ELineBreak][i..], i + 1, done + [ELineBreak], k + 2, count, true)
    ensures !skip ==> At(text, buf[i := ELineBreak], i + 1, done + [ELineBreak], k + 1, count, false)
  {
    var rest := text[k..];
    assert buf[|done|] == rest[0];
    if skip {
      assert rest[2..] == text[k + 2..];
      assert done + Convert(rest, count, true) == (done + [ELineBreak]) + Convert(text[k + 2..], count, true);
      assert buf[i := ELineBreak][..i - 1] + buf[i := ELineBreak][i..] == (done + [ELineBreak]) + text[k + 2..];
    } else {
      assert rest[1..] == text[k + 1..];
      assert done + Convert(rest, count, false) == (done + [ELineBreak]) + Convert(text[k + 1..], count, false);
      assert buf[i := ELineBreak] == (done + [ELineBreak]) + text[k + 1..];
    }
  }

  lemma OtherStep(text: seq<int>, buf: seq<int>, i: int, done: seq<int>, k: nat, count: nat)
    requires At(text, buf, i, done, k, count, false) && 0 <= i < |buf| && k < |text|
    requires buf[i] != LF && buf[i] != ELineBreak
    ensures if IsCrLf(text[k..]) then At(text, buf, i + 1, done, k, count, true)
            else At(text, buf, i + 1, done + [text[k]], k + 1, count, false)
  {
    var rest := text[k..];
    assert buf[i] == rest[0];
    if IsCrLf(rest) {
      assert Convert(rest, count, true) == Convert(rest, count, false);
    } else {
      assert rest == [text[k]] + text[k + 1..] && rest[1..] == text[k + 1..];
      assert done + Convert(rest, count, false) == (done + [text[k]]) + Convert(text[k + 1..], count, false);
      assert i + 1 < |buf| ==> buf[i + 1] == rest[1];
    }
  }

  lemma AtEnd(text: seq<int>, buf: seq<int>, i: int, done: seq<int>, k: nat, count: nat, skip: bool)
    requires At(text, buf, i, done, k, count, skip) && i >= |buf|
    ensures buf == Convert(text, 0, false)
  {
    if k < |text| {
      assert text[k..] == [text[k]];
      assert Convert([text[k]], count, true) == [text[k]];
    } else {
      assert text[k..] == [];
    }
  }

  // ---- what the conversion achieves -----------------------------------------------------------------

  function CrLfs(s: seq<int>): nat {
    if s == [] then 0 else if IsCrLf(s) then 1 + CrLfs(s[2..]) else CrLfs(s[1..])
  }

  /** How many of the characters are of the kind p. */
  function Count(s: seq<int>, p: int -> bool): nat {
    if s == [] then 0 else (if p(s[0]) then 1 else 0) + Count(s[1..], p)
  }

  function Only(s: seq<int>, p: int -> bool): seq<int> {
    if s == [] then [] else (if p(s[0]) then [s[0]] else []) + Only(s[1..], p)
  }

  const IsBreak := (c: int) => c == LF || c == ELineBreak || c == EParagraphDelimiter
  const IsDelimiter := (c: int) => c == EParagraphDelimiter
  const IsPlain := (c: int) => c != LF && c != CR && c != ELineBreak && c != EParagraphDelimiter

  /** The line breaks that the conversion examines and counts. */
  function Examined(s: seq<int>, skip: bool): nat {
    if s == [] then 0
    else if IsCrLf(s) then Examined(s[2..], true)
    else (if !skip && s[0] == ELineBreak then 1 else 0) + Examined(s[1..], false)
  }

  lemma {:induction false} ConvertLength(s: seq<int>, count: nat, skip: bool)
    ensures |Convert(s, count, skip)| == |s| - CrLfs(s)
  {
    if IsCrLf(s) { ConvertLength(s[2..], count, true); }
    else if s != [] {
      ConvertLength(s[1..], 0, false);
      ConvertLength(s[1..], count, false);
      ConvertLength(s[1..], count + 1, false);
    }
  }

  lemma CountFirst(c: int, s: seq<int>, p: int -> bool)
    ensures Count([c] + s, p) == (if p(c) then 1 else 0) + Count(s, p)
    ensures Only([c] + s, p) == (if p(c) then [c] else []) + Only(s, p)
  {
    assert ([c] + s)[1..] == s;
  }

  /** The first output character and the conversion of what follows. */
  function Head(s: seq<int>, count: nat, skip: bool): int
    requires s != []
  {
    if IsCrLf(s) then ELineBreak
    else if skip then s[0]
    else if s[0] == ELineBreak && count + 1 == 10 then EParagraphDelimiter
    else if s[0] == LF then ELineBreak
    else s[0]
  }

  function Tail(s: seq<int>, count: nat, skip: bool): seq<int>
    requires s != []
  {
    if IsCrLf(s) then Convert(s[2..], count, true)
    else if skip || s[0] != ELineBreak then Convert(s[1..], count, false)
    else Convert(s[1..], if count + 1 == 10 then 0 else count + 1, false)
  }

  lemma HeadAndTail(s: seq<int>, count: nat, skip: bool)
    requires s != []
    ensures Convert(s, count, skip) == [Head(s, count, skip)] + Tail(s, count, skip)
  {}

  ghost predicate NoCrLf(s: seq<int>) { forall i :: 0 <= i < |s| - 1 && s[i] == CR ==> s[i + 1] != LF }

  lemma NoCrLfPrepend(c: int, s: seq<int>)
    requires NoCrLf(s) && (c == CR && s != [] ==> s[0] != LF)
    ensures NoCrLf([c] + s)
  {
    var t := [c] + s;
    forall i | 0 <= i < |t| - 1 && t[i] == CR ensures t[i + 1] != LF {
      assert t[i + 1] == s[i];
      if i > 0 { assert t[i] == s[i - 1]; }
    }
  }

  lemma {:induction false} NoCrLfLeft(s: seq<int>, count: nat, skip: bool)
    ensures var r := Convert(s, count, skip); NoCrLf(r) && (!skip && r != [] ==> r[0] != LF)
    decreases |s|
  {
    if s != [] {
      HeadAndTail(s, count, skip);
      if IsCrLf(s) { NoCrLfLeft(s[2..], count, true); }
      else if skip || s[0] != ELineBreak { NoCrLfLeft(s[1..], count, false); }
      else { NoCrLfLeft(s[1..], if count + 1 == 10 then 0 else count + 1, false); }
      hide Convert, NoCrLf;
      NoCrLfPrepend(Head(s, count, skip), Tail(s, count, skip));
    }
  }

  lemma {:induction false} BreaksStay(s: seq<int>, count: nat, skip: bool)
    ensures Count(Convert(s, count, skip), IsBreak) == Count(s, IsBreak)
    ensures Only(Convert(s, count, skip), IsPlain) == Only(s, IsPlain)
    decreases |s|
  {
    if s != [] {
      HeadAndTail(s, count, skip);
      CountFirst(Head(s, count, skip), Tail(s, count, skip), IsBreak);
      CountFirst(Head(s, count, skip), Tail(s, count, skip), IsPlain);
      if IsCrLf(s) {
        BreaksStay(s[2..], count, true);
        assert s[1..][1..] == s[2..];
      } else if skip || s[0] != ELineBreak {
        BreaksStay(s[1..], count, false);
      } else {
        BreaksStay(s[1..], if count + 1 == 10 then 0 else count + 1, false);
      }
      hide Convert;
    }
  }

  lemma {:induction false} EveryTenthIsDelimiter(s: seq<int>, count: nat, skip: bool)
    requires count < 10
    ensures Count(Convert(s, count, skip), IsDelimiter) == Count(s, IsDelimiter) + (count + Examined(s, skip)) / 10
    decreases |s|
  {
    if s != [] {
      HeadAndTail(s, count, skip);
      CountFirst(Head(s, count, skip), Tail(s, count, skip), IsDelimiter);
      if IsCrLf(s) {
        EveryTenthIsDelimiter(s[2..], count, true);
        assert s[1..][1..] == s[2..];
      } else if skip || s[0] != ELineBreak {
        EveryTenthIsDelimiter(s[1..], count, false);
      } else {
        EveryTenthIsDelimiter(s[1..], if count + 1 == 10 then 0 else count + 1, false);
      }
      hide Convert;
    }
  }

  /** The text with every line end, CRLF included, written as one LF. */
  function Unified(s: seq<int>): seq<int> {
    if s == [] then []
    else if IsCrLf(s) then [LF] + Unified(s[2..])
    else [if IsBreak(s[0]) then LF else s[0]] + Unified(s[1..])
  }

  /** The same, character by character. */
  function BreaksAsLf(s: seq<int>): seq<int> {
    seq(|s|, i requires 0 <= i < |s| => if IsBreak(s[i]) then LF else s[i])
  }

  lemma BreaksAsLfCons(c: int, s: seq<int>)
    ensures BreaksAsLf([c] + s) == [if IsBreak(c) then LF else c] + BreaksAsLf(s)
  {}

  /** Every line stays what and where it was. */
  lemma {:induction false} LinesStay(s: seq<int>, count: nat, skip: bool)
    ensures BreaksAsLf(Convert(s, count, skip)) == Unified(s)
    decreases |s|
  {
    if s != [] {
      HeadAndTail(s, count, skip);
      BreaksAsLfCons(Head(s, count, skip), Tail(s, count, skip));
      if IsCrLf(s) { LinesStay(s[2..], count, true); }
      else if skip || s[0] != ELineBreak { LinesStay(s[1..], count, false); }
      else { LinesStay(s[1..], if count + 1 == 10 then 0 else count + 1, false); }
      hide Convert, BreaksAsLf;
    }
  }

  const IsLf := (c: int) => c == LF

  /** The line feeds that directly follow a CRLF. */
  function LfsAfterCrLf(s: seq<int>, skip: bool): nat {
    if s == [] then 0
    else if IsCrLf(s) then LfsAfterCrLf(s[2..], true)
    else (if skip && s[0] == LF then 1 else 0) + LfsAfterCrLf(s[1..], false)
  }

  /** The line feeds that are left are those that directly follow a CRLF. */
  lemma {:induction false} OnlySkippedLfsStay(s: seq<int>, count: nat, skip: bool)
    ensures Count(Convert(s, count, skip), IsLf) == LfsAfterCrLf(s, skip)
    decreases |s|
  {
    if s != [] {
      HeadAndTail(s, count, skip);
      CountFirst(Head(s, count, skip), Tail(s, count, skip), IsLf);
      if IsCrLf(s) { OnlySkippedLfsStay(s[2..], count, true); }
      else if skip || s[0] != ELineBreak { OnlySkippedLfsStay(s[1..], count, false); }
      else { OnlySkippedLfsStay(s[1..], if count + 1 == 10 then 0 else count + 1, false); }
      hide Convert;
    }
  }

  /** Main result: the converted text is shorter by one for each CRLF, holds no CRLF, and has the same
      lines: with all line ends written alike it is the old text.  Every tenth line break that was
      examined has become a paragraph delimiter, and the only line feeds left directly followed a CRLF. */
  lemma ConversionKeepsTheText(s: seq<int>)
    ensures var r := Convert(s, 0, false);
      && |r| == |s| - CrLfs(s)
      && (forall i :: 0 <= i < |r| - 1 && r[i] == CR ==> r[i + 1] != LF)
      && BreaksAsLf(r) == Unified(s) && Only(r, IsPlain) == Only(s, IsPlain)
      && Count(r, IsLf) == LfsAfterCrLf(s, false)
      && Count(r, IsBreak) == Count(s, IsBreak)
      && Count(r, IsDelimiter) == Count(s, IsDelimiter) + Examined(s, false) / 10
  {
    ConvertLength(s, 0, false);
    NoCrLfLeft(s, 0, false);
    BreaksStay(s, 0, false);
    LinesStay(s, 0, false);
    OnlySkippedLfsStay(s, 0, false);
    EveryTenthIsDelimiter(s, 0, false);
  }
}
