/** The two decoders of a notification's timestamp: from text, edited in place, and from binary-coded
    decimal octets. */
module Timestamps {

  /** Characters are 16-bit codes. */
  const Colon: int := 58
  const Dash: int := 45
  const LetterT: int := 84
  const LetterZ: int := 90
  const Digit0: int := 48

  type Byte = x: int | 0 <= x < 0x100

  const KEMNLengthOfRecvTimeStamp: nat := 20

  /** Month and day count from zero. */
  datatype DateTime = DateTime(year: nat, month: nat, day: nat, hour: nat, minute: nat)

  datatype Fault = InvalidAttribute | InvalidMonth | InvalidDay | InvalidHour | InvalidMinute

  /** NoTime: the element keeps a zero timestamp.  OutOfBounds: an index beyond the end of the edited
      text stops the thread.  Unset: the minute was never set. */
  datatype Decoded = Time(value: DateTime) | NoTime | Leaves(fault: Fault) | OutOfBounds | Unset

  predicate Leap(y: nat) { y % 4 == 0 && (y % 100 != 0 || y % 400 == 0) }

  /** month counts from zero. */
  function DaysIn(y: nat, month: nat): nat {
    if month == 1 then (if Leap(y) then 29 else 28) else if month in {3, 5, 8, 10} then 30 else 31
  }

  // ---- editing the text --------------------------------------------------------------------------

  function Deleted(s: seq<int>, c: int): seq<int> {
    if s == [] then [] else (if s[0] == c then [] else [s[0]]) + Deleted(s[1..], c)
  }

  function Replaced(s: seq<int>, c: int, d: int): seq<int> {
    seq(|s|, i requires 0 <= i < |s| => if s[i] == c then d else s[i])
  }

  /** Find: the first position of c, or -1. */
  method Find(s: seq<int>, c: int) returns (pos: int)
    ensures -1 <= pos < |s|
    ensures pos >= 0 ==> s[pos] == c && forall j :: 0 <= j < pos ==> s[j] != c
    ensures pos == -1 ==> c !in s
  {
    pos := 0;
    while pos < |s|
      invariant 0 <= pos <= |s| && forall j :: 0 <= j < pos ==> s[j] != c
    {
      if s[pos] == c { return; }
      pos := pos + 1;
    }
    pos := -1;
  }

  lemma {:induction false} DeletedAt(s: seq<int>, c: int, k: nat)
    requires k < |s| && s[k] == c
    ensures Deleted(s[..k] + s[k + 1..], c) == Deleted(s, c)
  {
    if k == 0 {
      assert s[..0] + s[1..] == s[1..];
    } else {
      DeletedAt(s[1..], c, k - 1);
      assert (s[..k] + s[k + 1..])[1..] == s[1..][..k - 1] + s[1..][k..];
    }
  }

  lemma {:induction false} DeletedNone(s: seq<int>, c: int)
    requires c !in s
    ensures Deleted(s, c) == s
  {
    if s != [] { DeletedNone(s[1..], c); }
  }

  method DeleteAll(s: seq<int>, c: int) returns (r: seq<int>)
    ensures r == Deleted(s, c)
  {
    r := s;
    var pos := Find(r, c);
    while pos != -1
      invariant -1 <= pos < |r| && Deleted(r, c) == Deleted(s, c)
      invariant if pos == -1 then c !in r else r[pos] == c
      decreases |r|, pos
    {
      DeletedAt(r, c, pos);
      r := r[..pos] + r[pos + 1..];
      pos := Find(r, c);
    }
    DeletedNone(r, c);
  }

  /** Each round replaces the first c that is left; d is another character. */
  method ReplaceAll(s: seq<int>, c: int, d: int) returns (r: seq<int>)
    requires c != d
    ensures r == Replaced(s, c, d)
  {
    r := s;
    var pos := Find(r, c);
    ghost var done := 0;
    while pos != -1
      invariant -1 <= pos < |r| == |s| && 0 <= done <= |s|
      invariant Replaced(r, c, d) == Replaced(s, c, d) && forall j :: 0 <= j < done ==> r[j] != c
      invariant if pos == -1 then c !in r else r[pos] == c && forall j :: 0 <= j < pos ==> r[j] != c
      decreases |s| - done, pos
    {
      ghost var before := r;
      r := r[..pos] + [d] + r[pos + 1..];
      assert forall i :: 0 <= i < |r| ==> r[i] == if i == pos then d else before[i];
      done := pos + 1;
      pos := Find(r, c);
    }
  }

  function Edited(s: seq<int>): seq<int> {
    Deleted(Replaced(Deleted(Deleted(s, Colon), Dash), LetterT, Colon), LetterZ)
  }

  // ---- the text form -------------------------------------------------------------------------------

  predicate IsDigit(c: int) { Digit0 <= c <= Digit0 + 9 }

  /** Arithmetic on 16-bit characters. */
  function Shifted(c: int, n: int): int { (c + n) % 0x10000 }

  /** Month and day, at 4 and 6, counted from zero instead of one. */
  function Decremented(e: seq<int>): seq<int>
    requires |e| >= 8
  {
    var m := if e[4] == Digit0 + 1 && e[5] == Digit0 then [Shifted(e[4], -1), Shifted(e[5], 9)]
             else [e[4], Shifted(e[5], -1)];
    var d := if (e[6] == Digit0 + 1 || e[6] == Digit0 + 2 || e[6] == Digit0 + 3) && e[7] == Digit0
             then [Shifted(e[6], -1), Shifted(e[7], 9)] else [e[6], Shifted(e[7], -1)];
    e[..4] + m + d + e[8..]
  }

  function Number(e: seq<int>, k: nat): int
    requires k + 2 <= |e|
  {
    10 * (e[k] - Digit0) + e[k + 1] - Digit0
  }

  predicate DigitsAround(e: seq<int>)
    requires |e| == 15
  {
    forall k :: 0 <= k < 15 && k != 8 ==> IsDigit(e[k])
  }

  /** TTime::Set on YYYYMMDD:HHMMSS, with month and day counted from zero. */
  function Parsed(e: seq<int>): Decoded {
    if |e| != 15 || e[8] != Colon then NoTime
    else if !DigitsAround(e) then NoTime
    else
      var y, m, d := 100 * Number(e, 0) + Number(e, 2), Number(e, 4), Number(e, 6);
      var h, i, s := Number(e, 9), Number(e, 11), Number(e, 13);
      if m < 12 && d < DaysIn(y, m) && h < 24 && i < 60 && s < 60 then Time(DateTime(y, m, d, h, i)) else NoTime
  }

  function TextDecoded(s: seq<int>): Decoded {
    if |s| != KEMNLengthOfRecvTimeStamp then NoTime
    else if |Edited(s)| < 8 then OutOfBounds
    else Parsed(Decremented(Edited(s)))
  }

  /** The text is edited in place until it has the form that the platform parses. */
  method HandleXMLAttributes(value: seq<int>) returns (r: Decoded)
    ensures r == TextDecoded(value)
  {
    r := NoTime;
    if |value| == KEMNLengthOfRecvTimeStamp {
      var text := DeleteAll(value, Colon);
      text := DeleteAll(text, Dash);
      text := ReplaceAll(text, LetterT, Colon);
      text := DeleteAll(text, LetterZ);
      if |text| < 8 { return OutOfBounds; }
      ghost var e := text;
      if text[4] == Digit0 + 1 && text[5] == Digit0 {
        text := text[4 := Shifted(text[4], -1)];
        text := text[5 := Shifted(text[5], 9)];
      } else {
        text := text[5 := Shifted(text[5], -1)];
      }
      if (text[6] == Digit0 + 1 || text[6] == Digit0 + 2 || text[6] == Digit0 + 3) && text[7] == Digit0 {
        text := text[6 := Shifted(text[6], -1)];
        text := text[7 := Shifted(text[7], 9)];
      } else {
        text := text[7 := Shifted(text[7], -1)];
      }
      assert text == Decremented(e);
      r := Parsed(text);
    }
  }

  // ---- the octet form --------------------------------------------------------------------------------

  /** Two decimal digits from the upper and lower four bits. */
  function Decimal(octet: Byte): int { 10 * Upper(octet) + Lower(octet) }

  function Upper(octet: Byte): int { octet / 16 }
  function Lower(octet: Byte): int { octet % 16 }

  function OctetsDecoded(o: seq<Byte>): Decoded {
    if |o| < 4 then Leaves(InvalidAttribute)
    else
      var y := 1000 * Upper(o[0]) + 100 * Lower(o[0]) + 10 * Upper(o[1]) + Lower(o[1]);
      var m, d := Decimal(o[2]) - 1, Decimal(o[3]) - 1;
      if !(0 <= m < 12) then Leaves(InvalidMonth)
      else if !(0 <= d < DaysIn(y, m)) then Leaves(InvalidDay)
      else if |o| == 4 then Time(DateTime(y, m, d, 0, 0))
      else if Decimal(o[4]) >= 24 then Leaves(InvalidHour)
      else if |o| == 5 then Unset
      else if Decimal(o[5]) >= 60 then Leaves(InvalidMinute)
      else Time(DateTime(y, m, d, Decimal(o[4]), Decimal(o[5])))
  }

  // ---- the two forms of one date and time ----------------------------------------------------------------

  function Two(n: nat): seq<int>
    requires n < 100
  {
    [Digit0 + n / 10, Digit0 + n % 10]
  }

  function Octet(n: nat): Byte
    requires n < 100
  {
    n / 10 * 16 + n % 10
  }

  /** A date and time as a calendar and a clock show it. */
  predicate Real(y: nat, m: nat, d: nat, h: nat, i: nat, s: nat) {
    y < 10000 && 1 <= m <= 12 && 1 <= d <= DaysIn(y, m - 1) && h < 24 && i < 60 && s < 60
  }

  /** 2010-12-31T00:01:00Z, for example. */
  function Text(y: nat, m: nat, d: nat, h: nat, i: nat, s: nat): seq<int>
    requires Real(y, m, d, h, i, s)
  {
    Two(y / 100) + Two(y % 100) + [Dash] + Two(m) + [Dash] + Two(d) + [LetterT]
    + Two(h) + [Colon] + Two(i) + [Colon] + Two(s) + [LetterZ]
  }

  function Octets(y: nat, m: nat, d: nat, h: nat, i: nat): (o: seq<Byte>)
    requires Real(y, m, d, h, i, 0)
    ensures |o| == 6
  {
    [Octet(y / 100), Octet(y % 100), Octet(m), Octet(d), Octet(h), Octet(i)]
  }

  lemma {:induction false} DeletedConcat(a: seq<int>, b: seq<int>, c: int)
    ensures Deleted(a + b, c) == Deleted(a, c) + Deleted(b, c)
  {
    if a == [] {
      assert a + b == b;
    } else {
      assert (a + b)[1..] == a[1..] + b;
      DeletedConcat(a[1..], b, c);
    }
  }

  lemma DeletedAround(a: seq<int>, c: int, b: seq<int>)
    ensures Deleted(a + [c] + b, c) == Deleted(a, c) + Deleted(b, c)
  {
    assert Deleted([c], c) == [];
    hide Deleted;
    DeletedConcat(a + [c], b, c);
    DeletedConcat(a, [c], c);
  }

  lemma DeleteTwo(a: seq<int>, b: seq<int>, d: seq<int>, c: int)
    requires c !in a && c !in b && c !in d
    ensures Deleted(a + [c] + b + [c] + d, c) == a + b + d
  {
    DeletedAround(a + [c] + b, c, d);
    DeletedAround(a, c, b);
    DeletedNone(a, c);
    DeletedNone(b, c);
    DeletedNone(d, c);
    hide Deleted;
  }

  lemma DeleteLast(a: seq<int>, c: int)
    requires c !in a
    ensures Deleted(a + [c], c) == a
  {
    DeletedConcat(a, [c], c);
    DeletedNone(a, c);
    assert Deleted([c], c) == [];
  }

  lemma ReplaceOne(a: seq<int>, b: seq<int>, c: int, d: int)
    requires c !in a && c !in b
    ensures Replaced(a + [c] + b, c, d) == a + [d] + b
  {
    var s, t := a + [c] + b, a + [d] + b;
    forall i | 0 <= i < |s| ensures Replaced(s, c, d)[i] == t[i] {
      if i < |a| { assert s[i] == a[i]; } else if i > |a| { assert s[i] == b[i - |a| - 1]; }
    }
  }

  predicate Digits(s: seq<int>) { forall c :: c in s ==> IsDigit(c) }

  /** The four edits take the text of a date and time to YYYYMMDD:HHMMSS. */
  lemma EditedText(year: seq<int>, month: seq<int>, day: seq<int>, hour: seq<int>, minute: seq<int>, second: seq<int>)
    requires Digits(year) && Digits(month) && Digits(day) && Digits(hour) && Digits(minute) && Digits(second)
    ensures Edited(year + [Dash] + month + [Dash] + day + [LetterT] + hour + [Colon] + minute + [Colon] + second + [LetterZ])
      == year + month + day + [Colon] + hour + minute + second
  {
    hide Deleted, Replaced;
    var date := year + [Dash] + month + [Dash] + day + [LetterT] + hour;
    var text := date + [Colon] + minute + [Colon] + second + [LetterZ];
    assert text == date + [Colon] + minute + [Colon] + (second + [LetterZ]);
    DeleteTwo(date, minute, second + [LetterZ], Colon);
    var tail := day + [LetterT] + hour + minute + second + [LetterZ];
    assert date + minute + (second + [LetterZ]) == year + [Dash] + month + [Dash] + tail;
    DeleteTwo(year, month, tail, Dash);
    var time := hour + minute + second;
    assert year + month + tail == (year + month + day) + [LetterT] + (time + [LetterZ]);
    ReplaceOne(year + month + day, time + [LetterZ], LetterT, Colon);
    assert (year + month + day) + [Colon] + (time + [LetterZ]) == (year + month + day + [Colon] + time) + [LetterZ];
    DeleteLast(year + month + day + [Colon] + time, LetterZ);
    assert year + month + day + [Colon] + time == year + month + day + [Colon] + hour + minute + second;
  }

  lemma MonthAndDay(e: seq<int>, m: nat, d: nat)
    requires |e| >= 8 && 1 <= m <= 31 && 1 <= d <= 31 && m <= 12
    requires e[4..6] == Two(m) && e[6..8] == Two(d)
    ensures Decremented(e) == e[..4] + Two(m - 1) + Two(d - 1) + e[8..]
  {
    assert e[4] == e[4..6][0] && e[5] == e[4..6][1] && e[6] == e[6..8][0] && e[7] == e[6..8][1];
    assert d % 10 == 0 ==> d == 10 || d == 20 || d == 30;
  }

  lemma NumberOfTwo(e: seq<int>, k: nat, n: nat)
    requires n < 100 && k + 2 <= |e| && e[k..k + 2] == Two(n)
    ensures Number(e, k) == n && DigitPair(e, k)
  {
    assert e[k] == e[k..k + 2][0] && e[k + 1] == e[k..k + 2][1];
  }

  predicate DigitPair(e: seq<int>, k: nat)
    requires k + 2 <= |e|
  {
    IsDigit(e[k]) && IsDigit(e[k + 1])
  }

  lemma AllDigits(e: seq<int>)
    requires |e| == 15 && DigitPair(e, 0) && DigitPair(e, 2) && DigitPair(e, 4) && DigitPair(e, 6)
    requires DigitPair(e, 9) && DigitPair(e, 11) && DigitPair(e, 13)
    ensures DigitsAround(e)
  {
    hide IsDigit;
  }

  /** The platform's parser reads what the edits have made. */
  lemma ParsedFields(e: seq<int>, y: nat, m: nat, d: nat, h: nat, i: nat, s: nat)
    requires Real(y, m, d, h, i, s) && |e| == 15 && e[8] == Colon
    requires e[0..2] == Two(y / 100) && e[2..4] == Two(y % 100) && e[4..6] == Two(m - 1) && e[6..8] == Two(d - 1)
    requires e[9..11] == Two(h) && e[11..13] == Two(i) && e[13..15] == Two(s)
    ensures Parsed(e) == Time(DateTime(y, m - 1, d - 1, h, i))
  {
    assert DaysIn(y, m - 1) <= 31;
    hide Two, Number, DaysIn, DigitPair, DigitsAround;
    NumberOfTwo(e, 0, y / 100);
    NumberOfTwo(e, 2, y % 100);
    NumberOfTwo(e, 4, m - 1);
    NumberOfTwo(e, 6, d - 1);
    NumberOfTwo(e, 9, h);
    NumberOfTwo(e, 11, i);
    NumberOfTwo(e, 13, s);
    AllDigits(e);
  }

  lemma Slices(a: seq<int>, b: seq<int>, c: seq<int>, d: seq<int>, x: seq<int>, t: seq<int>, u: seq<int>, v: seq<int>)
    requires |a| == |b| == |c| == |d| == |t| == |u| == |v| == 2 && |x| == 1
    ensures var e := a + b + c + d + x + t + u + v;
      && |e| == 15 && e[0..2] == a && e[2..4] == b && e[4..6] == c && e[6..8] == d && e[8..9] == x && e[9..11] == t
      && e[11..13] == u && e[13..15] == v && e[..4] == a + b && e[8..] == x + t + u + v && e[8] == x[0]
  {}

  lemma Joined(a: seq<int>, b: seq<int>, c: seq<int>, d: seq<int>, x: seq<int>, t: seq<int>, u: seq<int>, v: seq<int>)
    ensures (a + b) + c + d + (x + t + u + v) == a + b + c + d + x + t + u + v
  {}

  lemma TextIsDecoded(y: nat, m: nat, d: nat, h: nat, i: nat, s: nat)
    requires Real(y, m, d, h, i, s)
    ensures TextDecoded(Text(y, m, d, h, i, s)) == Time(DateTime(y, m - 1, d - 1, h, i))
  {
    var a, b, t, u, v := Two(y / 100), Two(y % 100), Two(h), Two(i), Two(s);
    EditedText(a + b, Two(m), Two(d), t, u, v);
    assert |Text(y, m, d, h, i, s)| == 20;
    assert DaysIn(y, m - 1) <= 31;
    hide Two, Edited, DaysIn, Digits;
    var e := a + b + Two(m) + Two(d) + [Colon] + t + u + v;
    Slices(a, b, Two(m), Two(d), [Colon], t, u, v);
    MonthAndDay(e, m, d);
    Joined(a, b, Two(m - 1), Two(d - 1), [Colon], t, u, v);
    Slices(a, b, Two(m - 1), Two(d - 1), [Colon], t, u, v);
    hide Parsed, Decremented;
    ParsedFields(a + b + Two(m - 1) + Two(d - 1) + [Colon] + t + u + v, y, m, d, h, i, s);
  }

  lemma UpperAndLower(a: nat, b: nat)
    requires a < 16 && b < 16
    ensures (a * 16 + b) / 16 == a && (a * 16 + b) % 16 == b
  {}

  lemma DecimalOfOctet(n: nat)
    requires n < 100
    ensures Decimal(Octet(n)) == n && Upper(Octet(n)) == n / 10 && Lower(Octet(n)) == n % 10
  {
    UpperAndLower(n / 10, n % 10);
  }

  lemma YearOfOctets(y: nat)
    requires y < 10000
    ensures var a, b := Octet(y / 100), Octet(y % 100);
      1000 * Upper(a) + 100 * Lower(a) + 10 * Upper(b) + Lower(b) == y
  {
    DecimalOfOctet(y / 100);
    DecimalOfOctet(y % 100);
    hide Octet, Upper, Lower;
  }

  /** The octets hold these fields in their upper and lower bits. */
  predicate Holds(o: seq<Byte>, y: nat, m: nat, d: nat)
    requires |o| >= 4
  {
    1000 * Upper(o[0]) + 100 * Lower(o[0]) + 10 * Upper(o[1]) + Lower(o[1]) == y && Decimal(o[2]) == m && Decimal(o[3]) == d
  }

  lemma FieldsDecoded(o: seq<Byte>, y: nat, m: nat, d: nat, h: nat, i: nat)
    requires Real(y, m, d, h, i, 0) && |o| >= 4 && Holds(o, y, m, d)
    ensures |o| == 4 ==> OctetsDecoded(o) == Time(DateTime(y, m - 1, d - 1, 0, 0))
    ensures |o| >= 6 && Decimal(o[4]) == h && Decimal(o[5]) == i ==>
      OctetsDecoded(o) == Time(DateTime(y, m - 1, d - 1, h, i))
  {
    hide Upper, Lower, Decimal, DaysIn;
  }

  lemma RealIsSmall(y: nat, m: nat, d: nat, h: nat, i: nat)
    requires Real(y, m, d, h, i, 0)
    ensures y < 10000 && m < 100 && d < 100 && h < 100 && i < 100
  {
    assert DaysIn(y, m - 1) <= 31;
    hide DaysIn;
  }

  lemma OctetsHoldDate(y: nat, m: nat, d: nat, o: seq<Byte>)
    requires y < 10000 && m < 100 && d < 100 && |o| >= 4
    requires o[0] == Octet(y / 100) && o[1] == Octet(y % 100) && o[2] == Octet(m) && o[3] == Octet(d)
    ensures Holds(o, y, m, d)
  {
    YearOfOctets(y);
    DecimalOfOctet(m);
    DecimalOfOctet(d);
    hide Upper, Lower, Decimal, Octet;
  }

  lemma OctetsHold(y: nat, m: nat, d: nat, h: nat, i: nat)
    requires Real(y, m, d, h, i, 0)
    ensures var o := Octets(y, m, d, h, i); Holds(o, y, m, d) && Decimal(o[4]) == h && Decimal(o[5]) == i
  {
    RealIsSmall(y, m, d, h, i);
    hide Upper, Lower, Decimal, Octet, Real, Holds;
    OctetsHoldDate(y, m, d, Octets(y, m, d, h, i));
    DecimalOfOctet(h);
    DecimalOfOctet(i);
  }

  lemma OctetsAreDecoded(y: nat, m: nat, d: nat, h: nat, i: nat, rest: seq<Byte>)
    requires Real(y, m, d, h, i, 0)
    ensures OctetsDecoded(Octets(y, m, d, h, i) + rest) == Time(DateTime(y, m - 1, d - 1, h, i))
    ensures h == 0 && i == 0 ==> OctetsDecoded(Octets(y, m, d, h, i)[..4]) == Time(DateTime(y, m - 1, d - 1, h, i))
  {
    OctetsHold(y, m, d, h, i);
    var o := Octets(y, m, d, h, i);
    hide Octets, Upper, Lower, Decimal, DaysIn, OctetsDecoded;
    FieldsDecoded(o + rest, y, m, d, h, i);
    FieldsDecoded(o[..4], y, m, d, h, i);
  }

  /** Main result.  For every real date and time, the text and the octets (six or more of them, or
      four at midnight) are decoded to the same year, month, day, hour and minute, with month and day
      counted from zero. */
  lemma DecodersAgree(y: nat, m: nat, d: nat, h: nat, i: nat, s: nat, rest: seq<Byte>)
    requires Real(y, m, d, h, i, s)
    ensures TextDecoded(Text(y, m, d, h, i, s)) == OctetsDecoded(Octets(y, m, d, h, i) + rest)
      == Time(DateTime(y, m - 1, d - 1, h, i))
    ensures h == 0 && i == 0 ==> OctetsDecoded(Octets(y, m, d, h, i)[..4]) == TextDecoded(Text(y, m, d, h, i, s))
  {
    TextIsDecoded(y, m, d, h, i, s);
    OctetsAreDecoded(y, m, d, h, i, rest);
  }

  /** The octets hold decimal digits. */
  predicate Digital(o: seq<Byte>) { forall i :: 0 <= i < |o| ==> Upper(o[i]) < 10 && Lower(o[i]) < 10 }

  function YearOf(o: seq<Byte>): int
    requires |o| >= 2
  {
    100 * Decimal(o[0]) + Decimal(o[1])
  }

  /** Decimal octets are decoded exactly if they are those of a real date and time; otherwise the first
      field that is wrong, from the month on, is named. */
  lemma OctetsDecodeIfReal(o: seq<Byte>)
    requires |o| >= 6 && Digital(o)
    ensures var y, m, d, h, i := YearOf(o), Decimal(o[2]), Decimal(o[3]), Decimal(o[4]), Decimal(o[5]);
      && (OctetsDecoded(o).Time? <==> y >= 0 && m >= 0 && d >= 0 && h >= 0 && i >= 0 && Real(y, m, d, h, i, 0))
      && (OctetsDecoded(o) == Leaves(InvalidMonth) <==> !(1 <= m <= 12))
      && (OctetsDecoded(o) == Leaves(InvalidDay) <==> y >= 0 && 1 <= m <= 12 && !(1 <= d <= DaysIn(y, m - 1)))
      && (OctetsDecoded(o) == Leaves(InvalidHour) <==> y >= 0 && 1 <= m <= 12 && 1 <= d <= DaysIn(y, m - 1) && h >= 24)
      && !OctetsDecoded(o).Unset?
  {
    DigitalIsSmall(o, 0);
    DigitalIsSmall(o, 1);
    DigitalIsSmall(o, 2);
    DigitalIsSmall(o, 3);
    DigitalIsSmall(o, 4);
    DigitalIsSmall(o, 5);
    hide Upper, Lower, DaysIn, Digital;
  }

  lemma DigitalIsSmall(o: seq<Byte>, k: nat)
    requires Digital(o) && k < |o|
    ensures 0 <= Decimal(o[k]) < 100 && Upper(o[k]) >= 0 && Lower(o[k]) >= 0
  {}
}
