/** Removing duplicate recipients: within each address field, and from the later of two fields. */
module Duplicates {
  import opened Recipients

  predicate Named(r: Recipient) { r.name != "" }

  function Without(rs: seq<Recipient>, k: nat): seq<Recipient>
    requires k < |rs|
  {
    rs[..k] + rs[k + 1..]
  }

  // ---- one field ---------------------------------------------------------------------------------

  /** The inner loop from j on: the entry at i against the later ones.  Deleting the entry at i puts
      another one in its place, which is not compared with the entries before j. */
  function Sweep(rs: seq<Recipient>, i: nat, j: nat): (r: seq<Recipient>)
    requires i < j <= |rs|
    ensures i < |r| <= |rs|
    decreases |rs| - j
  {
    if j == |rs| then rs
    else if rs[i].address == rs[j].address then
      if Named(rs[i]) then Sweep(Without(rs, j), i, j) else Sweep(Without(rs, i), i, j)
    else Sweep(rs, i, j + 1)
  }

  function RemoveFrom(rs: seq<Recipient>, i: nat): seq<Recipient>
    decreases |rs| - i
  {
    if i >= |rs| then rs else RemoveFrom(Sweep(rs, i, i + 1), i + 1)
  }

  method RemoveDuplicates(field: AddressField)
    modifies field
    ensures field.recs == RemoveFrom(old(field.recs), 0)
  {
    var count := |field.recs|;
    var i := 0;
    while i < count
      invariant 0 <= i && count == |field.recs|
      invariant RemoveFrom(field.recs, i) == RemoveFrom(old(field.recs), 0)
      decreases count - i
    {
      ghost var swept := Sweep(field.recs, i, i + 1);
      ghost var before := count;
      var j := i + 1;
      while j < count
        invariant i < j <= count == |field.recs| <= before
        invariant Sweep(field.recs, i, j) == swept
        decreases count - j
      {
        if field.recs[i].address == field.recs[j].address {
          if Named(field.recs[i]) {
            field.recs := field.recs[..j] + field.recs[j + 1..];
          } else {
            field.recs := field.recs[..i] + field.recs[i + 1..];
          }
          count := |field.recs|;
        } else {
          j := j + 1;
        }
      }
      i := i + 1;
    }
  }

  // ---- what removal keeps ----------------------------------------------------------------------------

  predicate Subsequence(s: seq<Recipient>, t: seq<Recipient>) {
    s == [] || (t != [] && (if s[0] == t[0] then Subsequence(s[1..], t[1..]) else Subsequence(s, t[1..])))
  }

  lemma {:induction false} SubsequenceTail(s: seq<Recipient>, t: seq<Recipient>)
    requires s != [] && Subsequence(s, t)
    ensures Subsequence(s[1..], t)
    decreases |t|, 0
  {
    if s[0] == t[0] {
      SubsequenceSkip(s[1..], t[1..], t[0]);
      assert [t[0]] + t[1..] == t;
    } else {
      SubsequenceTail(s, t[1..]);
      SubsequenceSkip(s[1..], t[1..], t[0]);
      assert [t[0]] + t[1..] == t;
    }
  }

  lemma {:induction false} SubsequenceSkip(s: seq<Recipient>, t: seq<Recipient>, x: Recipient)
    requires Subsequence(s, t)
    ensures Subsequence(s, [x] + t)
    decreases |t|, 1
  {
    assert ([x] + t)[1..] == t;
    if s != [] && s[0] == x { SubsequenceTail(s, t); }
  }

  lemma {:induction false} SubsequenceTransitive(s: seq<Recipient>, t: seq<Recipient>, u: seq<Recipient>)
    requires Subsequence(s, t) && Subsequence(t, u)
    ensures Subsequence(s, u)
    decreases |u|
  {
    if s != [] {
      if t[0] == u[0] {
        if s[0] == t[0] { SubsequenceTransitive(s[1..], t[1..], u[1..]); }
        else { SubsequenceTransitive(s, t[1..], u[1..]); }
      } else {
        SubsequenceTransitive(s, t, u[1..]);
        SubsequenceSkip(s, u[1..], u[0]);
        assert [u[0]] + u[1..] == u;
      }
    }
  }

  lemma {:induction false} SubsequenceSelf(s: seq<Recipient>)
    ensures Subsequence(s, s)
  {
    if s != [] { SubsequenceSelf(s[1..]); }
  }

  lemma {:induction false} WithoutIsSubsequence(s: seq<Recipient>, k: nat)
    requires k < |s|
    ensures Subsequence(Without(s, k), s)
    decreases |s|
  {
    if k == 0 {
      SubsequenceSelf(s[1..]);
      SubsequenceSkip(s[1..], s[1..], s[0]);
      assert Without(s, 0) == s[1..] && [s[0]] + s[1..] == s;
    } else {
      WithoutIsSubsequence(s[1..], k - 1);
      assert Without(s, k)[1..] == Without(s[1..], k - 1);
    }
  }

  /** q has r's address, and a name if r has one. */
  predicate StandsFor(q: Recipient, r: Recipient) { q.address == r.address && (Named(r) ==> Named(q)) }

  ghost predicate Represents(s: seq<Recipient>, r: Recipient) { exists q :: q in s && StandsFor(q, r) }

  ghost predicate Keeps(s: seq<Recipient>, t: seq<Recipient>) {
    Subsequence(s, t) && forall r :: r in t ==> Represents(s, r)
  }

  lemma KeepsTransitive(s: seq<Recipient>, t: seq<Recipient>, u: seq<Recipient>)
    requires Keeps(s, t) && Keeps(t, u)
    ensures Keeps(s, u)
  {
    SubsequenceTransitive(s, t, u);
    forall r | r in u ensures Represents(s, r) {
      var q :| q in t && StandsFor(q, r);
      var p :| p in s && StandsFor(p, q);
      assert StandsFor(p, r);
    }
  }

  lemma KeepsSelf(s: seq<Recipient>)
    ensures Keeps(s, s)
  {
    SubsequenceSelf(s);
    forall r | r in s ensures Represents(s, r) { assert StandsFor(r, r); }
  }

  /** One deletion: another entry stays that stands for the deleted one. */
  lemma DeletionKeeps(s: seq<Recipient>, k: nat, other: nat)
    requires k < |s| && other < |s| && k != other && StandsFor(s[other], s[k])
    ensures Keeps(Without(s, k), s)
  {
    WithoutIsSubsequence(s, k);
    var t := Without(s, k);
    assert t[if other < k then other else other - 1] == s[other];
    forall r | r in s ensures Represents(t, r) {
      var i :| 0 <= i < |s| && s[i] == r;
      if i == k {
        assert s[other] in t;
      } else {
        assert t[if i < k then i else i - 1] == r && StandsFor(r, r);
      }
    }
  }

  lemma {:induction false} SweepKeeps(rs: seq<Recipient>, i: nat, j: nat)
    requires i < j <= |rs|
    ensures Keeps(Sweep(rs, i, j), rs)
    decreases |rs| - j
  {
    hide Keeps;
    if j == |rs| {
      KeepsSelf(rs);
    } else if rs[i].address == rs[j].address {
      if Named(rs[i]) {
        DeletionKeeps(rs, j, i);
        SweepKeeps(Without(rs, j), i, j);
        KeepsTransitive(Sweep(rs, i, j), Without(rs, j), rs);
      } else {
        DeletionKeeps(rs, i, j);
        SweepKeeps(Without(rs, i), i, j);
        KeepsTransitive(Sweep(rs, i, j), Without(rs, i), rs);
      }
    } else {
      SweepKeeps(rs, i, j + 1);
    }
  }

  /** Main result, for every field: what is left is a subsequence, with an entry for every address
      that was there, and a named one for every address that had a named one. */
  lemma {:induction false} RemovalKeepsAddresses(rs: seq<Recipient>, i: nat)
    ensures var s := RemoveFrom(rs, i);
      && Subsequence(s, rs)
      && (forall r :: r in rs ==> exists q :: q in s && q.address == r.address && (Named(r) ==> Named(q)))
    decreases |rs| - i
  {
    RemovalKeeps(rs, i);
    forall r | r in rs ensures exists q :: q in RemoveFrom(rs, i) && q.address == r.address && (Named(r) ==> Named(q)) {
      assert Represents(RemoveFrom(rs, i), r);
    }
  }

  lemma {:induction false} RemovalKeeps(rs: seq<Recipient>, i: nat)
    ensures Keeps(RemoveFrom(rs, i), rs)
    decreases |rs| - i
  {
    hide Keeps;
    if i < |rs| {
      SweepKeeps(rs, i, i + 1);
      RemovalKeeps(Sweep(rs, i, i + 1), i + 1);
      KeepsTransitive(RemoveFrom(rs, i), Sweep(rs, i, i + 1), rs);
    } else {
      KeepsSelf(rs);
    }
  }

  // ---- named entries ------------------------------------------------------------------------------------

  /** All entries but those with address a. */
  function Drop(rs: seq<Recipient>, a: string): (r: seq<Recipient>)
    ensures |r| <= |rs|
  {
    if rs == [] then [] else (if rs[0].address == a then [] else [rs[0]]) + Drop(rs[1..], a)
  }

  lemma {:induction false} DropMembers(rs: seq<Recipient>, a: string)
    ensures forall x :: x in Drop(rs, a) <==> x in rs && x.address != a
  {
    if rs != [] {
      DropMembers(rs[1..], a);
      assert rs == [rs[0]] + rs[1..];
    }
  }

  /** The first entry of each address, in order. */
  function FirstOccurrences(rs: seq<Recipient>): seq<Recipient>
    decreases |rs|
  {
    if rs == [] then [] else [rs[0]] + FirstOccurrences(Drop(rs[1..], rs[0].address))
  }

  function FirstWith(rs: seq<Recipient>, a: string): Option<Recipient> {
    if rs == [] then None else if rs[0].address == a then Some(rs[0]) else FirstWith(rs[1..], a)
  }

  ghost predicate Unique(rs: seq<Recipient>) {
    forall i, j :: 0 <= i < j < |rs| ==> rs[i].address != rs[j].address
  }

  ghost predicate AllNamed(rs: seq<Recipient>) { forall r :: r in rs ==> Named(r) }

  lemma {:induction false} DropKeepsFirst(rs: seq<Recipient>, a: string, b: string)
    requires a != b
    ensures FirstWith(Drop(rs, a), b) == FirstWith(rs, b)
  {
    if rs != [] {
      DropKeepsFirst(rs[1..], a, b);
      var tail := Drop(rs[1..], a);
      assert ([rs[0]] + tail)[1..] == tail && [] + tail == tail;
    }
  }

  /** FirstOccurrences is what its name says. */
  lemma {:induction false} FirstOccurrencesAre(rs: seq<Recipient>)
    ensures Unique(FirstOccurrences(rs))
    ensures forall x :: x in FirstOccurrences(rs) ==> x in rs
    ensures forall a :: FirstWith(FirstOccurrences(rs), a) == FirstWith(rs, a)
    decreases |rs|
  {
    if rs != [] {
      var tail := FirstOccurrences(Drop(rs[1..], rs[0].address));
      FirstOccurrencesAre(Drop(rs[1..], rs[0].address));
      DropMembers(rs[1..], rs[0].address);
      assert ([rs[0]] + tail)[1..] == tail;
      forall a ensures FirstWith([rs[0]] + tail, a) == FirstWith(rs, a) {
        if a != rs[0].address { DropKeepsFirst(rs[1..], rs[0].address, a); }
      }
      forall i, j | 0 <= i < j < |[rs[0]] + tail|
        ensures ([rs[0]] + tail)[i].address != ([rs[0]] + tail)[j].address {
        assert tail[j - 1] in tail;
      }
    }
  }

  lemma DropCons(x: Recipient, t: seq<Recipient>, a: string)
    ensures Drop([x] + t, a) == (if x.address == a then [] else [x]) + Drop(t, a)
  {
    assert ([x] + t)[1..] == t;
  }

  lemma {:induction false} SweepNamed(rs: seq<Recipient>, i: nat, j: nat)
    requires i < j <= |rs| && Named(rs[i])
    ensures Sweep(rs, i, j) == rs[..j] + Drop(rs[j..], rs[i].address)
    decreases |rs| - j
  {
    var a := rs[i].address;
    if j == |rs| {
      assert rs[j..] == [] && rs[..j] == rs;
    } else {
      DropCons(rs[j], rs[j + 1..], a);
      assert rs[j..] == [rs[j]] + rs[j + 1..];
      if rs[j].address == a {
        var t := Without(rs, j);
        assert Sweep(rs, i, j) == Sweep(t, i, j);
        hide Drop, Sweep;
        assert t[..j] == rs[..j] && t[j..] == rs[j + 1..];
        SweepNamed(t, i, j);
      } else {
        hide Drop;
        SweepNamed(rs, i, j + 1);
        assert rs[..j + 1] == rs[..j] + [rs[j]];
      }
    }
  }

  lemma FirstOccurrencesStep(rs: seq<Recipient>, i: nat)
    requires i < |rs|
    ensures rs[..i] + FirstOccurrences(rs[i..])
      == rs[..i + 1] + FirstOccurrences(Drop(rs[i + 1..], rs[i].address))
  {
    var tail := rs[i..];
    assert tail[1..] == rs[i + 1..];
    assert FirstOccurrences(tail) == [rs[i]] + FirstOccurrences(Drop(rs[i + 1..], rs[i].address));
    assert rs[..i + 1] == rs[..i] + [rs[i]];
  }

  lemma SweptIsNamed(rs: seq<Recipient>, i: nat)
    requires AllNamed(rs) && i < |rs|
    ensures var rest := Drop(rs[i + 1..], rs[i].address); var s := Sweep(rs, i, i + 1);
      && s == rs[..i + 1] + rest && AllNamed(s) && s[..i + 1] == rs[..i + 1] && s[i + 1..] == rest
  {
    assert rs[i] in rs;
    SweepNamed(rs, i, i + 1);
    DropMembers(rs[i + 1..], rs[i].address);
    hide Sweep, Drop;
    var s := rs[..i + 1] + Drop(rs[i + 1..], rs[i].address);
    forall r | r in s ensures r in rs {}
  }

  lemma {:induction false} RemoveNamed(rs: seq<Recipient>, i: nat)
    requires AllNamed(rs) && i <= |rs|
    ensures RemoveFrom(rs, i) == rs[..i] + FirstOccurrences(rs[i..])
    decreases |rs| - i
  {
    if i < |rs| {
      hide FirstOccurrences, Sweep, AllNamed;
      SweptIsNamed(rs, i);
      RemoveNamed(Sweep(rs, i, i + 1), i + 1);
      FirstOccurrencesStep(rs, i);
    } else {
      assert rs[i..] == [] && rs[..i] == rs;
    }
  }

  /** Main result: if every entry has a name, removal leaves exactly the first entry of each address. */
  lemma NamedFieldKeepsFirstOccurrences(rs: seq<Recipient>)
    requires AllNamed(rs)
    ensures RemoveFrom(rs, 0) == FirstOccurrences(rs) && Unique(RemoveFrom(rs, 0))
    ensures forall a :: FirstWith(RemoveFrom(rs, 0), a) == FirstWith(rs, a)
  {
    RemoveNamed(rs, 0);
    assert rs[..0] == [] && rs[0..] == rs;
    FirstOccurrencesAre(rs);
  }

  // ---- entries without a name ------------------------------------------------------------------------------

  /** The address does not occur in rs. */
  predicate Gone(rs: seq<Recipient>, a: string) { forall r :: r in rs ==> r.address != a }

  /** Every entry without a name is the last of its address, or the next entry has its address too. */
  predicate Tidy(rs: seq<Recipient>) {
    rs == [] || ((Named(rs[0]) || Gone(rs[1..], rs[0].address) || rs[1].address == rs[0].address) && Tidy(rs[1..]))
  }

  lemma {:induction false} NamedIsTidy(rs: seq<Recipient>)
    requires AllNamed(rs)
    ensures Tidy(rs)
  {
    if rs != [] { NamedIsTidy(rs[1..]); }
  }

  lemma {:induction false} DropIsTidy(rs: seq<Recipient>, a: string)
    requires Tidy(rs)
    ensures Tidy(Drop(rs, a))
  {
    if rs != [] {
      DropIsTidy(rs[1..], a);
      DropMembers(rs[1..], a);
      var tail := Drop(rs[1..], a);
      if rs[0].address != a {
        assert ([rs[0]] + tail)[1..] == tail;
        if |rs| > 1 && rs[1].address == rs[0].address {
          DropCons(rs[1], rs[2..], a);
          assert rs[1..] == [rs[1]] + rs[2..];
        }
      } else {
        assert [] + tail == tail;
      }
    }
  }

  /** What a tidy field comes to: one entry for each address, the first with a name or the last of the
      neighbours without. */
  function TidyResult(rs: seq<Recipient>): seq<Recipient>
    decreases |rs|
  {
    if rs == [] then []
    else if !Named(rs[0]) && |rs| > 1 && rs[1].address == rs[0].address then TidyResult(rs[1..])
    else [rs[0]] + TidyResult(Drop(rs[1..], rs[0].address))
  }

  lemma SweepGone(rs: seq<Recipient>, i: nat, j: nat)
    requires i < j <= |rs| && Gone(rs[j..], rs[i].address)
    ensures Sweep(rs, i, j) == rs
    decreases |rs| - j
  {
    if j < |rs| {
      assert rs[j] in rs[j..];
      forall r | r in rs[j + 1..] ensures r in rs[j..] {}
      SweepGone(rs, i, j + 1);
    }
  }

  lemma {:induction false} TidyIsUnique(rs: seq<Recipient>)
    requires Tidy(rs)
    ensures Unique(TidyResult(rs)) && forall r :: r in TidyResult(rs) ==> r in rs
    decreases |rs|
  {
    if rs != [] {
      assert rs == [rs[0]] + rs[1..];
      if !Named(rs[0]) && |rs| > 1 && rs[1].address == rs[0].address {
        TidyIsUnique(rs[1..]);
      } else {
        var rest := Drop(rs[1..], rs[0].address);
        DropIsTidy(rs[1..], rs[0].address);
        DropMembers(rs[1..], rs[0].address);
        TidyIsUnique(rest);
        var tail := TidyResult(rest);
        forall i, j | 0 <= i < j < |[rs[0]] + tail|
          ensures ([rs[0]] + tail)[i].address != ([rs[0]] + tail)[j].address {
          assert tail[j - 1] in tail;
        }
      }
    }
  }

  /** The first pass over a tidy rest: its head gives way to a neighbour, or all duplicates of it go. */
  lemma SweepTidy(rs: seq<Recipient>, i: nat)
    requires i < |rs| && Tidy(rs[i..])
    ensures var a := rs[i].address;
      if !Named(rs[i]) && i + 1 < |rs| && rs[i + 1].address == a
      then Sweep(rs, i, i + 1) == Sweep(Without(rs, i), i, i + 1)
      else Sweep(rs, i, i + 1) == rs[..i + 1] + Drop(rs[i + 1..], a)
  {
    var a := rs[i].address;
    var rest := rs[i..];
    assert rest[0] == rs[i] && rest[1..] == rs[i + 1..];
    if Named(rs[i]) {
      SweepNamed(rs, i, i + 1);
    } else if i + 1 < |rs| && rs[i + 1].address == a {
    } else {
      assert i + 1 < |rs| ==> rest[1] == rs[i + 1];
      assert Gone(rs[i + 1..], a);
      SweepGone(rs, i, i + 1);
      DropNone(rs[i + 1..], a);
    }
  }

  /** The head of the rest gives way to its neighbour. */
  lemma HeadGivesWay(rs: seq<Recipient>, i: nat)
    requires i + 1 < |rs| && Tidy(rs[i..]) && !Named(rs[i]) && rs[i + 1].address == rs[i].address
    ensures var t := Without(rs, i);
      && RemoveFrom(rs, i) == RemoveFrom(t, i) && t[i..] == rs[i + 1..] && t[..i] == rs[..i]
      && Tidy(t[i..]) && TidyResult(rs[i..]) == TidyResult(t[i..])
  {
    SweepTidy(rs, i);
    var t, rest := Without(rs, i), rs[i..];
    assert rest[0] == rs[i] && rest[1] == rs[i + 1] && rest[1..] == rs[i + 1..];
    assert t[i..] == rs[i + 1..] && t[..i] == rs[..i];
    hide Sweep;
  }

  /** The head of the rest stays, and its duplicates go. */
  lemma HeadStays(rs: seq<Recipient>, i: nat)
    requires i < |rs| && Tidy(rs[i..]) && (Named(rs[i]) || i + 1 == |rs| || rs[i + 1].address != rs[i].address)
    ensures var s := Sweep(rs, i, i + 1);
      && RemoveFrom(rs, i) == RemoveFrom(s, i + 1) && |s| <= |rs| && s[..i + 1] == rs[..i] + [rs[i]]
      && Tidy(s[i + 1..]) && TidyResult(rs[i..]) == [rs[i]] + TidyResult(s[i + 1..])
  {
    SweepTidy(rs, i);
    var rest, after := rs[i..], Drop(rs[i + 1..], rs[i].address);
    assert rest[0] == rs[i] && rest[1..] == rs[i + 1..];
    assert i + 1 < |rs| ==> rest[1] == rs[i + 1];
    DropIsTidy(rs[i + 1..], rs[i].address);
    hide Sweep, Drop;
    assert (rs[..i + 1] + after)[i + 1..] == after && (rs[..i + 1] + after)[..i + 1] == rs[..i] + [rs[i]];
  }

  lemma {:induction false} RemoveTidy(rs: seq<Recipient>, i: nat)
    requires i <= |rs| && Tidy(rs[i..])
    ensures RemoveFrom(rs, i) == rs[..i] + TidyResult(rs[i..])
    decreases |rs|, |rs| - i
  {
    if i == |rs| {
      assert rs[i..] == [] && rs[..i] == rs;
    } else {
      hide Tidy, Sweep, RemoveFrom, TidyResult;
      if !Named(rs[i]) && i + 1 < |rs| && rs[i + 1].address == rs[i].address {
        HeadGivesWay(rs, i);
        RemoveTidy(Without(rs, i), i);
      } else {
        HeadStays(rs, i);
        RemoveTidy(Sweep(rs, i, i + 1), i + 1);
      }
    }
  }

  /** Main result beyond named fields: if every entry without a name is the last of its address or
      directly followed by its next occurrence, removal leaves no duplicates. */
  lemma TidyFieldLosesDuplicates(rs: seq<Recipient>)
    requires Tidy(rs)
    ensures RemoveFrom(rs, 0) == TidyResult(rs) && Unique(RemoveFrom(rs, 0))
  {
    RemoveTidy(rs, 0);
    TidyIsUnique(rs);
    assert rs[0..] == rs && rs[..0] == [];
  }

  /** Without names duplicates can survive: A, B, B, A becomes B, B, A. */
  lemma UnnamedDuplicatesSurvive(a: string, b: string, x: Recipient, y: Recipient)
    requires a != b && x == Recipient("", a, false, false) && y == Recipient("", b, false, false)
    ensures RemoveFrom([x, y, y, x], 0) == [y, y, x]
  {
    var s := [x, y, y, x];
    assert Without(s, 0) == [y, y, x];
    assert Sweep(s, 0, 1) == Sweep(s, 0, 2) == Sweep(s, 0, 3) == Sweep([y, y, x], 0, 3) == [y, y, x];
    assert Sweep([y, y, x], 1, 2) == Sweep([y, y, x], 1, 3) == [y, y, x];
    assert Sweep([y, y, x], 2, 3) == [y, y, x];
    assert RemoveFrom([y, y, x], 3) == [y, y, x];
    assert RemoveFrom([y, y, x], 2) == [y, y, x];
    assert RemoveFrom([y, y, x], 1) == [y, y, x];
  }

  // ---- two fields ------------------------------------------------------------------------------------------

  predicate OccursAt(a: string, b: string, k: int) { 0 <= k <= |a| - |b| && a[k..k + |b|] == b }

  /** FindF: case is folded before looking. */
  ghost predicate Finds(fold: string -> string, a: string, b: string) {
    exists k :: OccursAt(fold(a), fold(b), k)
  }

  method FindF(fold: string -> string, a: string, b: string) returns (found: bool)
    ensures found <==> Finds(fold, a, b)
  {
    var s, t := fold(a), fold(b);
    var k := 0;
    while k + |t| <= |s|
      invariant 0 <= k
      invariant forall i :: 0 <= i < k ==> !OccursAt(s, t, i)
    {
      if s[k..k + |t|] == t {
        assert OccursAt(s, t, k);
        return true;
      }
      k := k + 1;
    }
    return false;
  }

  /** The first entry whose address is found in a is deleted. */
  ghost function RemoveFound(fold: string -> string, a: string, later: seq<Recipient>): seq<Recipient> {
    if later == [] then []
    else if Finds(fold, a, later[0].address) then later[1..]
    else [later[0]] + RemoveFound(fold, a, later[1..])
  }

  ghost function RemoveAllFound(fold: string -> string, rs: seq<Recipient>, later: seq<Recipient>): seq<Recipient> {
    if rs == [] then later else RemoveAllFound(fold, rs[1..], RemoveFound(fold, rs[0].address, later))
  }

  lemma {:induction false} RemoveFoundAt(fold: string -> string, a: string, later: seq<Recipient>, j: nat)
    requires j <= |later| && forall i :: 0 <= i < j ==> !Finds(fold, a, later[i].address)
    ensures j < |later| && Finds(fold, a, later[j].address) ==> RemoveFound(fold, a, later) == Without(later, j)
    ensures j == |later| ==> RemoveFound(fold, a, later) == later
  {
    hide Finds;
    if j > 0 {
      RemoveFoundAt(fold, a, later[1..], j - 1);
      assert later == [later[0]] + later[1..];
      if j < |later| { assert Without(later, j) == [later[0]] + Without(later[1..], j - 1); }
    } else if later != [] {
      assert Without(later, 0) == later[1..];
    }
  }

  /** One entry of the earlier field against the later one. */
  method RemoveFirstFound(fold: string -> string, a: string, later: AddressField)
    modifies later
    ensures later.recs == RemoveFound(fold, a, old(later.recs))
  {
    hide Finds, RemoveFound;
    var j := 0;
    while j < |later.recs|
      invariant 0 <= j <= |later.recs| && later.recs == old(later.recs)
      invariant forall i :: 0 <= i < j ==> !Finds(fold, a, later.recs[i].address)
    {
      var found := FindF(fold, a, later.recs[j].address);
      if found {
        RemoveFoundAt(fold, a, later.recs, j);
        later.recs := later.recs[..j] + later.recs[j + 1..];
        return;
      }
      j := j + 1;
    }
    RemoveFoundAt(fold, a, later.recs, j);
  }

  method RemoveDuplicatesBetween(fold: string -> string, field: AddressField, later: AddressField)
    requires field != later
    modifies later
    ensures later.recs == RemoveAllFound(fold, field.recs, old(later.recs))
  {
    var i := 0;
    assert field.recs[0..] == field.recs;
    while i < |field.recs|
      invariant 0 <= i <= |field.recs| && field.recs == old(field.recs)
      invariant RemoveAllFound(fold, field.recs[i..], later.recs) == RemoveAllFound(fold, field.recs, old(later.recs))
    {
      assert field.recs[i..][1..] == field.recs[i + 1..];
      RemoveFirstFound(fold, field.recs[i].address, later);
      i := i + 1;
    }
  }

  // ---- the three fields ---------------------------------------------------------------------------------------

  datatype Fields = Fields(to: seq<Recipient>, cc: seq<Recipient>, bcc: seq<Recipient>)

  ghost function Cleaned(fold: string -> string, f: Fields): Fields {
    var to, cc, bcc := RemoveFrom(f.to, 0), RemoveFrom(f.cc, 0), RemoveFrom(f.bcc, 0);
    var cc' := RemoveAllFound(fold, to, cc);
    Fields(to, cc', RemoveAllFound(fold, cc', RemoveAllFound(fold, to, bcc)))
  }

  /** The fields the mail has, and what is in them. */
  class Header {
    const to: AddressField?
    const cc: AddressField?
    const bcc: AddressField?

    constructor (t: AddressField?, c: AddressField?, b: AddressField?)
      ensures to == t && cc == c && bcc == b
    {
      to, cc, bcc := t, c, b;
    }

    ghost predicate Valid() { (to != null ==> to != cc && to != bcc) && (cc != null ==> cc != bcc) }

    ghost function Contents(): Fields
      reads to, cc, bcc
    {
      Fields(if to == null then [] else to.recs, if cc == null then [] else cc.recs, if bcc == null then [] else bcc.recs)
    }

    method DoRemoveDuplicates(fold: string -> string)
      requires Valid()
      modifies to, cc, bcc
      ensures Contents() == Cleaned(fold, old(Contents()))
    {
      if to != null { RemoveDuplicates(to); }
      if cc != null { RemoveDuplicates(cc); }
      if bcc != null { RemoveDuplicates(bcc); }
      if to != null && cc != null { RemoveDuplicatesBetween(fold, to, cc); }
      if to != null && bcc != null { RemoveDuplicatesBetween(fold, to, bcc); }
      if cc != null && bcc != null { RemoveDuplicatesBetween(fold, cc, bcc); }
      NothingFromNothing(fold, if to == null then [] else to.recs);
      NothingFromNothing(fold, if cc == null then [] else cc.recs);
    }
  }

  lemma {:induction false} NothingFromNothing(fold: string -> string, rs: seq<Recipient>)
    ensures RemoveAllFound(fold, rs, []) == []
  {
    if rs != [] { NothingFromNothing(fold, rs[1..]); }
  }

  ghost function Addresses(rs: seq<Recipient>): set<string> { set r | r in rs :: r.address }

  /** No address of s, after folding, occurs in another. */
  ghost predicate Plain(fold: string -> string, s: set<string>) {
    forall a, b :: a in s && b in s && Finds(fold, a, b) ==> a == b
  }

  lemma {:induction false} RemoveFoundPlain(fold: string -> string, a: string, later: seq<Recipient>)
    requires Unique(later) && Plain(fold, {a} + Addresses(later))
    ensures RemoveFound(fold, a, later) == Drop(later, a)
  {
    if later != [] {
      var b := later[0].address;
      FindsItself(fold, a);
      assert b in Addresses(later);
      forall r | r in later[1..] ensures r.address != b && r.address in Addresses(later) {
        var i :| 0 <= i < |later[1..]| && later[1..][i] == r;
        assert later[i + 1] == r;
      }
      if Finds(fold, a, b) {
        DropNone(later[1..], a);
      } else {
        assert Addresses(later[1..]) <= Addresses(later);
        RemoveFoundPlain(fold, a, later[1..]);
      }
    }
  }

  lemma FindsItself(fold: string -> string, a: string)
    ensures Finds(fold, a, a)
  {
    var s := fold(a);
    assert s[0..0 + |s|] == s && OccursAt(s, s, 0);
  }

  lemma {:induction false} DropNone(rs: seq<Recipient>, a: string)
    requires forall r :: r in rs ==> r.address != a
    ensures Drop(rs, a) == rs
  {
    if rs != [] { DropNone(rs[1..], a); }
  }

  lemma {:induction false} DropUnique(rs: seq<Recipient>, a: string)
    requires Unique(rs)
    ensures Unique(Drop(rs, a)) && Addresses(Drop(rs, a)) == Addresses(rs) - {a}
  {
    if rs != [] {
      DropUnique(rs[1..], a);
      DropMembers(rs[1..], a);
      DropMembers(rs, a);
      var tail := Drop(rs[1..], a);
      forall x | x in tail ensures x.address != rs[0].address {
        var i :| 0 <= i < |rs[1..]| && rs[1..][i] == x;
        assert rs[i + 1] == x;
      }
    }
  }

  lemma {:induction false} RemoveAllPlain(fold: string -> string, rs: seq<Recipient>, later: seq<Recipient>)
    requires Unique(later) && Plain(fold, Addresses(rs) + Addresses(later))
    ensures var s := RemoveAllFound(fold, rs, later); Unique(s) && Addresses(s) == Addresses(later) - Addresses(rs)
  {
    if rs != [] {
      var a := rs[0].address;
      assert Addresses(rs) == {a} + Addresses(rs[1..]) by { assert rs == [rs[0]] + rs[1..]; }
      RemoveFoundPlain(fold, a, later);
      DropUnique(later, a);
      RemoveAllPlain(fold, rs[1..], Drop(later, a));
      hide Unique, Finds, RemoveFound;
    }
  }

  lemma RemovalKeepsAddressSet(rs: seq<Recipient>)
    ensures Addresses(RemoveFrom(rs, 0)) == Addresses(rs)
  {
    RemovalKeepsAddresses(rs, 0);
    SubsequenceMembers(RemoveFrom(rs, 0), rs);
  }

  lemma {:induction false} SubsequenceMembers(s: seq<Recipient>, t: seq<Recipient>)
    requires Subsequence(s, t)
    ensures forall r :: r in s ==> r in t
    decreases |t|
  {
    if s != [] {
      assert s == [s[0]] + s[1..] && t == [t[0]] + t[1..];
      if s[0] == t[0] { SubsequenceMembers(s[1..], t[1..]); } else { SubsequenceMembers(s, t[1..]); }
    }
  }

  lemma RemoveFoundOnce(fold: string -> string, a: string, later: seq<Recipient>)
    ensures var s := RemoveFound(fold, a, later);
      && Subsequence(s, later) && |later| - 1 <= |s| <= |later|
      && (forall r :: r in later ==> r in s || Finds(fold, a, r.address))
    decreases |later|
  {
    hide Finds;
    if later != [] {
      assert later == [later[0]] + later[1..];
      if Finds(fold, a, later[0].address) {
        SubsequenceSelf(later[1..]);
        SubsequenceSkip(later[1..], later[1..], later[0]);
      } else {
        RemoveFoundOnce(fold, a, later[1..]);
        assert ([later[0]] + RemoveFound(fold, a, later[1..]))[1..] == RemoveFound(fold, a, later[1..]);
      }
    }
  }

  /** a's address, after folding, contains b's. */
  ghost predicate SomeFinds(fold: string -> string, rs: seq<Recipient>, b: string) {
    exists q :: q in rs && Finds(fold, q.address, b)
  }

  /** Between two fields, on every input: the later field loses at most one entry for each entry of the
      earlier one, and only entries that are found in one. */
  lemma {:induction false} LaterFieldLosesOnlyFound(fold: string -> string, rs: seq<Recipient>, later: seq<Recipient>)
    ensures var s := RemoveAllFound(fold, rs, later);
      && Subsequence(s, later) && |later| - |rs| <= |s|
      && (forall r :: r in later ==> r in s || SomeFinds(fold, rs, r.address))
    decreases |rs|
  {
    if rs == [] {
      SubsequenceSelf(later);
    } else {
      var next := RemoveFound(fold, rs[0].address, later);
      RemoveFoundOnce(fold, rs[0].address, later);
      LaterFieldLosesOnlyFound(fold, rs[1..], next);
      var s := RemoveAllFound(fold, rs[1..], next);
      SubsequenceTransitive(s, next, later);
      hide Finds, Subsequence, RemoveFound;
      assert rs == [rs[0]] + rs[1..];
      forall r | r in later ensures r in s || SomeFinds(fold, rs, r.address) {
        if r !in next {
          assert rs[0] in rs && Finds(fold, rs[0].address, r.address);
        } else if r !in s {
          var q :| q in rs[1..] && Finds(fold, q.address, r.address);
          assert q in rs;
        }
      }
    }
  }

  /** On every input: To is cleaned by itself; Cc and Bcc keep their order and lose only entries found in
      an earlier field. */
  lemma EarlierFieldsWin(fold: string -> string, f: Fields)
    ensures var g := Cleaned(fold, f); var cc, bcc := RemoveFrom(f.cc, 0), RemoveFrom(f.bcc, 0);
      && g.to == RemoveFrom(f.to, 0) && Subsequence(g.cc, cc) && Subsequence(g.bcc, bcc)
      && (forall r :: r in cc ==> r in g.cc || SomeFinds(fold, g.to, r.address))
      && (forall r :: r in bcc ==> r in g.bcc || SomeFinds(fold, g.to, r.address) || SomeFinds(fold, g.cc, r.address))
  {
    var to, cc, bcc := RemoveFrom(f.to, 0), RemoveFrom(f.cc, 0), RemoveFrom(f.bcc, 0);
    hide RemoveFrom, RemoveAllFound, Subsequence, SomeFinds;
    LaterFieldLosesOnlyFound(fold, to, cc);
    LaterFieldLosesOnlyFound(fold, to, bcc);
    var c, b := RemoveAllFound(fold, to, cc), RemoveAllFound(fold, to, bcc);
    LaterFieldLosesOnlyFound(fold, c, b);
    SubsequenceTransitive(RemoveAllFound(fold, c, b), b, bcc);
  }

  /** Main result.  If the fields are tidy, as they are when all entries have names, and no address
      occurs in another one, case apart, then after removal the three fields are duplicate-free and
      hold the addresses they held before, each in the first field that it was in. */
  lemma NoDuplicatesLeft(fold: string -> string, f: Fields)
    requires Tidy(f.to) && Tidy(f.cc) && Tidy(f.bcc)
    requires Plain(fold, Addresses(f.to) + Addresses(f.cc) + Addresses(f.bcc))
    ensures var g := Cleaned(fold, f);
      && Unique(g.to) && Unique(g.cc) && Unique(g.bcc)
      && Addresses(g.to) == Addresses(f.to)
      && Addresses(g.cc) == Addresses(f.cc) - Addresses(f.to)
      && Addresses(g.bcc) == Addresses(f.bcc) - Addresses(f.to) - Addresses(f.cc)
  {
    TidyFieldLosesDuplicates(f.to);
    TidyFieldLosesDuplicates(f.cc);
    TidyFieldLosesDuplicates(f.bcc);
    RemovalKeepsAddressSet(f.to);
    RemovalKeepsAddressSet(f.cc);
    RemovalKeepsAddressSet(f.bcc);
    BetweenFields(fold, RemoveFrom(f.to, 0), RemoveFrom(f.cc, 0), RemoveFrom(f.bcc, 0));
    hide Unique, Plain, RemoveFrom, Addresses, RemoveAllFound, Tidy, TidyResult;
  }

  lemma BetweenFields(fold: string -> string, to: seq<Recipient>, cc: seq<Recipient>, bcc: seq<Recipient>)
    requires Unique(cc) && Unique(bcc) && Plain(fold, Addresses(to) + Addresses(cc) + Addresses(bcc))
    ensures var c := RemoveAllFound(fold, to, cc); var b := RemoveAllFound(fold, c, RemoveAllFound(fold, to, bcc));
      && Unique(c) && Unique(b)
      && Addresses(c) == Addresses(cc) - Addresses(to)
      && Addresses(b) == Addresses(bcc) - Addresses(to) - Addresses(cc)
  {
    var all := Addresses(to) + Addresses(cc) + Addresses(bcc);
    hide Unique, Finds, Addresses, RemoveAllFound;
    PlainSubset(fold, Addresses(to) + Addresses(cc), all);
    PlainSubset(fold, Addresses(to) + Addresses(bcc), all);
    hide Plain;
    RemoveAllPlain(fold, to, cc);
    RemoveAllPlain(fold, to, bcc);
    var c, b := RemoveAllFound(fold, to, cc), RemoveAllFound(fold, to, bcc);
    PlainSubset(fold, Addresses(c) + Addresses(b), all);
    RemoveAllPlain(fold, c, b);
  }

  lemma PlainSubset(fold: string -> string, s: set<string>, t: set<string>)
    requires Plain(fold, t) && s <= t
    ensures Plain(fold, s)
  {}
}
