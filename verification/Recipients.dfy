/** Checking the recipients of a mail: what is not an address is looked up in the phonebook and
    replaced, in the array that is being walked, by what is found. */
module Recipients {

  datatype Recipient = Recipient(name: string, address: string, validated: bool, verified: bool)

  /** valid: IsValidAddress.  book: what the phonebook finds for a text. */
  datatype Lookup = Lookup(valid: string -> bool, book: string -> seq<Recipient>)

  datatype Option<T> = None | Some(value: T)

  // ---- specification ------------------------------------------------------------------------------

  predicate AllValid(rs: seq<Recipient>, l: Lookup) { forall r :: r in rs ==> l.valid(r.address) }

  function Marked(rs: seq<Recipient>): seq<Recipient> {
    seq(|rs|, i requires 0 <= i < |rs| => rs[i].(validated := true, verified := true))
  }

  /** What stands for one recipient after the check; None if the check fails on it. */
  function Expansion(r: Recipient, l: Lookup): Option<seq<Recipient>> {
    if l.valid(r.address) then Some([r.(validated := true)])
    else
      var found := l.book(r.address);
      if found != [] && AllValid(found, l) then Some(Marked(found)) else None
  }

  predicate Passes(r: Recipient, l: Lookup) { Expansion(r, l).Some? }

  predicate AllPass(rs: seq<Recipient>, l: Lookup) { forall r :: r in rs ==> Passes(r, l) }

  function Flat(rs: seq<Recipient>, l: Lookup): seq<Recipient>
    requires AllPass(rs, l)
  {
    if rs == [] then []
    else
      assert rs[|rs| - 1] in rs;
      Flat(rs[..|rs| - 1], l) + Expansion(rs[|rs| - 1], l).value
  }

  /** How many recipients pass before the first that does not. */
  function Passing(rs: seq<Recipient>, l: Lookup): (k: nat)
    ensures k <= |rs| && AllPass(rs[..k], l)
    ensures k < |rs| ==> !Passes(rs[k], l)
  {
    if rs == [] || !Passes(rs[0], l) then 0
    else
      var k := Passing(rs[1..], l);
      assert rs[..k + 1] == [rs[0]] + rs[1..][..k];
      k + 1
  }

  /** The expanded prefix, followed by the untouched suffix. */
  function Checked(rs: seq<Recipient>, l: Lookup): seq<Recipient> {
    var k := Passing(rs, l);
    Flat(rs[..k], l) + rs[k..]
  }

  lemma PassingAll(rs: seq<Recipient>, l: Lookup)
    ensures Passing(rs, l) == |rs| <==> AllPass(rs, l)
  {
    if Passing(rs, l) == |rs| { assert rs[..|rs|] == rs; }
  }

  lemma {:induction false} PassingIs(rs: seq<Recipient>, l: Lookup, k: nat)
    requires k < |rs| && AllPass(rs[..k], l) && !Passes(rs[k], l)
    ensures Passing(rs, l) == k
  {
    if k > 0 {
      assert rs[0] == rs[..k][0] && rs[1..][..k - 1] == rs[..k][1..];
      PassingIs(rs[1..], l, k - 1);
    }
  }

  // ---- what the check achieves ------------------------------------------------------------------------

  predicate Ready(r: Recipient, l: Lookup) { l.valid(r.address) && r.validated }

  lemma {:induction false} FlatIsReady(rs: seq<Recipient>, l: Lookup)
    requires AllPass(rs, l)
    ensures forall r :: r in Flat(rs, l) ==> Ready(r, l)
  {
    if rs != [] {
      FlatIsReady(rs[..|rs| - 1], l);
      ExpansionIsReady(rs[|rs| - 1], l);
      hide Ready, Expansion;
    }
  }

  lemma ExpansionIsReady(r: Recipient, l: Lookup)
    requires Passes(r, l)
    ensures forall q :: q in Expansion(r, l).value ==> Ready(q, l)
  {
    var found := l.book(r.address);
    forall i | 0 <= i < |found| ensures Marked(found)[i].address == found[i].address && found[i] in found {}
  }

  lemma {:induction false} FlatOfReady(rs: seq<Recipient>, l: Lookup)
    requires forall r :: r in rs ==> Ready(r, l)
    ensures AllPass(rs, l) && Flat(rs, l) == rs
  {
    if rs != [] {
      var last := rs[|rs| - 1];
      FlatOfReady(rs[..|rs| - 1], l);
      assert last in rs && Expansion(last, l) == Some([last]);
      assert rs == rs[..|rs| - 1] + [last];
    }
  }

  /** Main result.  A field passes exactly when each of its recipients is valid or is found in the
      phonebook with valid addresses only.  Then every entry is valid and marked, and checking the
      field again changes nothing. */
  lemma CheckedFieldIsReady(rs: seq<Recipient>, l: Lookup)
    ensures AllPass(rs, l) <==> forall r :: r in Checked(rs, l) ==> Ready(r, l)
    ensures AllPass(rs, l) ==> Checked(rs, l) == Flat(rs, l) && Checked(Checked(rs, l), l) == Checked(rs, l)
  {
    PassingAll(rs, l);
    var k := Passing(rs, l);
    if AllPass(rs, l) {
      assert rs[..k] == rs && rs[k..] == [];
      FlatIsReady(rs, l);
      var flat := Flat(rs, l);
      FlatOfReady(flat, l);
      PassingAll(flat, l);
      assert flat[..|flat|] == flat && flat[|flat|..] == [];
    } else {
      assert rs[k] in Checked(rs, l) by { assert rs[k] == Checked(rs, l)[|Flat(rs[..k], l)|]; }
    }
  }

  // ---- who the mail goes to ------------------------------------------------------------------------------

  /** A name and an address. */
  datatype Contact = Contact(name: string, address: string)

  function ContactOf(r: Recipient): Contact { Contact(r.name, r.address) }

  function Contacts(rs: seq<Recipient>): seq<Contact> {
    seq(|rs|, i requires 0 <= i < |rs| => ContactOf(rs[i]))
  }

  /** Whom the sender means by one recipient: itself, or everybody the phonebook finds for it. */
  function Meant(r: Recipient, l: Lookup): seq<Contact> {
    if l.valid(r.address) then [ContactOf(r)] else Contacts(l.book(r.address))
  }

  function AllMeant(rs: seq<Recipient>, l: Lookup): seq<Contact> {
    if rs == [] then [] else AllMeant(rs[..|rs| - 1], l) + Meant(rs[|rs| - 1], l)
  }

  /** A recipient passes if it is an address, or stands for addresses only, and for one at least. */
  lemma PassesMeans(r: Recipient, l: Lookup)
    ensures Passes(r, l) <==>
      l.valid(r.address) || (Meant(r, l) != [] && forall i :: 0 <= i < |Meant(r, l)| ==> l.valid(Meant(r, l)[i].address))
  {
    var found := l.book(r.address);
    if !l.valid(r.address) {
      assert |Meant(r, l)| == |found|;
      forall i | 0 <= i < |found| ensures Meant(r, l)[i].address == found[i].address && found[i] in found {}
    }
  }

  lemma ExpansionIsMeant(r: Recipient, l: Lookup)
    requires Passes(r, l)
    ensures Contacts(Expansion(r, l).value) == Meant(r, l)
    ensures forall q :: q in Expansion(r, l).value ==> q.verified == (!l.valid(r.address) || r.verified)
  {
    if l.valid(r.address) {
      assert Expansion(r, l).value == [r.(validated := true)];
    } else {
      var found := l.book(r.address);
      assert forall i :: 0 <= i < |found| ==> ContactOf(Marked(found)[i]) == ContactOf(found[i]);
    }
  }

  lemma ContactsAppend(a: seq<Recipient>, b: seq<Recipient>)
    ensures Contacts(a + b) == Contacts(a) + Contacts(b)
  {}

  lemma {:induction false} FlatIsMeant(rs: seq<Recipient>, l: Lookup)
    requires AllPass(rs, l)
    ensures Contacts(Flat(rs, l)) == AllMeant(rs, l)
  {
    if rs != [] {
      var last := rs[|rs| - 1];
      assert last in rs;
      FlatIsMeant(rs[..|rs| - 1], l);
      ExpansionIsMeant(last, l);
      ContactsAppend(Flat(rs[..|rs| - 1], l), Expansion(last, l).value);
      hide Contacts, Meant, Expansion;
    }
  }

  /** Main result.  The recipients before the first that does not pass have become exactly those that are
      meant by them, in order, names and all; those from there on are untouched.  So if all pass, the
      mail goes to everybody that is meant and to nobody else. */
  lemma MailGoesToThoseMeant(rs: seq<Recipient>, l: Lookup)
    ensures var k := Passing(rs, l); var c := Checked(rs, l); var n := |AllMeant(rs[..k], l)|;
      && n <= |c| && Contacts(c[..n]) == AllMeant(rs[..k], l) && c[n..] == rs[k..]
    ensures AllPass(rs, l) ==> Contacts(Checked(rs, l)) == AllMeant(rs, l)
  {
    var k := Passing(rs, l);
    var flat := Flat(rs[..k], l);
    FlatIsMeant(rs[..k], l);
    assert |Contacts(flat)| == |flat|;
    assert (flat + rs[k..])[..|flat|] == flat && (flat + rs[k..])[|flat|..] == rs[k..];
    PassingAll(rs, l);
    if AllPass(rs, l) { assert rs[..k] == rs && rs[k..] == [] && flat + [] == flat; }
  }

  // ---- the algorithm ------------------------------------------------------------------------------------

  class AddressField {
    var recs: seq<Recipient>

    constructor (rs: seq<Recipient>)
      ensures recs == rs
    {
      recs := rs;
    }
  }

  /** Marks the valid ones of the recipients found. */
  method ValidateFound(found: seq<Recipient>, l: Lookup) returns (marked: seq<Recipient>, ok: bool)
    ensures ok <==> AllValid(found, l)
    ensures ok ==> marked == Marked(found)
  {
    marked := found;
    ok := true;
    var index := 0;
    while index < |found|
      invariant 0 <= index <= |found| == |marked|
      invariant forall j :: index <= j < |found| ==> marked[j] == found[j]
      invariant ok <==> forall j :: 0 <= j < index ==> l.valid(found[j].address)
      invariant ok ==> forall j :: 0 <= j < index ==> marked[j] == Marked(found)[j]
    {
      if !l.valid(marked[index].address) {
        ok := false;
      } else {
        marked := marked[index := marked[index].(validated := true, verified := true)];
      }
      index := index + 1;
    }
  }

  /** Replaces the entry at k by the entries found, inserting all but the first one by one. */
  method ReplaceEntry(field: AddressField, k: nat, found: seq<Recipient>) returns (last: nat)
    requires k < |field.recs| && found != [] && forall r :: r in found ==> r.validated && r.verified
    modifies field
    ensures field.recs == old(field.recs)[..k] + found + old(field.recs)[k + 1..]
    ensures last == k + |found| - 1
  {
    ghost var was := field.recs;
    field.recs := field.recs[k := Recipient(found[0].name, found[0].address, true, true)];
    var left := found[1..];
    last := k;
    assert found[0] in found && was[..k] + found[..1] + was[k + 1..] == field.recs;
    while left != []
      invariant last < |field.recs| && k <= last && last - k + 1 + |left| == |found|
      invariant left == found[last - k + 1..]
      invariant field.recs == was[..k] + found[..last - k + 1] + was[k + 1..]
      decreases |left|
    {
      last := last + 1;
      assert found[..last - k + 1] == found[..last - k] + [left[0]];
      field.recs := field.recs[..last] + [left[0]] + field.recs[last..];
      left := left[1..];
    }
    assert found[..last - k + 1] == found;
  }

  /** The entry at i: valid, or replaced by what the phonebook finds.  last: its last entry then. */
  method CheckEntry(field: AddressField, i: nat, l: Lookup) returns (ok: bool, last: nat)
    requires i < |field.recs|
    modifies field
    ensures ok <==> Passes(old(field.recs[i]), l)
    ensures ok ==>
      && field.recs == old(field.recs)[..i] + Expansion(old(field.recs[i]), l).value + old(field.recs)[i + 1..]
      && last == i + |Expansion(old(field.recs[i]), l).value| - 1
    ensures !ok ==> field.recs == old(field.recs) && last == i
  {
    var address := field.recs[i].address;
    last := i;
    if l.valid(address) {
      field.recs := field.recs[i := field.recs[i].(validated := true)];
      ok := true;
    } else {
      var found := l.book(address);
      ok := false;
      if |found| > 0 {
        var marked;
        marked, ok := ValidateFound(found, l);
        if ok { last := ReplaceEntry(field, i, marked); }
      }
    }
  }

  /** Flat was[..k], then the rest of was: the check has come to was[k], or failed there. */
  ghost predicate Reached(recs: seq<Recipient>, was: seq<Recipient>, k: nat, l: Lookup) {
    k <= |was| && AllPass(was[..k], l) && recs == Flat(was[..k], l) + was[k..]
  }

  lemma ReachNext(recs: seq<Recipient>, was: seq<Recipient>, k: nat, l: Lookup)
    requires Reached(recs, was, k, l) && k < |was|
    ensures var i := |Flat(was[..k], l)|;
      && recs[i] == was[k]
      && (Passes(was[k], l) ==>
            var e := Expansion(was[k], l).value;
            && Reached(recs[..i] + e + recs[i + 1..], was, k + 1, l)
            && |Flat(was[..k + 1], l)| == i + |e|)
  {
    var done := Flat(was[..k], l);
    var i := |done|;
    assert recs[..i] == done && recs[i + 1..] == was[k + 1..];
    if Passes(was[k], l) {
      FlatNext(was, k, l);
      hide Flat, AllPass, Expansion;
    }
  }

  lemma ReachEnd(recs: seq<Recipient>, was: seq<Recipient>, k: nat, l: Lookup, ok: bool)
    requires Reached(recs, was, k, l) && (if ok then k == |was| else k < |was| && !Passes(was[k], l))
    ensures recs == Checked(was, l) && (ok <==> AllPass(was, l))
  {
    PassingAll(was, l);
    if ok {
      assert was[..k] == was && was[k..] == [];
    } else {
      PassingIs(was, l, k);
    }
  }

  method CheckRecipientsInField(field: AddressField, l: Lookup) returns (result: bool)
    modifies field
    ensures result <==> AllPass(old(field.recs), l)
    ensures field.recs == Checked(old(field.recs), l)
  {
    ghost var was := field.recs;
    result := true;
    var count := |field.recs|;
    var i := 0;
    ghost var k := 0;
    assert was[..0] == [] && was[0..] == was;
    while i < count
      invariant 0 <= i <= count == |field.recs| && Reached(field.recs, was, k, l)
      invariant result ==> i == |Flat(was[..k], l)|
      invariant !result ==> k < |was| && !Passes(was[k], l)
      decreases |was| - k, count - i
    {
      if result {
        ReachNext(field.recs, was, k, l);
        result, i := CheckEntry(field, i, l);
        count := |field.recs|;
        if result { k := k + 1; }
      }
      i := i + 1;
    }
    ReachEnd(field.recs, was, k, l, result);
  }

  lemma FlatNext(rs: seq<Recipient>, k: nat, l: Lookup)
    requires k < |rs| && AllPass(rs[..k], l) && Passes(rs[k], l)
    ensures AllPass(rs[..k + 1], l) && Flat(rs[..k + 1], l) == Flat(rs[..k], l) + Expansion(rs[k], l).value
  {
    assert rs[..k + 1] == rs[..k] + [rs[k]] && rs[..k + 1][..k] == rs[..k];
  }

  predicate FieldPasses(field: AddressField?, l: Lookup)
    reads field
  {
    field == null || AllPass(field.recs, l)
  }

  /** To, then Cc, then Bcc: the fields after the first failing one are not touched. */
  method CheckRecipients(to: AddressField?, cc: AddressField?, bcc: AddressField?, l: Lookup) returns (result: bool)
    requires to != null ==> to != cc && to != bcc
    requires cc != null ==> cc != bcc
    modifies to, cc, bcc
    ensures result <==> old(FieldPasses(to, l) && FieldPasses(cc, l) && FieldPasses(bcc, l))
    ensures to != null ==> to.recs == Checked(old(to.recs), l)
    ensures cc != null ==> cc.recs == if old(FieldPasses(to, l)) then Checked(old(cc.recs), l) else old(cc.recs)
    ensures bcc != null ==>
      bcc.recs == if old(FieldPasses(to, l) && FieldPasses(cc, l)) then Checked(old(bcc.recs), l) else old(bcc.recs)
  {
    result := true;
    if to != null { result := CheckRecipientsInField(to, l); }
    if result && cc != null { result := CheckRecipientsInField(cc, l); }
    if result && bcc != null { result := CheckRecipientsInField(bcc, l); }
  }
}
