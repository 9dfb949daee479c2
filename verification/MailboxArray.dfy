/** The array of mailbox agents: finding, adding and removing agents, and the refresh that brings the
    array in line with the mailboxes of the message store. */
module MailboxArray {
  import opened AgentState

  /** A mailbox entry of the message store.  loads: the mailbox settings can be read. */
  datatype Entry = Entry(service: bool, connected: bool, loads: bool, settings: Settings)

  /** imapAccounts and popAccounts: the accounts the platform lists for the protocol. */
  datatype Store = Store(imapAccounts: seq<int>, popAccounts: seq<int>, entries: map<int, Entry>, healthy: set<int>)

  datatype Member = Member(mailbox: int, agent: Agent)

  datatype Activity = Active | Inactive | CannotLoad

  /** The array after an operation.  left: the operation left before it was through. */
  datatype Outcome = Outcome(agents: seq<Member>, left: bool)

  predicate Has(agents: seq<Member>, id: int) { exists i :: 0 <= i < |agents| && agents[i].mailbox == id }

  ghost predicate Distinct(agents: seq<Member>) {
    forall i, j :: 0 <= i < j < |agents| ==> agents[i].mailbox != agents[j].mailbox
  }

  /** The first agent of the mailbox, or the array's length. */
  function Find(agents: seq<Member>, id: int): (k: nat)
    ensures k <= |agents|
    ensures k < |agents| ==> agents[k].mailbox == id
    ensures Has(agents, id) <==> k < |agents|
  {
    if agents == [] || agents[0].mailbox == id then 0
    else
      assert Has(agents, id) <==> Has(agents[1..], id) by {
        if Has(agents, id) {
          var i :| 0 <= i < |agents| && agents[i].mailbox == id;
          assert agents[1..][i - 1].mailbox == id;
        }
      }
      1 + Find(agents[1..], id)
  }

  predicate UpdatesOn(s: Settings) { !s.emn.NotificationsOff? || !s.ao.AutoOff? }

  /** An agent without automatic updates counts as active while it exists: it may be temporary. */
  function MailAgentActivity(agents: seq<Member>, store: Store, id: int): Activity {
    if id !in store.entries then Inactive
    else if !store.entries[id].loads then CannotLoad
    else if UpdatesOn(store.entries[id].settings) || Has(agents, id) then Active
    else Inactive
  }

  function Without(agents: seq<Member>, k: nat): (r: seq<Member>)
    requires k < |agents|
    ensures |r| == |agents| - 1
  {
    agents[..k] + agents[k + 1..]
  }

  /** The backward pass of the refresh over the first n agents. */
  function DropStale(agents: seq<Member>, n: nat, store: Store): Outcome
    requires n <= |agents|
  {
    if n == 0 then Outcome(agents, false)
    else
      var id := agents[n - 1].mailbox;
      var healthy := id in store.healthy;
      var activity := if healthy then MailAgentActivity(agents, store, id) else Inactive;
      if activity.CannotLoad? then Outcome(agents, true)
      else if !activity.Active? || !healthy || id !in store.entries then
        DropStale(Without(agents, n - 1), n - 1, store)
      else DropStale(agents, n - 1, store)
  }

  function Absent(ids: seq<int>, agents: seq<Member>): seq<int> {
    if ids == [] then []
    else (if Has(agents, ids[0]) then [] else [ids[0]]) + Absent(ids[1..], agents)
  }

  function NewMember(mtm: map<int, Protocol>, store: Store, id: int): Member
    requires id in mtm && id in store.entries
  {
    Member(id, Fresh(mtm[id], 0, store.entries[id].settings))
  }

  function AddMailbox(agents: seq<Member>, mtm: map<int, Protocol>, store: Store, id: int): seq<Member> {
    if !Has(agents, id) && id in store.entries && store.entries[id].service && id in mtm
    then agents + [NewMember(mtm, store, id)]
    else agents
  }

  /** The forward pass of the refresh. */
  function AddNew(agents: seq<Member>, ids: seq<int>, mtm: map<int, Protocol>, store: Store): Outcome
    decreases |ids|
  {
    if ids == [] then Outcome(agents, false)
    else if ids[0] !in store.healthy then AddNew(agents, ids[1..], mtm, store)
    else
      match MailAgentActivity(agents, store, ids[0])
      case CannotLoad => Outcome(agents, true)
      case Inactive => AddNew(agents, ids[1..], mtm, store)
      case Active => AddNew(AddMailbox(agents, mtm, store, ids[0]), ids[1..], mtm, store)
  }

  /** mtm: the protocol of every mailbox that is an IMAP or POP mailbox. */
  function Refresh(agents: seq<Member>, mtm: map<int, Protocol>, store: Store): Outcome {
    var kept := DropStale(agents, |agents|, store);
    if kept.left then kept
    else AddNew(kept.agents, Absent(store.imapAccounts + store.popAccounts, kept.agents), mtm, store)
  }

  // ---- what a refresh yields ---------------------------------------------------------------------

  predicate StillThere(store: Store, id: int) { id in store.healthy && id in store.entries }

  predicate Qualifies(mtm: map<int, Protocol>, store: Store, id: int) {
    && StillThere(store, id) && id in mtm
    && store.entries[id].service
    && (store.entries[id].settings.emn.NotificationsOff? ==> !store.entries[id].settings.ao.AutoOff?)
  }

  function Kept(agents: seq<Member>, store: Store): seq<Member> {
    if agents == [] then []
    else (if StillThere(store, agents[0].mailbox) then [agents[0]] else []) + Kept(agents[1..], store)
  }

  function NewMembers(ids: seq<int>, agents: seq<Member>, mtm: map<int, Protocol>, store: Store): seq<Member> {
    if ids == [] then []
    else
      (if Qualifies(mtm, store, ids[0]) && !Has(agents, ids[0]) then [NewMember(mtm, store, ids[0])] else [])
      + NewMembers(ids[1..], agents, mtm, store)
  }

  ghost predicate AllLoad(store: Store) { forall id :: StillThere(store, id) ==> store.entries[id].loads }

  ghost predicate NoRepeats(ids: seq<int>) { forall i, j :: 0 <= i < j < |ids| ==> ids[i] != ids[j] }

  lemma {:induction false} KeptAppend(s: seq<Member>, m: Member, store: Store)
    ensures Kept(s + [m], store) == Kept(s, store) + (if StillThere(store, m.mailbox) then [m] else [])
  {
    if s == [] {
      assert s + [m] == [m];
    } else {
      assert (s + [m])[1..] == s[1..] + [m];
      KeptAppend(s[1..], m, store);
    }
  }

  lemma DropStaleStep(agents: seq<Member>, n: nat, store: Store)
    requires 0 < n <= |agents| && AllLoad(store)
    ensures DropStale(agents, n, store) ==
      DropStale(if StillThere(store, agents[n - 1].mailbox) then agents else Without(agents, n - 1), n - 1, store)
  {
    assert Has(agents, agents[n - 1].mailbox);
  }

  lemma KeptUpTo(agents: seq<Member>, n: nat, store: Store)
    requires 0 < n <= |agents|
    ensures Kept(agents[..n], store) + agents[n..] ==
      if StillThere(store, agents[n - 1].mailbox) then Kept(agents[..n - 1], store) + agents[n - 1..]
      else Kept(agents[..n - 1], store) + agents[n..]
  {
    assert agents[..n] == agents[..n - 1] + [agents[n - 1]];
    assert agents[n - 1..] == [agents[n - 1]] + agents[n..];
    KeptAppend(agents[..n - 1], agents[n - 1], store);
    hide Kept;
  }

  lemma WithoutSlices(agents: seq<Member>, k: nat)
    requires k < |agents|
    ensures Without(agents, k)[..k] == agents[..k] && Without(agents, k)[k..] == agents[k + 1..]
  {}

  lemma {:induction false} DropStaleIsKept(agents: seq<Member>, n: nat, store: Store)
    requires n <= |agents| && AllLoad(store)
    ensures DropStale(agents, n, store) == Outcome(Kept(agents[..n], store) + agents[n..], false)
  {
    if n == 0 {
      assert agents[..n] == [] && agents[n..] == agents;
    } else {
      DropStaleStep(agents, n, store);
      KeptUpTo(agents, n, store);
      hide DropStale, Kept, AllLoad, Without;
      if StillThere(store, agents[n - 1].mailbox) {
        DropStaleIsKept(agents, n - 1, store);
      } else {
        WithoutSlices(agents, n - 1);
        DropStaleIsKept(Without(agents, n - 1), n - 1, store);
      }
    }
  }

  lemma {:induction false} KeptStay(agents: seq<Member>, store: Store)
    ensures forall m :: m in Kept(agents, store) <==> m in agents && StillThere(store, m.mailbox)
  {
    if agents != [] { KeptStay(agents[1..], store); }
  }

  lemma {:induction false} KeepAll(agents: seq<Member>, store: Store)
    requires forall m :: m in agents ==> StillThere(store, m.mailbox)
    ensures Kept(agents, store) == agents
  {
    if agents != [] { KeepAll(agents[1..], store); }
  }

  lemma HasMember(agents: seq<Member>, id: int)
    ensures Has(agents, id) <==> exists m :: m in agents && m.mailbox == id
  {
    if Has(agents, id) {
      var i :| 0 <= i < |agents| && agents[i].mailbox == id;
      assert agents[i] in agents;
    }
  }

  lemma HasAppend(agents: seq<Member>, m: Member, id: int)
    ensures Has(agents + [m], id) <==> Has(agents, id) || m.mailbox == id
  {
    if Has(agents, id) {
      var i :| 0 <= i < |agents| && agents[i].mailbox == id;
      assert (agents + [m])[i].mailbox == id;
    }
    if m.mailbox == id { assert (agents + [m])[|agents|].mailbox == id; }
  }

  /** A later check against a longer array drops only the mailbox that was just added. */
  lemma {:induction false} NewMembersAfter(
      ids: seq<int>, agents: seq<Member>, m: Member, mtm: map<int, Protocol>, store: Store)
    requires m.mailbox !in ids
    ensures NewMembers(ids, agents + [m], mtm, store) == NewMembers(ids, agents, mtm, store)
  {
    if ids != [] {
      HasAppend(agents, m, ids[0]);
      NewMembersAfter(ids[1..], agents, m, mtm, store);
    }
  }

  lemma AddNewStep(agents: seq<Member>, ids: seq<int>, mtm: map<int, Protocol>, store: Store)
    requires AllLoad(store) && ids != []
    ensures AddNew(agents, ids, mtm, store) == AddNew(
      if Qualifies(mtm, store, ids[0]) && !Has(agents, ids[0])
      then agents + [NewMember(mtm, store, ids[0])] else agents, ids[1..], mtm, store)
  {}

  lemma {:induction false} AddNewAppends(agents: seq<Member>, ids: seq<int>, mtm: map<int, Protocol>, store: Store)
    requires AllLoad(store) && NoRepeats(ids)
    ensures AddNew(agents, ids, mtm, store) == Outcome(agents + NewMembers(ids, agents, mtm, store), false)
    decreases |ids|
  {
    if ids != [] {
      var id, rest := ids[0], ids[1..];
      assert id !in rest;
      AddNewStep(agents, ids, mtm, store);
      hide AddNew, Has, AllLoad;
      if Qualifies(mtm, store, id) && !Has(agents, id) {
        var m := NewMember(mtm, store, id);
        AddNewAppends(agents + [m], rest, mtm, store);
        NewMembersAfter(rest, agents, m, mtm, store);
      } else {
        AddNewAppends(agents, rest, mtm, store);
      }
    }
  }

  // ---- accounts listed more than once -----------------------------------------------------------------

  function Removed(ids: seq<int>, x: int): (r: seq<int>)
    ensures |r| <= |ids|
  {
    if ids == [] then [] else (if ids[0] == x then [] else [ids[0]]) + Removed(ids[1..], x)
  }

  /** The first occurrence of each id, in order. */
  function FirstOccurrences(ids: seq<int>): seq<int>
    decreases |ids|
  {
    if ids == [] then [] else [ids[0]] + FirstOccurrences(Removed(ids[1..], ids[0]))
  }

  lemma {:induction false} RemovedMembers(ids: seq<int>, x: int)
    ensures forall id :: id in Removed(ids, x) <==> id in ids && id != x
  {
    if ids != [] {
      RemovedMembers(ids[1..], x);
      assert ids == [ids[0]] + ids[1..];
    }
  }

  lemma {:induction false} FirstOccurrencesAre(ids: seq<int>)
    ensures NoRepeats(FirstOccurrences(ids)) && forall id :: id in FirstOccurrences(ids) <==> id in ids
    decreases |ids|
  {
    if ids != [] {
      var rest := Removed(ids[1..], ids[0]);
      FirstOccurrencesAre(rest);
      RemovedMembers(ids[1..], ids[0]);
      assert ids == [ids[0]] + ids[1..];
      assert ids[0] !in FirstOccurrences(rest);
    }
  }

  /** An id that adds nothing now adds nothing later. */
  lemma {:induction false} AddNewIgnores(agents: seq<Member>, ids: seq<int>, x: int, mtm: map<int, Protocol>, store: Store)
    requires AllLoad(store) && (Has(agents, x) || !Qualifies(mtm, store, x))
    ensures AddNew(agents, Removed(ids, x), mtm, store) == AddNew(agents, ids, mtm, store)
    decreases |ids|
  {
    if ids != [] {
      var id, rest := ids[0], ids[1..];
      AddNewStep(agents, ids, mtm, store);
      var next := if Qualifies(mtm, store, id) && !Has(agents, id) then agents + [NewMember(mtm, store, id)] else agents;
      if next != agents { HasAppend(agents, NewMember(mtm, store, id), x); }
      AddNewIgnores(next, rest, x, mtm, store);
      if id == x {
        assert [] + Removed(rest, x) == Removed(rest, x);
      } else {
        assert ([id] + Removed(rest, x))[1..] == Removed(rest, x);
        AddNewStep(agents, Removed(ids, x), mtm, store);
      }
      hide AddNew, Has, AllLoad, Qualifies;
    }
  }

  /** Later occurrences of an account change nothing: its agent is found in the array. */
  lemma {:induction false} AddNewFirstOccurrences(agents: seq<Member>, ids: seq<int>, mtm: map<int, Protocol>, store: Store)
    requires AllLoad(store)
    ensures AddNew(agents, ids, mtm, store) == AddNew(agents, FirstOccurrences(ids), mtm, store)
    decreases |ids|
  {
    if ids != [] {
      var id, rest := ids[0], ids[1..];
      var fewer := Removed(rest, id);
      var next := if Qualifies(mtm, store, id) && !Has(agents, id) then agents + [NewMember(mtm, store, id)] else agents;
      if next != agents { HasAppend(agents, NewMember(mtm, store, id), id); }
      AddNewStep(agents, ids, mtm, store);
      AddNewStep(agents, [id] + FirstOccurrences(fewer), mtm, store);
      assert ([id] + FirstOccurrences(fewer))[1..] == FirstOccurrences(fewer);
      AddNewIgnores(next, rest, id, mtm, store);
      AddNewFirstOccurrences(next, fewer, mtm, store);
      hide AddNew, Has, AllLoad, Qualifies;
    }
  }

  /** Accounts that had an agent before the additions add nothing. */
  lemma {:induction false} AddNewAbsent(agents: seq<Member>, more: seq<Member>, ids: seq<int>, mtm: map<int, Protocol>, store: Store)
    requires AllLoad(store) && forall id :: Has(agents, id) ==> Has(more, id)
    ensures AddNew(more, Absent(ids, agents), mtm, store) == AddNew(more, ids, mtm, store)
    decreases |ids|
  {
    if ids != [] {
      var id, rest := ids[0], ids[1..];
      var next := if Qualifies(mtm, store, id) && !Has(more, id) then more + [NewMember(mtm, store, id)] else more;
      if next != more {
        forall x | Has(agents, x) ensures Has(next, x) { HasAppend(more, NewMember(mtm, store, id), x); }
      }
      AddNewStep(more, ids, mtm, store);
      AddNewAbsent(agents, next, rest, mtm, store);
      if Has(agents, id) {
        assert [] + Absent(rest, agents) == Absent(rest, agents);
      } else {
        assert ([id] + Absent(rest, agents))[1..] == Absent(rest, agents);
        AddNewStep(more, Absent(ids, agents), mtm, store);
      }
      hide AddNew, Has, AllLoad, Qualifies;
    }
  }

  lemma {:induction false} AbsentAreAbsent(ids: seq<int>, agents: seq<Member>)
    ensures forall id :: id in Absent(ids, agents) <==> id in ids && !Has(agents, id)
    ensures NoRepeats(ids) ==> NoRepeats(Absent(ids, agents))
  {
    if ids != [] {
      AbsentAreAbsent(ids[1..], agents);
      if NoRepeats(ids) {
        assert NoRepeats(ids[1..]);
        assert ids[0] !in ids[1..];
      }
    }
  }

  /** An account that still exists is in the array exactly when it is in the kept part. */
  lemma {:induction false} NewMembersAgree(
      ids: seq<int>, agents: seq<Member>, mtm: map<int, Protocol>, store: Store)
    ensures NewMembers(ids, Kept(agents, store), mtm, store) == NewMembers(ids, agents, mtm, store)
  {
    if ids != [] {
      NewMembersAgree(ids[1..], agents, mtm, store);
      KeptStay(agents, store);
      HasMember(agents, ids[0]);
      HasMember(Kept(agents, store), ids[0]);
    }
  }

  /** Main result.  With settings that load, a refresh yields the old agents whose mailbox is healthy
      and still has an entry, unchanged and in order, and after them one new agent for each healthy
      service mailbox, IMAP before POP, that wants updates and had no agent, however often the account
      is listed. */
  lemma RefreshYields(agents: seq<Member>, mtm: map<int, Protocol>, store: Store)
    requires AllLoad(store)
    ensures Refresh(agents, mtm, store) ==
      Outcome(Kept(agents, store) + NewMembers(FirstOccurrences(store.imapAccounts + store.popAccounts), agents, mtm, store), false)
  {
    var accounts := store.imapAccounts + store.popAccounts;
    var kept := Kept(agents, store);
    assert agents[..|agents|] == agents && kept + agents[|agents|..] == kept;
    DropStaleIsKept(agents, |agents|, store);
    AddNewAbsent(kept, kept, accounts, mtm, store);
    AddNewFirstOccurrences(kept, accounts, mtm, store);
    FirstOccurrencesAre(accounts);
    hide DropStale, AddNew, Kept, FirstOccurrences, AllLoad;
    AddNewAppends(kept, FirstOccurrences(accounts), mtm, store);
    NewMembersAgree(FirstOccurrences(accounts), agents, mtm, store);
  }

  // ---- refreshing again -----------------------------------------------------------------------------

  lemma {:induction false} AddNewReaches(agents: seq<Member>, ids: seq<int>, mtm: map<int, Protocol>, store: Store)
    requires AllLoad(store) && forall m :: m in agents ==> StillThere(store, m.mailbox)
    ensures var r := AddNew(agents, ids, mtm, store);
      && !r.left && (forall m :: m in r.agents ==> StillThere(store, m.mailbox))
      && (forall m :: m in agents ==> m in r.agents)
      && (forall id :: id in ids && Qualifies(mtm, store, id) ==> exists m :: m in r.agents && m.mailbox == id)
    decreases |ids|
  {
    if ids != [] {
      AddNewStep(agents, ids, mtm, store);
      HasMember(agents, ids[0]);
      hide AllLoad, Has;
      var b := if Qualifies(mtm, store, ids[0]) && !Has(agents, ids[0])
               then agents + [NewMember(mtm, store, ids[0])] else agents;
      AddNewReaches(b, ids[1..], mtm, store);
      if Qualifies(mtm, store, ids[0]) {
        assert exists m :: m in b && m.mailbox == ids[0] by {
          if !Has(agents, ids[0]) { assert NewMember(mtm, store, ids[0]) in b; }
        }
      }
    }
  }

  lemma {:induction false} AddNone(agents: seq<Member>, ids: seq<int>, mtm: map<int, Protocol>, store: Store)
    requires AllLoad(store) && forall id :: id in ids ==> !Qualifies(mtm, store, id) && !Has(agents, id)
    ensures AddNew(agents, ids, mtm, store) == Outcome(agents, false)
  {
    if ids != [] { AddNone(agents, ids[1..], mtm, store); }
  }

  /** Main result: with the store unchanged, a second refresh changes nothing. */
  lemma RefreshTwice(agents: seq<Member>, mtm: map<int, Protocol>, store: Store)
    requires AllLoad(store)
    ensures var once := Refresh(agents, mtm, store);
      !once.left && Refresh(once.agents, mtm, store) == once
  {
    var accounts := store.imapAccounts + store.popAccounts;
    var kept := Kept(agents, store);
    assert agents[..|agents|] == agents && kept + agents[|agents|..] == kept;
    DropStaleIsKept(agents, |agents|, store);
    KeptStay(agents, store);
    AbsentAreAbsent(accounts, kept);
    AddNewReaches(kept, Absent(accounts, kept), mtm, store);
    var once := Refresh(agents, mtm, store).agents;
    SecondRefresh(once, kept, mtm, store);
  }

  lemma SecondRefresh(once: seq<Member>, kept: seq<Member>, mtm: map<int, Protocol>, store: Store)
    requires AllLoad(store)
    requires forall m :: m in once ==> StillThere(store, m.mailbox)
    requires forall m :: m in kept ==> m in once
    requires forall id :: id in store.imapAccounts + store.popAccounts && !Has(kept, id) && Qualifies(mtm, store, id) ==>
               exists m :: m in once && m.mailbox == id
    ensures Refresh(once, mtm, store) == Outcome(once, false)
  {
    var accounts := store.imapAccounts + store.popAccounts;
    KeepAll(once, store);
    assert once[..|once|] == once && once + once[|once|..] == once;
    DropStaleIsKept(once, |once|, store);
    AbsentAreAbsent(accounts, once);
    forall id | id in Absent(accounts, once) ensures !Qualifies(mtm, store, id) {
      HasMember(once, id);
      HasMember(kept, id);
    }
    AddNone(once, Absent(accounts, once), mtm, store);
  }

  // ---- what every refresh keeps ------------------------------------------------------------------------

  predicate IsNew(mtm: map<int, Protocol>, m: Member) {
    m.mailbox in mtm && m.agent == Fresh(mtm[m.mailbox], 0, m.agent.settings)
  }

  lemma {:induction false} DropStaleKeeps(agents: seq<Member>, n: nat, store: Store)
    requires n <= |agents| && Distinct(agents)
    ensures var r := DropStale(agents, n, store).agents;
      Distinct(r) && forall m :: m in r ==> m in agents
  {
    if n > 0 {
      DropStaleKeeps(Without(agents, n - 1), n - 1, store);
      DropStaleKeeps(agents, n - 1, store);
    }
  }

  lemma {:induction false} AddNewKeeps(agents: seq<Member>, ids: seq<int>, mtm: map<int, Protocol>, store: Store)
    requires Distinct(agents)
    ensures var r := AddNew(agents, ids, mtm, store).agents;
      Distinct(r) && forall m :: m in r ==> m in agents || IsNew(mtm, m)
    decreases |ids|
  {
    if ids != [] {
      AddNewKeeps(agents, ids[1..], mtm, store);
      AddNewKeeps(AddMailbox(agents, mtm, store, ids[0]), ids[1..], mtm, store);
    }
  }

  /** Whether or not a refresh gets through, mailboxes stay pairwise distinct and every agent is an old
      one or a fresh one of its mailbox's protocol. */
  lemma RefreshKeeps(agents: seq<Member>, mtm: map<int, Protocol>, store: Store)
    requires Distinct(agents)
    ensures var r := Refresh(agents, mtm, store).agents;
      Distinct(r) && forall m :: m in r ==> m in agents || IsNew(mtm, m)
  {
    DropStaleKeeps(agents, |agents|, store);
    var kept := DropStale(agents, |agents|, store);
    AddNewKeeps(kept.agents, Absent(store.imapAccounts + store.popAccounts, kept.agents), mtm, store);
  }
}
