/** The owner of the agent array as an object: its methods update the array in place, in loops, and
    each does what the function of the same purpose says. */
module MailboxAgents {
  import opened AgentState
  import opened MailboxArray

  class MailboxAgents {
    const mtm: map<int, Protocol>
    var iMailAgentArray: seq<Member>

    constructor (protocols: map<int, Protocol>)
      ensures mtm == protocols && iMailAgentArray == []
    {
      mtm := protocols;
      iMailAgentArray := [];
    }

    method FindMailbox(id: int) returns (k: nat)
      ensures k == Find(iMailAgentArray, id)
    {
      k := 0;
      while k < |iMailAgentArray| && iMailAgentArray[k].mailbox != id
        invariant k <= |iMailAgentArray|
        invariant Find(iMailAgentArray, id) == k + Find(iMailAgentArray[k..], id)
      {
        assert iMailAgentArray[k..][1..] == iMailAgentArray[k + 1..];
        k := k + 1;
      }
    }

    method DeleteMailbox(id: int) returns (deleted: bool)
      modifies this
      ensures deleted <==> Has(old(iMailAgentArray), id)
      ensures iMailAgentArray ==
        if deleted then Without(old(iMailAgentArray), Find(old(iMailAgentArray), id)) else old(iMailAgentArray)
    {
      var k := FindMailbox(id);
      deleted := k < |iMailAgentArray|;
      if deleted { iMailAgentArray := iMailAgentArray[..k] + iMailAgentArray[k + 1..]; }
    }

    method IsMailAgentActive(store: Store, id: int) returns (activity: Activity)
      ensures activity == MailAgentActivity(iMailAgentArray, store, id)
    {
      if id !in store.entries { return Inactive; }
      if !store.entries[id].loads { return CannotLoad; }
      var settings := store.entries[id].settings;
      if !settings.emn.NotificationsOff? { return Active; }
      if !settings.ao.AutoOff? { return Active; }
      var k := FindMailbox(id);
      return if k < |iMailAgentArray| then Active else Inactive;
    }

    /** The IMAP accounts, then the POP accounts, without those that have an agent. */
    method GetMailboxes(store: Store) returns (ids: seq<int>)
      ensures ids == Absent(store.imapAccounts + store.popAccounts, iMailAgentArray)
    {
      var accounts := store.imapAccounts + store.popAccounts;
      ids := accounts;
      var i := |ids| - 1;
      assert accounts[i + 1..] == [];
      while i >= 0
        invariant -1 <= i < |accounts|
        invariant ids == accounts[..i + 1] + Absent(accounts[i + 1..], iMailAgentArray)
      {
        assert accounts[i..][1..] == accounts[i + 1..] && ids[i] == accounts[i];
        assert accounts[..i + 1] == accounts[..i] + [accounts[i]];
        ghost var rest := Absent(accounts[i + 1..], iMailAgentArray);
        assert ids[..i] == accounts[..i] && ids[i + 1..] == rest;
        var k := FindMailbox(ids[i]);
        if k < |iMailAgentArray| { ids := ids[..i] + ids[i + 1..]; }
        i := i - 1;
      }
    }

    method AddMailbox(store: Store, id: int)
      modifies this
      ensures iMailAgentArray == MailboxArray.AddMailbox(old(iMailAgentArray), mtm, store, id)
    {
      var k := FindMailbox(id);
      if k == |iMailAgentArray| && id in store.entries && store.entries[id].service && id in mtm {
        iMailAgentArray := iMailAgentArray + [NewMember(mtm, store, id)];
      }
    }

    /** Backwards over the array, deleting the agents whose mailbox is gone, unhealthy or off. */
    method DropStaleAgents(store: Store) returns (leaves: bool)
      modifies this
      ensures Outcome(iMailAgentArray, leaves) == DropStale(old(iMailAgentArray), |old(iMailAgentArray)|, store)
    {
      var i := |iMailAgentArray|;
      var active := false;
      while i > 0
        invariant 0 <= i <= |iMailAgentArray|
        invariant DropStale(iMailAgentArray, i, store) == DropStale(old(iMailAgentArray), |old(iMailAgentArray)|, store)
      {
        var id := iMailAgentArray[i - 1].mailbox;
        var healthy := id in store.healthy;
        if healthy {
          var activity := IsMailAgentActive(store, id);
          if activity.CannotLoad? { return true; }
          active := activity.Active?;
        }
        if !active || !healthy || id !in store.entries {
          iMailAgentArray := iMailAgentArray[..i - 1] + iMailAgentArray[i..];
        }
        i := i - 1;
      }
      return false;
    }

    method RefreshMailAgentArray(store: Store) returns (leaves: bool)
      modifies this
      ensures Outcome(iMailAgentArray, leaves) == Refresh(old(iMailAgentArray), mtm, store)
    {
      leaves := DropStaleAgents(store);
      if leaves { return; }
      ghost var kept := iMailAgentArray;
      var mailboxes := GetMailboxes(store);
      var i := 0;
      while i < |mailboxes|
        invariant 0 <= i <= |mailboxes|
        invariant AddNew(iMailAgentArray, mailboxes[i..], mtm, store) == AddNew(kept, mailboxes, mtm, store)
      {
        assert mailboxes[i..][1..] == mailboxes[i + 1..];
        if mailboxes[i] in store.healthy {
          var activity := IsMailAgentActive(store, mailboxes[i]);
          if activity.CannotLoad? { return true; }
          if activity.Active? { AddMailbox(store, mailboxes[i]); }
        }
        i := i + 1;
      }
      return false;
    }

    method SwitchOffAllAgents()
      modifies this
      ensures iMailAgentArray == []
    {
      while |iMailAgentArray| > 0
      {
        iMailAgentArray := iMailAgentArray[1..];
      }
    }
  }
}
