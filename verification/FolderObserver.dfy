/** The observer that gathers changes in an IMAP mailbox's folders and reports them in batches. */
module FolderObserver {

  /** An id put into the batch: as a watched folder or as the mailbox, and what was watched then. */
  datatype Record = Record(id: int, asFolder: bool, folders: seq<int>, mailbox: int)

  /** recorded: everything ever put into a batch.  delivered: everything the agent has dealt with. */
  datatype Observer = Observer(
    iRunning: bool, iSendNotification: bool, active: bool, iFolders: seq<int>, iMailboxId: int,
    iChangedFolders: seq<int>, recorded: seq<Record>, delivered: seq<int>)

  datatype SessionEvent = EntriesCreated | EntriesChanged | EntriesDeleted | OtherEvent

  datatype Event =
    | SessionChanges(event: SessionEvent, parent: int, selection: seq<int>)
    | TimerFires(leaves: bool, stops: bool)  // the agent leaves; the agent stops the observer meanwhile
    | Starts
    | Stops
    | FolderAppended(folder: int)
    | FolderRemoved(folder: int)
    | FoldersReset(folders: seq<int>)
    | MailboxSet(mailbox: int)

  function New(folders: seq<int>): Observer { Observer(false, false, false, folders, 0, [], [], []) }

  function Put(o: Observer, id: int, asFolder: bool): Observer {
    o.(iChangedFolders := o.iChangedFolders + [id],
       recorded := o.recorded + [Record(id, asFolder, o.iFolders, o.iMailboxId)])
  }

  /** A notification is due, and the timer starts anew. */
  function Arm(o: Observer): Observer { o.(iSendNotification := true, active := true) }

  function HandleSessionEvent(o: Observer, event: SessionEvent, parent: int, selection: seq<int>): Observer {
    if !o.iRunning || event.OtherEvent? then o
    else if parent in o.iFolders then
      Arm(if parent in o.iChangedFolders then o else Put(o, parent, true))
    else if o.iMailboxId > 0 && o.iMailboxId in selection then Arm(Put(o, o.iMailboxId, false))
    else o
  }

  function Stop(o: Observer): Observer { o.(active := false, iRunning := false, iSendNotification := false) }

  function Run(o: Observer, leaves: bool, stops: bool): Observer {
    var p := o.(active := false, iRunning := false);
    if !p.iSendNotification then p
    else
      var q := if stops then Stop(p) else p;
      if leaves then q else q.(delivered := q.delivered + q.iChangedFolders, iChangedFolders := [])
  }

  /** The first occurrence is deleted. */
  function Without(s: seq<int>, x: int): seq<int> {
    if s == [] then [] else if s[0] == x then s[1..] else [s[0]] + Without(s[1..], x)
  }

  function Step(o: Observer, e: Event): Observer {
    match e
    case SessionChanges(event, parent, selection) => HandleSessionEvent(o, event, parent, selection)
    case TimerFires(leaves, stops) => if o.active then Run(o, leaves, stops) else o
    case Starts => o.(iRunning := true, iSendNotification := false)
    case Stops => Stop(o)
    case FolderAppended(folder) => if folder in o.iFolders then o else o.(iFolders := o.iFolders + [folder])
    case FolderRemoved(folder) => o.(iFolders := Without(o.iFolders, folder))
    case FoldersReset(folders) => o.(iFolders := folders)
    case MailboxSet(mailbox) => o.(iMailboxId := mailbox)
  }

  function Steps(o: Observer, es: seq<Event>): Observer
    decreases |es|
  {
    if es == [] then o else Steps(Step(o, es[0]), es[1..])
  }

  // ---- nothing is lost ----------------------------------------------------------------------------

  function IdsOf(rs: seq<Record>): seq<int> { seq(|rs|, i requires 0 <= i < |rs| => rs[i].id) }

  predicate WasWatched(r: Record) {
    if r.asFolder then r.id in r.folders else r.id == r.mailbox && r.mailbox > 0
  }

  /** The records of the current batch are the last ones. */
  ghost predicate Inv(o: Observer) {
    && IdsOf(o.recorded) == o.delivered + o.iChangedFolders
    && (forall r :: r in o.recorded ==> WasWatched(r))
    && (o.iRunning && o.iSendNotification ==> o.active && o.iChangedFolders != [])
    && (forall i, j :: |o.delivered| <= i < j < |o.recorded| && o.recorded[i].id == o.recorded[j].id ==>
          !o.recorded[j].asFolder)
  }

  lemma PutInv(o: Observer, id: int, asFolder: bool)
    requires Inv(o) && (asFolder ==> id in o.iFolders && id !in o.iChangedFolders)
    requires !asFolder ==> id == o.iMailboxId > 0
    ensures Inv(Arm(Put(o, id, asFolder)))
  {
    var p := Put(o, id, asFolder);
    var n := |o.recorded|;
    assert IdsOf(p.recorded) == IdsOf(o.recorded) + [id];
    assert IdsOf(p.recorded) == p.delivered + p.iChangedFolders;
    forall i, j | |p.delivered| <= i < j < |p.recorded| && p.recorded[i].id == p.recorded[j].id
      ensures !p.recorded[j].asFolder {
      assert p.recorded[i] == o.recorded[i];
      if j < n {
        assert p.recorded[j] == o.recorded[j];
      } else {
        assert IdsOf(o.recorded)[i] == o.iChangedFolders[i - |o.delivered|];
      }
    }
  }

  lemma DeliveredInv(o: Observer)
    requires Inv(o) && !o.iRunning
    ensures Inv(o.(delivered := o.delivered + o.iChangedFolders, iChangedFolders := []))
  {
    var p := o.(delivered := o.delivered + o.iChangedFolders, iChangedFolders := []);
    assert p.delivered + p.iChangedFolders == o.delivered + o.iChangedFolders;
    assert |IdsOf(o.recorded)| == |o.recorded|;
  }

  lemma StepInv(o: Observer, e: Event)
    requires Inv(o)
    ensures Inv(Step(o, e))
  {
    match e
    case SessionChanges(event, parent, selection) =>
      if o.iRunning && !event.OtherEvent? {
        if parent in o.iFolders {
          if parent !in o.iChangedFolders { PutInv(o, parent, true); }
        } else if o.iMailboxId > 0 && o.iMailboxId in selection {
          PutInv(o, o.iMailboxId, false);
        }
      }
    case TimerFires(leaves, stops) =>
      var p := o.(active := false, iRunning := false);
      DeliveredInv(p);
      DeliveredInv(Stop(p));
    case _ =>
  }

  lemma {:induction false} StepsInv(o: Observer, es: seq<Event>)
    requires Inv(o)
    ensures Inv(Steps(o, es))
    decreases |es|
  {
    hide Inv, Step;
    if es != [] {
      StepInv(o, es[0]);
      StepsInv(Step(o, es[0]), es[1..]);
    }
  }

  /** Main result, for every run.  What has been recorded is what has been delivered, followed by
      what waits in the batch.  Each id was watched, as a folder or as the mailbox, when it was
      recorded.  No folder is recorded again while it waits.  And a running observer that owes a
      notification has its timer set and something to tell. */
  lemma BatchesLoseNothing(folders: seq<int>, es: seq<Event>)
    ensures var o := Steps(New(folders), es);
      && IdsOf(o.recorded) == o.delivered + o.iChangedFolders
      && (forall r :: r in o.recorded ==> WasWatched(r))
      && (forall i, j :: |o.delivered| <= i < j < |o.recorded| && o.recorded[i].id == o.recorded[j].id ==>
            o.recorded[j].id == o.recorded[j].mailbox)
      && (o.iRunning && o.iSendNotification ==> o.active && o.iChangedFolders != [])
  {
    StepsInv(New(folders), es);
    hide Steps;
    var o := Steps(New(folders), es);
    forall i, j | |o.delivered| <= i < j < |o.recorded| && o.recorded[i].id == o.recorded[j].id
      ensures o.recorded[j].id == o.recorded[j].mailbox {
      assert o.recorded[j] in o.recorded;
    }
  }

  /** A change below a watched folder, seen by a running observer, is in the batch that the timer then
      delivers, unless the agent leaves. */
  lemma ChangeIsDelivered(o: Observer, event: SessionEvent, parent: int, selection: seq<int>, stops: bool)
    requires Inv(o) && o.iRunning && !event.OtherEvent? && parent in o.iFolders
    ensures var p := Step(o, SessionChanges(event, parent, selection)); var q := Step(p, TimerFires(false, stops));
      && parent in p.iChangedFolders && p.active && p.iSendNotification
      && q.delivered == IdsOf(p.recorded) && q.iChangedFolders == [] && parent in q.delivered[|o.delivered|..]
  {
    var p := Step(o, SessionChanges(event, parent, selection));
    StepInv(o, SessionChanges(event, parent, selection));
    assert parent in p.iChangedFolders && p.delivered == o.delivered;
    assert (p.delivered + p.iChangedFolders)[|p.delivered|..] == p.iChangedFolders;
  }

  /** A change of the mailbox itself, below no watched folder, is recorded each time and delivered too. */
  lemma MailboxChangeIsDelivered(o: Observer, event: SessionEvent, parent: int, selection: seq<int>, stops: bool)
    requires Inv(o) && o.iRunning && !event.OtherEvent? && parent !in o.iFolders && o.iMailboxId > 0 && o.iMailboxId in selection
    ensures var p := Step(o, SessionChanges(event, parent, selection)); var q := Step(p, TimerFires(false, stops));
      && p.iChangedFolders == o.iChangedFolders + [o.iMailboxId] && p.active && p.iSendNotification
      && |p.recorded| == |o.recorded| + 1 && p.recorded[|o.recorded|] == Record(o.iMailboxId, false, o.iFolders, o.iMailboxId)
      && q.delivered == o.delivered + o.iChangedFolders + [o.iMailboxId] && q.iChangedFolders == [] && !q.iRunning
  {}

  /** The change concerns something that a running observer watches. */
  predicate Concerns(o: Observer, event: SessionEvent, parent: int, selection: seq<int>) {
    o.iRunning && event in {EntriesCreated, EntriesChanged, EntriesDeleted}
    && (parent in o.iFolders || (o.iMailboxId > 0 && o.iMailboxId in selection))
  }

  /** A change sets the timer exactly if it concerns something watched; any other is ignored. */
  lemma OnlyWatchedChangesCount(o: Observer, event: SessionEvent, parent: int, selection: seq<int>)
    ensures var p := Step(o, SessionChanges(event, parent, selection));
      && (!Concerns(o, event, parent, selection) ==> p == o)
      && (Concerns(o, event, parent, selection) ==> p.active && p.iSendNotification && p.iChangedFolders != [])
  {}

  /** Starting and stopping decide whether changes are seen, and keep the batch; after its timer has gone
      off an observer waits to be started again. */
  lemma StartStopAndTimer(o: Observer, leaves: bool, stops: bool)
    ensures var p := Step(o, Starts); p == o.(iRunning := true, iSendNotification := false)
    ensures var p := Step(o, Stops); p == o.(iRunning := false, iSendNotification := false, active := false)
    ensures o.active ==> var p := Step(o, TimerFires(leaves, stops));
      && !p.iRunning && !p.active
      && (o.iSendNotification && !leaves ==> p.delivered == o.delivered + o.iChangedFolders && p.iChangedFolders == [])
      && (leaves || !o.iSendNotification ==> p.delivered == o.delivered && p.iChangedFolders == o.iChangedFolders)
  {}

  lemma {:induction false} WithoutFirst(s: seq<int>, x: int)
    ensures forall y :: y != x ==> (y in Without(s, x) <==> y in s)
    ensures multiset(Without(s, x)) == multiset(s) - multiset{x}
  {
    if s != [] {
      assert s == [s[0]] + s[1..];
      if s[0] != x {
        WithoutFirst(s[1..], x);
        assert multiset(Without(s, x)) == multiset{s[0]} + multiset(Without(s[1..], x));
      }
    }
  }

  /** What is watched: folders come and go one by one or all together, and the mailbox can be set. */
  lemma WatchedFolders(o: Observer, folder: int, folders: seq<int>, mailbox: int)
    ensures Step(o, FolderAppended(folder)).iFolders == if folder in o.iFolders then o.iFolders else o.iFolders + [folder]
    ensures multiset(Step(o, FolderRemoved(folder)).iFolders) == multiset(o.iFolders) - multiset{folder}
    ensures Step(o, FoldersReset(folders)).iFolders == folders && Step(o, MailboxSet(mailbox)).iMailboxId == mailbox
  {
    WithoutFirst(o.iFolders, folder);
  }

  // ---- the observer as an object -----------------------------------------------------------------------

  class Imap4FolderObserver {
    var iRunning: bool
    var iSendNotification: bool
    var active: bool
    var iFolders: seq<int>
    var iMailboxId: int
    var iChangedFolders: seq<int>
    ghost var recorded: seq<Record>
    ghost var delivered: seq<int>

    ghost function Value(): Observer
      reads this
    {
      Observer(iRunning, iSendNotification, active, iFolders, iMailboxId, iChangedFolders, recorded, delivered)
    }

    constructor (folders: seq<int>)
      ensures Value() == New(folders)
    {
      iRunning, iSendNotification, active := false, false, false;
      iFolders, iMailboxId, iChangedFolders := folders, 0, [];
      recorded, delivered := [], [];
    }

    method Start()
      modifies this
      ensures Value() == Step(old(Value()), Starts)
    {
      iRunning := true;
      iSendNotification := false;
    }

    method Stop()
      modifies this
      ensures Value() == Step(old(Value()), Stops)
    {
      active := false;
      iRunning := false;
      iSendNotification := false;
    }

    method HandleSessionEventL(event: SessionEvent, parent: int, selection: seq<int>)
      modifies this
      ensures Value() == Step(old(Value()), SessionChanges(event, parent, selection))
    {
      if !iRunning { return; }
      if event.EntriesCreated? || event.EntriesChanged? || event.EntriesDeleted? {
        if parent in iFolders {
          iSendNotification := true;
          if parent !in iChangedFolders {
            iChangedFolders := iChangedFolders + [parent];
            recorded := recorded + [Record(parent, true, iFolders, iMailboxId)];
          }
          active := true;
        } else if iMailboxId > 0 && iMailboxId in selection {
          iSendNotification := true;
          iChangedFolders := iChangedFolders + [iMailboxId];
          recorded := recorded + [Record(iMailboxId, false, iFolders, iMailboxId)];
          active := true;
        }
      }
    }

    /** The timer has fired.  stops: the agent stops the observer while it handles the batch. */
    method RunL(agentLeaves: bool, stops: bool) returns (leaves: bool)
      requires active
      modifies this
      ensures Value() == Step(old(Value()), TimerFires(agentLeaves, stops))
      ensures leaves <==> agentLeaves && old(iSendNotification)
    {
      active := false;
      iRunning := false;
      if iSendNotification {
        if stops { Stop(); }
        if agentLeaves { return true; }
        delivered := delivered + iChangedFolders;
        iChangedFolders := [];
      }
      return false;
    }

    method RemoveFolder(folder: int)
      modifies this
      ensures Value() == Step(old(Value()), FolderRemoved(folder))
    {
      var k := 0;
      assert iFolders[0..] == iFolders;
      while k < |iFolders| && iFolders[k] != folder
        invariant 0 <= k <= |iFolders| && iFolders == old(iFolders)
        invariant Without(iFolders, folder) == iFolders[..k] + Without(iFolders[k..], folder)
      {
        assert iFolders[k..][1..] == iFolders[k + 1..];
        k := k + 1;
      }
      if k < |iFolders| {
        assert iFolders[k..][1..] == iFolders[k + 1..];
        iFolders := iFolders[..k] + iFolders[k + 1..];
      }
    }
  }
}
