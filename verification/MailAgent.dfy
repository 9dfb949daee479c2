/** The agent as an object.  Its fields are updated step by step, its operations sit in an array, and
    every method takes its abstract state exactly where the handler of the same name takes it. */
module MailAgent {
  import opened AgentState
  import AgentRuns
  import PopAgent
  import ImapAgent
  import AgentTable
  import AgentInvariant
  import PopLiveness
  import RetryBound

  datatype Operation = Operation(id: int, kind: Kind)

  ghost predicate UniqueIds(s: seq<Operation>) {
    forall i, j :: 0 <= i < j < |s| ==> s[i].id != s[j].id
  }

  ghost predicate Below(s: seq<Operation>, next: nat) {
    forall i :: 0 <= i < |s| ==> s[i].id < next
  }

  /** What the operation array holds. */
  ghost function Table(s: seq<Operation>): map<int, Kind>
    requires UniqueIds(s)
  {
    map i | 0 <= i < |s| :: s[i].id := s[i].kind
  }

  lemma TableAppend(s: seq<Operation>, o: Operation)
    requires UniqueIds(s + [o])
    ensures UniqueIds(s) && Table(s + [o]) == Table(s)[o.id := o.kind]
  {
    var t := s + [o];
    assert forall i :: 0 <= i < |s| ==> t[i] == s[i];
    assert t[|s|] == o;
    assert UniqueIds(s);
    assert Table(t).Keys == Table(s)[o.id := o.kind].Keys by {
      forall id | id in Table(s) ensures id in Table(t) {
        var i :| 0 <= i < |s| && s[i].id == id;
        assert t[i].id == id;
      }
    }
  }

  lemma DeleteKeepsUnique(s: seq<Operation>, k: nat)
    requires UniqueIds(s) && k < |s|
    ensures UniqueIds(s[..k] + s[k + 1..])
  {
    var t := s[..k] + s[k + 1..];
    forall i, j | 0 <= i < j < |t| ensures t[i].id != t[j].id {
      assert t[i] == s[if i < k then i else i + 1] && t[j] == s[if j < k then j else j + 1];
    }
  }

  lemma InTable(s: seq<Operation>, id: int)
    requires UniqueIds(s)
    ensures id in Table(s) <==> exists o :: o in s && o.id == id
    ensures forall o :: o in s && o.id == id ==> id in Table(s) && Table(s)[id] == o.kind
  {}

  lemma TableDelete(s: seq<Operation>, k: nat)
    requires UniqueIds(s) && k < |s|
    ensures UniqueIds(s[..k] + s[k + 1..]) && Table(s[..k] + s[k + 1..]) == Table(s) - {s[k].id}
  {
    DeleteKeepsUnique(s, k);
    var t := s[..k] + s[k + 1..];
    assert s == s[..k] + [s[k]] + s[k + 1..];
    assert forall o :: o in s <==> o in t || o == s[k];
    forall o | o in t ensures o.id != s[k].id {
      var i :| 0 <= i < |t| && t[i] == o;
      assert o == s[if i < k then i else i + 1];
    }
    hide UniqueIds;
    forall id ensures id in Table(t) <==> id in Table(s) && id != s[k].id
              ensures id in Table(t) ==> Table(t)[id] == Table(s)[id] {
      InTable(s, id);
      InTable(t, id);
    }
    hide Table;
  }

  lemma NotInTable(s: seq<Operation>, id: int)
    requires UniqueIds(s) && forall i :: 0 <= i < |s| ==> s[i].id != id
    ensures id !in Table(s) && Table(s) - {id} == Table(s)
  {}

  /** In an orderly table the operations of kind k are those that id names, and a set id names one. */
  ghost predicate NamedBy(s: seq<Operation>, id: int, k: Kind) {
    (id == KErrNotFound || Operation(id, k) in s) && forall o :: o in s && o.kind == k ==> o.id == id
  }

  lemma TableMembers(s: seq<Operation>)
    requires UniqueIds(s)
    ensures forall o :: o in s ==> o.id in Table(s) && Table(s)[o.id] == o.kind
    ensures forall id :: id in Table(s) ==> Operation(id, Table(s)[id]) in s
  {
    forall id | id in Table(s) ensures Operation(id, Table(s)[id]) in s {
      var i :| 0 <= i < |s| && s[i].id == id;
      assert s[i] == Operation(id, Table(s)[id]);
    }
  }

  lemma NamesMeansNamedBy(s: seq<Operation>, next: nat, id: int, k: Kind)
    requires UniqueIds(s) && AgentTable.Names(Table(s), next, id, k) && AgentTable.Only(Table(s), id, k)
    ensures NamedBy(s, id, k)
  {
    TableMembers(s);
    hide Table, UniqueIds;
  }

  lemma OperationsPend(s: seq<Operation>)
    requires UniqueIds(s)
    ensures Table(s) != map[] <==> s != []
  {
    TableMembers(s);
    if s != [] { assert s[0] in s; }
  }

  class MailAgent {
    const protocol: Protocol
    var iState: State
    var iOperations: seq<Operation>
    var nextId: nat
    var ids: Ids  // iIntervalWaitId, iConnectOpId and the other remembered ids
    var iError: Err
    var iRetryCounter: nat
    var connectNow: bool
    var iMailboxSettings: Settings
    var iImap4StateFlags: Flags
    var removed: bool

    /** Operation ids are unique and below the id the session hands out next. */
    ghost predicate Valid()
      reads this
    {
      UniqueIds(iOperations) && Below(iOperations, nextId)
    }

    ghost function State(): Agent
      reads this
      requires Valid()
    {
      Agent(protocol, iState, Table(iOperations), nextId, ids, iError, iRetryCounter, connectNow,
            iMailboxSettings, iImap4StateFlags, false, removed)
    }

    /** The object has reached b's state; a leave is reported and not stored. */
    ghost predicate Became(b: Agent, leaves: bool)
      reads this
    {
      Valid() && State() == b.(left := false) && leaves == b.left
    }

    /** A valid object whose operation table is as every run keeps it. */
    ghost predicate Orderly()
      reads this
    {
      Valid() && AgentInvariant.Inv(State())
    }

    constructor (p: Protocol, next: nat, settings: Settings)
      ensures Orderly() && State() == Fresh(p, next, settings)
    {
      protocol := p;
      iState := Initialised;
      iOperations := [];
      nextId := next;
      ids := NoIds;
      iError := ErrNone;
      iRetryCounter := 0;
      connectNow := false;
      iMailboxSettings := settings;
      iImap4StateFlags := NoFlags;
      removed := false;
      new;
      AgentInvariant.FreshInv(p, next, settings);
    }

    predicate IsEmnAgent()
      reads this
    {
      !iMailboxSettings.emn.NotificationsOff?
    }

    predicate IsTemporaryAgent()
      reads this
    {
      protocol.Imap4? && iImap4StateFlags.temporary
    }

    // ---- the operation array -----------------------------------------------------------------------

    method AppendOperation(k: Kind) returns (id: int)
      requires Valid()
      modifies this`iOperations, this`nextId
      ensures Valid() && id == old(nextId)
      ensures State() == AddOp(old(State()), k)
    {
      id := nextId;
      ghost var s := iOperations;
      iOperations := iOperations + [Operation(id, k)];
      nextId := nextId + 1;
      TableAppend(s, Operation(id, k));
    }

    method CreateCompletedOpL()
      requires Valid()
      modifies this`iOperations, this`nextId
      ensures Valid() && State() == AgentState.CreateCompletedOp(old(State()))
    {
      hide Table, UniqueIds, Below;
      var _ := AppendOperation(Kind.Completed);
    }

    /** Deletes the operation with this id.  The caller's id becomes KErrNotFound if there was one. */
    method CleanOperation(id: int) returns (cleaned: int)
      requires Valid()
      modifies this`iOperations
      ensures Valid() && Table(iOperations) == CleanOps(old(Table(iOperations)), id)
      ensures cleaned == CleanId(old(Table(iOperations)), id)
    {
      var i := 0;
      cleaned := id;
      while i < |iOperations|
        invariant 0 <= i <= |iOperations| && iOperations == old(iOperations)
        invariant forall j :: 0 <= j < i ==> iOperations[j].id != id
      {
        if iOperations[i].id == id {
          cleaned := KErrNotFound;
          TableDelete(iOperations, i);
          iOperations := iOperations[..i] + iOperations[i + 1..];
          return;
        }
        i := i + 1;
      }
      NotInTable(iOperations, id);
    }

    /** Looks for the operation from the end of the array and deletes it. */
    method DeleteOperation(id: int) returns (found: bool)
      requires Valid()
      modifies this`iOperations
      ensures Valid() && Table(iOperations) == old(Table(iOperations)) - {id}
      ensures found <==> id in old(Table(iOperations))
    {
      var i := |iOperations| - 1;
      while i >= 0
        invariant -1 <= i < |iOperations| && iOperations == old(iOperations)
        invariant forall j :: i < j < |iOperations| ==> iOperations[j].id != id
      {
        if iOperations[i].id == id {
          TableDelete(iOperations, i);
          iOperations := iOperations[..i] + iOperations[i + 1..];
          return true;
        }
        i := i - 1;
      }
      NotInTable(iOperations, id);
      return false;
    }

    method ResetAll()
      requires Valid()
      modifies this
      ensures Became(AgentState.ResetAll(old(State())), false)
    {
      iOperations := [];
      ids := NoIds.(startDelay := ids.startDelay);
    }

    method Suspend()
      requires Valid()
      modifies this
      ensures Became(AgentState.Suspend(old(State())), false)
    {
      hide Table, UniqueIds, Below;
      ResetAll();
      iState := Idle;
      connectNow := false;
    }

    // ---- connecting and disconnecting ------------------------------------------------------------------

    method DisconnectL(automatic: bool, env: Env) returns (leaves: bool)
      requires Valid()
      modifies this
      ensures Became(AgentState.DisconnectL(old(State()), automatic, env), leaves)
    {
      hide Table, UniqueIds, Below;
      if env.connected {
        if !env.invokes { return true; }
        var id := AppendOperation(Disconnect);
        if protocol.Imap4? { ids := ids.(disconnect := id); }
      } else {
        CreateCompletedOpL();
      }
      iState := if automatic then AutoDisconnecting else UserDisconnecting;
      return false;
    }

    method ConnectAndUpdateHeadersL(env: Env) returns (leaves: bool)
      requires Valid()
      modifies this
      ensures Became(AgentState.ConnectAndUpdateHeadersL(old(State()), env), leaves)
    {
      hide Table, UniqueIds, Below;
      if !env.invokes { return true; }
      if protocol.Pop3? {
        var id := AppendOperation(Connect);
        ids := ids.(connect := id);
        iState := Connecting;
      } else if iImap4StateFlags.stayOnline && !IsEmnAgent() {
        var id := AppendOperation(StayOnlineConnect);
        ids := ids.(stayOnline := id);
        iState := ConnectingToStayOnline;
      } else {
        var id := AppendOperation(Connect);
        ids := ids.(connect := id);
        iState := PlainConnecting;
      }
      return false;
    }

    method SwitchAutoUpdateOffL(env: Env) returns (leaves: bool)
      requires Valid()
      modifies this
      ensures Became(AgentState.SwitchAutoUpdateOffL(old(State()), env), leaves)
    {
      hide Table, UniqueIds, Below;
      Suspend();
      if IsEmnAgent() {
        iMailboxSettings := iMailboxSettings.(emn := NotificationsOff);
      } else {
        iMailboxSettings := iMailboxSettings.(ao := AutoOff);
      }
      if !env.saves { return true; }
      removed := true;
      return false;
    }

    method NoteAndSwitchOffL(env: Env) returns (leaves: bool)
      requires Valid()
      modifies this
      ensures Became(AgentState.NoteAndSwitchOffL(old(State()), env), leaves)
    {
      hide Table, UniqueIds, Below;
      if !env.notes { return true; }
      leaves := SwitchAutoUpdateOffL(env);
    }

    method ConnectL(env: Env) returns (leaves: bool)
      requires Valid()
      modifies this
      ensures Became(AgentState.ConnectL(old(State()), env), leaves)
    {
      hide Table, UniqueIds, Below;
      if env.diskLow && !IsTemporaryAgent() {
        leaves := NoteAndSwitchOffL(env);
        return;
      }
      var allowed := true;
      if !env.queries { return true; }
      if env.offline { allowed := false; }
      if allowed && env.iap.Unknown? { return true; }
      if allowed && env.iap.Invalid? {
        leaves := NoteAndSwitchOffL(env);
        return;
      }
      if allowed && iMailboxSettings.ao.AutoOff? && iMailboxSettings.emn.NotificationsOff? {
        allowed := false;
      }
      if allowed && (iMailboxSettings.ao.AutoHomeNetwork? || iMailboxSettings.emn.NotificationsHome?) {
        if !env.networkQueries { return true; }
        if !env.homeNetwork { allowed := false; }
      }
      if !allowed {
        iState := Idle;
        CreateCompletedOpL();
        return false;
      }
      leaves := ConnectAndUpdateHeadersL(env);
    }

    // ---- scheduling --------------------------------------------------------------------------------------

    method LaunchStartTimerL(env: Env) returns (leaves: bool)
      requires Valid()
      modifies this
      ensures Became(AgentState.LaunchStartTimerL(old(State()), env), leaves)
    {
      hide Table, UniqueIds, Below;
      if ids.stayOnline != KErrNotFound {
        leaves := DisconnectL(true, env);
        if leaves { return; }
      }
      var id := AppendOperation(StartTimer);
      ids := ids.(waitStart := id);
      iState := TimerWaitingForStart;
      var _ := CleanOperation(ids.waitStop);
      ids := ids.(waitStop := KErrNotFound);
      connectNow := false;
      return false;
    }

    method LaunchStopTimerL(seconds: nat)
      requires Valid()
      modifies this
      ensures Became(AgentState.LaunchStopTimerL(old(State()), seconds), false)
    {
      hide Table, UniqueIds, Below;
      if seconds == 0 {
        iState := TimerWaitingForStart;
        CreateCompletedOpL();
      } else {
        var id := AppendOperation(StopTimer);
        ids := ids.(waitStop := id);
        var _ := CleanOperation(ids.waitStart);
        ids := ids.(waitStart := KErrNotFound);
      }
    }

    method CleanScheduleTimers()
      requires Valid()
      modifies this
      ensures Became(AgentState.CleanScheduleTimers(old(State())), false)
    {
      hide Table, UniqueIds, Below;
      if ids.waitStop != KErrNotFound {
        var id := CleanOperation(ids.waitStop);
        ids := ids.(waitStop := id);
      }
      if ids.waitStart != KErrNotFound {
        var id := CleanOperation(ids.waitStart);
        ids := ids.(waitStart := id);
      }
      if ids.interval != KErrNotFound {
        var id := CleanOperation(ids.interval);
        ids := ids.(interval := id);
      }
    }

    method CheckAndHandleSchedulingL(env: Env) returns (leaves: bool)
      requires Valid()
      modifies this
      ensures Became(AgentState.CheckAndHandleSchedulingL(old(State()), env), leaves)
    {
      hide Table, UniqueIds, Below;
      hide AgentState.CleanScheduleTimers, AgentState.LaunchStartTimerL, AgentState.LaunchStopTimerL;
      if env.schedule.ScheduleLeaves? { return true; }
      CleanScheduleTimers();
      if env.schedule.WaitingToConnect? {
        leaves := LaunchStartTimerL(env);
      } else {
        LaunchStopTimerL(env.schedule.seconds);
        leaves := false;
      }
    }

    method ConnectIfAllowedL(id: int, env: Env) returns (leaves: bool)
      requires Valid()
      modifies this
      ensures Became(AgentState.ConnectIfAllowedL(old(State()), id, env), leaves)
    {
      hide Table, UniqueIds, Below;
      hide AgentState.CheckAndHandleSchedulingL, AgentState.ConnectL;
      leaves := false;
      if id == KErrNotFound {
        if !IsEmnAgent() {
          leaves := CheckAndHandleSchedulingL(env);
          if leaves { return; }
          if ids.waitStop != KErrNotFound || ids.waitStart == KErrNotFound {
            leaves := ConnectL(env);
          }
        } else {
          leaves := ConnectL(env);
        }
      }
    }

    // ---- errors ----------------------------------------------------------------------------------------

    method HandleDefaultError(env: Env) returns (leaves: bool)
      requires Valid()
      modifies this
      ensures Became(AgentState.HandleDefaultError(old(State()), env), leaves)
    {
      hide Table, UniqueIds, Below;
      if iError.ErrServerNotFound? {
        iRetryCounter := iRetryCounter + 1;
        if !env.readable { return true; }
        if iMailboxSettings.updateOk && !IsEmnAgent() {
          iState := ConnectFailed;
        } else {
          iState := FatalError;
          iRetryCounter := 0;
        }
      } else if iState.Connecting? || iState.PlainConnecting? || iState.ConnectingToStayOnline? {
        iRetryCounter := iRetryCounter + 1;
        if iRetryCounter % KAOMaxRetries == 0 {
          if !env.readable { return true; }
          if iRetryCounter >= KAOMaxRetriesSwitchOff && !iMailboxSettings.updateOk {
            iState := FatalError;
            iRetryCounter := 0;
          } else {
            iState := ConnectFailed;
          }
        } else {
          iState := Reconnecting;
        }
      } else {
        iState := ConnTerminated;
      }
      return false;
    }

    method HandleOpErrorL(env: Env) returns (leaves: bool)
      requires Valid()
      modifies this
      ensures Became(AgentState.HandleOpErrorL(old(State()), env), leaves)
    {
      hide Table, UniqueIds, Below, AgentState.HandleDefaultError;
      if iError.ErrNone? {
      } else if iError.ErrAbort? || iError.ErrCancel? {
        iError := ErrNone;
        iState := Initialised;
      } else if iError.ErrGeneral? || iError.ErrInUse? {
        iState := Queued;
      } else if iError.ErrFatal? {
        iState := FatalError;
        iRetryCounter := 0;
      } else if iError.ErrConnectionTerminated? || iError.ErrTimedOut? {
        iState := ConnTerminated;
      } else {
        leaves := HandleDefaultError(env);
        if leaves { return; }
      }
      iError := ErrNone;
      return false;
    }

    method HandleError(env: Env) returns (leaves: bool)
      requires Valid()
      modifies this
      ensures Became(ErrorHandled(old(State()), env), leaves)
    {
      hide Table, UniqueIds, Below;
      hide AgentState.HandleOpErrorL;
      leaves := false;
      if !iError.ErrNone? && !iState.TimerWaitingForStart? { leaves := HandleOpErrorL(env); }
    }

    method GiveUpL(env: Env) returns (leaves: bool)
      requires Valid()
      modifies this
      ensures Became(AgentState.GiveUpL(old(State()), env), leaves)
    {
      hide Table, UniqueIds, Below;
      leaves := DisconnectL(true, env);
      if leaves { return; }
      iState := Idle;
      iRetryCounter := 0;
      CreateCompletedOpL();
    }

    method RestartL()
      requires Valid()
      modifies this
      ensures Became(PopAgent.RestartL(old(State())), false) && Became(ImapAgent.RestartL(old(State())), false)
    {
      hide Table, UniqueIds, Below;
      ResetAll();
      iState := Initialised;
      CreateCompletedOpL();
    }

    // ---- choosing the next state --------------------------------------------------------------------------

    /** Starts the interval timer unless the agent waits for it already. */
    method StartIntervalTimerL(env: Env) returns (leaves: bool)
      requires Valid()
      modifies this
      ensures Became(PopAgent.StartWaitTimerL(old(State()), env), leaves)
    {
      hide Table, UniqueIds, Below;
      if iState.TimerWaiting? { return false; }
      if connectNow && !IsEmnAgent() {
        connectNow := false;
      } else if iRetryCounter % KAOMaxRetries == 0 && !iState.Queued? && !IsEmnAgent() && !env.readable {
        return true;
      }
      var id := AppendOperation(IntervalTimer);
      ids := ids.(interval := id);
      iState := TimerWaiting;
      return false;
    }

    method StartWaitTimerL(env: Env) returns (leaves: bool)
      requires Valid()
      modifies this
      ensures protocol.Pop3? ==> Became(PopAgent.StartWaitTimerL(old(State()), env), leaves)
      ensures protocol.Imap4? ==> Became(ImapAgent.StartWaitTimerL(old(State()), env), leaves)
    {
      hide Table, UniqueIds, Below;
      if protocol.Imap4? && ids.interval > KErrNotFound {
        var found := DeleteOperation(ids.interval);
        if found { ids := ids.(interval := KErrNotFound); }
      }
      ghost var dropped := State();
      assert protocol.Imap4? ==> dropped == ImapAgent.DropWaitTimer(old(State()));
      leaves := StartIntervalTimerL(env);
      hide ImapAgent.DropWaitTimer;
    }

    method InitialiseL(env: Env) returns (leaves: bool)
      requires Valid()
      modifies this
      ensures protocol.Pop3? ==> Became(PopAgent.InitialiseL(old(State()), env), leaves)
      ensures protocol.Imap4? ==> Became(ImapAgent.InitialiseL(old(State()), env), leaves)
    {
      hide Table, UniqueIds, Below;
      hide AgentState.CheckAndHandleSchedulingL, PopAgent.StartWaitTimerL, ImapAgent.StartWaitTimerL;
      ResetAll();
      leaves := false;
      if !IsEmnAgent() {
        leaves := CheckAndHandleSchedulingL(env);
        if leaves { return; }
        if ids.waitStop != KErrNotFound || ids.waitStart == KErrNotFound {
          leaves := StartWaitTimerL(env);
        }
      } else {
        iState := Idle;
        if protocol.Pop3? { CreateCompletedOpL(); }
      }
    }

    method AfterConnectionL(env: Env) returns (leaves: bool)
      requires Valid()
      modifies this
      ensures protocol.Pop3? ==> Became(PopAgent.AfterConnectionL(old(State()), env), leaves)
      ensures protocol.Imap4? ==> Became(ImapAgent.AfterConnectionL(old(State()), env), leaves)
    {
      hide Table, UniqueIds, Below;
      hide PopAgent.StartWaitTimerL, ImapAgent.StartWaitTimerL, AgentState.GiveUpL;
      var reconnect := true;
      if IsEmnAgent() && !IsTemporaryAgent() {
        if iState.Queued? || iState.Reconnecting? {
          reconnect := iRetryCounter < KAOMaxRetries;
        } else {
          reconnect := false;
        }
      }
      if reconnect { leaves := StartWaitTimerL(env); } else { leaves := GiveUpL(env); }
    }

    method DoFilteredPopulateL(env: Env) returns (leaves: bool)
      requires Valid()
      modifies this
      ensures Became(PopAgent.DoFilteredPopulateL(old(State()), env), leaves)
    {
      hide Table, UniqueIds, Below;
      if !env.readable { return true; }
      iState := DoingFilteredPopulate;
      if env.bodies {
        if !env.invokes { return true; }
        var id := AppendOperation(Populate);
        ids := ids.(populate := id);
      } else {
        CreateCompletedOpL();
      }
      return false;
    }

    method FetchNewMailL()
      requires Valid()
      modifies this
      ensures Became(ImapAgent.FetchNewMailL(old(State())), false)
    {
      hide Table, UniqueIds, Below;
      iState := Fetching;
      CreateCompletedOpL();
    }

    method SynchroniseNewL(env: Env) returns (leaves: bool)
      requires Valid()
      modifies this
      ensures Became(ImapAgent.SynchroniseNewL(old(State()), env), leaves)
    {
      hide Table, UniqueIds, Below;
      if env.connected {
        iMailboxSettings := iMailboxSettings.(updateOk := true);
        if !env.invokes { return true; }
        var id := AppendOperation(Sync);
        ids := ids.(sync := id);
        iState := Synchronising;
      } else {
        iError := ErrDisconnected;
        CreateCompletedOpL();
      }
      return false;
    }

    method StartFolderSyncTimerL(env: Env) returns (leaves: bool)
      requires Valid()
      modifies this
      ensures Became(ImapAgent.StartFolderSyncTimerL(old(State()), env), leaves)
    {
      hide Table, UniqueIds, Below;
      if iImap4StateFlags.stayOnline && ids.folderTimer == KErrNotFound &&
         ids.populate == KErrNotFound && ids.folderSync == KErrNotFound
      {
        if !env.readable { return true; }
        var id := AppendOperation(FolderTimer);
        ids := ids.(folderTimer := id);
      }
      return iImap4StateFlags.stayOnline && !env.observes;
    }

    method DoFolderSyncL(env: Env) returns (leaves: bool)
      requires Valid()
      modifies this
      ensures Became(ImapAgent.DoFolderSyncL(old(State()), env), leaves)
    {
      hide Table, UniqueIds, Below;
      if env.connected {
        if env.moreFolders && ids.populate == KErrNotFound && !env.invokes { return true; }
        var id := AppendOperation(FolderSync);
        ids := ids.(folderSync := id);
      } else {
        iState := ConnectingToStayOnline;
      }
      return false;
    }

    method AfterFetchL(env: Env) returns (leaves: bool)
      requires Valid()
      modifies this
      ensures Became(ImapAgent.AfterFetchL(old(State()), env), leaves)
    {
      hide Table, UniqueIds, Below, ImapAgent.StartFolderSyncTimerL, AgentState.DisconnectL;
      if iImap4StateFlags.temporary || (iImap4StateFlags.stayOnline && !IsEmnAgent()) {
        leaves := StartFolderSyncTimerL(env);
      } else {
        leaves := DisconnectL(true, env);
      }
    }

    method PopChangeNextStateL(env: Env) returns (leaves: bool)
      requires Valid() && protocol.Pop3?
      modifies this
      ensures Became(PopAgent.ChangeNextStateL(old(State()), env), leaves)
    {
      hide Table, UniqueIds, Below, ErrorHandled, AgentState.DisconnectL, AgentState.ConnectIfAllowedL;
      hide AgentState.NoteAndSwitchOffL, PopAgent.InitialiseL, PopAgent.AfterConnectionL;
      hide PopAgent.DoFilteredPopulateL, PopAgent.RestartL, ImapAgent.InitialiseL, ImapAgent.AfterConnectionL;
      leaves := HandleError(env);
      if leaves { return; }
      match iState {
        case Initialised => leaves := InitialiseL(env);
        case Connecting => leaves := DoFilteredPopulateL(env);
        case DoingFilteredPopulate => leaves := DisconnectL(true, env);
        case TimerWaiting => leaves := ConnectIfAllowedL(ids.interval, env);
        case TimerWaitingForStart => leaves := ConnectIfAllowedL(ids.waitStart, env);
        case Idle =>
        case FatalError => leaves := NoteAndSwitchOffL(env);
        case ConnectFailed | Queued | Reconnecting | AutoDisconnecting | UserDisconnecting | ConnTerminated =>
          leaves := AfterConnectionL(env);
        case PlainConnecting | ConnectingToStayOnline | Synchronising | Fetching | TimerWaitingForStop => RestartL();
      }
    }

    method ImapNextStateL(env: Env) returns (leaves: bool)
      requires Valid() && protocol.Imap4?
      modifies this
      ensures Became(ImapAgent.NextStateL(old(State()), env), leaves)
    {
      hide Table, UniqueIds, Below, ErrorHandled, AgentState.DisconnectL, AgentState.ConnectIfAllowedL;
      hide AgentState.NoteAndSwitchOffL, PopAgent.InitialiseL, PopAgent.AfterConnectionL, ImapAgent.AfterFetchL;
      hide ImapAgent.SynchroniseNewL, ImapAgent.FetchNewMailL;
      hide PopAgent.RestartL, ImapAgent.RestartL, ImapAgent.InitialiseL, ImapAgent.AfterConnectionL;
      leaves := HandleError(env);
      if leaves { return; }
      match iState {
        case Initialised => leaves := InitialiseL(env);
        case Connecting => leaves := DisconnectL(true, env);
        case PlainConnecting => leaves := SynchroniseNewL(env);
        case Synchronising => FetchNewMailL();
        case Fetching => leaves := AfterFetchL(env);
        case ConnectingToStayOnline => leaves := ConnectIfAllowedL(ids.stayOnline, env);
        case TimerWaiting => leaves := ConnectIfAllowedL(ids.interval, env);
        case TimerWaitingForStart => leaves := ConnectIfAllowedL(ids.waitStart, env);
        case Idle =>
        case FatalError => leaves := NoteAndSwitchOffL(env);
        case ConnectFailed | Queued | Reconnecting | AutoDisconnecting | UserDisconnecting | ConnTerminated =>
          leaves := AfterConnectionL(env);
        case DoingFilteredPopulate | TimerWaitingForStop => RestartL();
      }
    }

    method ChangeNextStateL(env: Env) returns (leaves: bool)
      requires Valid()
      modifies this
      ensures Became(AgentRuns.ChangeNextStateL(old(State()), env), leaves)
    {
      hide Table, UniqueIds, Below, ImapAgent.NextStateL, PopAgent.ChangeNextStateL;
      if protocol.Pop3? {
        leaves := PopChangeNextStateL(env);
        return;
      }
      if iState.AutoDisconnecting? && iImap4StateFlags.removeMe {
        if !iImap4StateFlags.dontRemove {
          removed := true;
          return false;
        }
        iImap4StateFlags := iImap4StateFlags.(
          dontRemove := false, temporary := false, dontReconnect := false, stayOnline := false, removeMe := false);
      }
      leaves := ImapNextStateL(env);
    }

    // ---- completions -----------------------------------------------------------------------------------------

    method PopHandleOpCompleted(id: int, code: Err, env: Env) returns (leaves: bool)
      requires Valid() && protocol.Pop3?
      modifies this
      ensures Became(PopAgent.HandleOpCompleted(old(State()), id, code, env), leaves)
    {
      hide Table, UniqueIds, Below, AgentState.CheckAndHandleSchedulingL;
      leaves := false;
      if id == ids.connect && !code.ErrNone? {
        iError := code;
        leaves := !env.readable;
      } else if id == ids.connect {
        iError := ErrNone;
        ids := ids.(connect := KErrNotFound);
        iRetryCounter := 0;
        iMailboxSettings := iMailboxSettings.(updateOk := true);
      } else if id == ids.populate {
        ids := ids.(populate := KErrNotFound);
      } else if id == ids.interval {
        ids := ids.(interval := KErrNotFound);
      } else if id == ids.waitStop {
        if code.ErrNone? {
          ids := ids.(waitStop := KErrNotFound);
          var _ := CheckAndHandleSchedulingL(env);
        }
      } else if id == ids.waitStart {
        if code.ErrNone? {
          ids := ids.(waitStart := KErrNotFound);
          var _ := CheckAndHandleSchedulingL(env);
        }
      } else if id == ids.startDelay {
        connectNow := true;
      }
    }

    method RescheduleL(env: Env)
      requires Valid()
      modifies this
      ensures Became(ImapAgent.RescheduleL(old(State()), env), false)
    {
      hide Table, UniqueIds, Below, AgentState.CheckAndHandleSchedulingL;
      var left := CheckAndHandleSchedulingL(env);
      if left {
        ResetAll();
        iState := Initialised;
      }
    }

    method ConnectionOpCompleted(id: int, code: Err, env: Env) returns (leaves: bool)
      requires Valid()
      modifies this
      ensures Became(ImapAgent.ConnectionOpCompleted(old(State()), id, code, env), leaves)
    {
      hide Table, UniqueIds, Below;
      leaves := false;
      if id == ids.stayOnline {
        iError := code;
        if ids.disconnect == KErrNotFound {
          if iError.ErrNone? { iError := ErrDisconnected; }
        } else {
          ids := ids.(disconnect := KErrNotFound);
        }
        ids := ids.(stayOnline := KErrNotFound);
      } else if !code.ErrNone? {
        iError := code;
        leaves := !env.readable;
      } else if id == ids.connect {
        iError := ErrNone;
        ids := ids.(connect := KErrNotFound);
        iRetryCounter := 0;
      } else {
        iError := ErrNone;
        ids := ids.(sync := KErrNotFound);
        iRetryCounter := 0;
      }
    }

    method FolderTimerCompleted(env: Env)
      requires Valid()
      modifies this
      ensures Became(ImapAgent.FolderTimerCompleted(old(State()), env), false)
    {
      hide Table, UniqueIds, Below, ImapAgent.DoFolderSyncL, ImapAgent.StartFolderSyncTimerL;
      var left := DoFolderSyncL(env);
      if left && ids.folderTimer == KErrNotFound {
        var _ := StartFolderSyncTimerL(env);
      }
    }

    method ImapHandleOpCompleted(id: int, code: Err, env: Env) returns (leaves: bool)
      requires Valid() && protocol.Imap4?
      modifies this
      ensures Became(ImapAgent.HandleOpCompleted(old(State()), id, code, env), leaves)
    {
      hide Table, UniqueIds, Below, ImapAgent.RescheduleL, ImapAgent.ConnectionOpCompleted;
      hide ImapAgent.FolderTimerCompleted, ImapAgent.StartFolderSyncTimerL;
      leaves := false;
      if id == ids.stayOnline || id == ids.connect || id == ids.sync {
        leaves := ConnectionOpCompleted(id, code, env);
      } else if id == ids.interval {
        ids := ids.(interval := KErrNotFound);
      } else if id == ids.waitStop {
        if code.ErrNone? {
          ids := ids.(waitStop := KErrNotFound);
          RescheduleL(env);
        }
      } else if id == ids.waitStart {
        if code.ErrNone? {
          ids := ids.(waitStart := KErrNotFound);
          RescheduleL(env);
        }
      } else if id == ids.startDelay {
        connectNow := true;
      } else if id == ids.folderTimer {
        ids := ids.(folderTimer := KErrNotFound);
        FolderTimerCompleted(env);
      } else if id == ids.folderSync {
        ids := ids.(folderSync := KErrNotFound);
        if iImap4StateFlags.fetchAfterSync {
          FetchNewMailL();
          iImap4StateFlags := iImap4StateFlags.(fetchAfterSync := false);
        } else {
          var _ := StartFolderSyncTimerL(env);
        }
      } else if id == ids.populate {
        ids := ids.(populate := KErrNotFound);
        var _ := StartFolderSyncTimerL(env);
      }
    }

    method HandleCompletion(id: int, code: Err, env: Env) returns (leaves: bool)
      requires Valid()
      modifies this
      ensures Became(AgentRuns.CompletionHandled(old(State()), id, code, env), leaves)
    {
      hide Table, UniqueIds, Below, PopAgent.HandleOpCompleted, ImapAgent.HandleOpCompleted;
      leaves := false;
      var found := DeleteOperation(id);
      if found {
        if protocol.Pop3? { leaves := PopHandleOpCompleted(id, code, env); }
        else { leaves := ImapHandleOpCompleted(id, code, env); }
      } else {
        assert Table(iOperations) == old(Table(iOperations));
      }
    }

    /** A completion: delete the operation, handle it, choose the next state. */
    method OpCompleted(id: int, code: Err, h: Env, c: Env) returns (leaves: bool)
      requires Valid()
      modifies this
      ensures Became(AgentRuns.OpCompleted(old(State()), id, code, h, c), leaves)
    {
      hide Table, UniqueIds, Below, AgentRuns.CompletionHandled, AgentRuns.ChangeNextStateL;
      leaves := HandleCompletion(id, code, h);
      if leaves { return; }
      var left := ChangeNextStateL(c);
      if left {
        ResetAll();
        iState := Initialised;
        CreateCompletedOpL();
      }
      return false;
    }

    // ---- outside events ---------------------------------------------------------------------------------------

    method StartL(env: Env) returns (leaves: bool)
      requires Valid()
      modifies this
      ensures Became(AgentState.StartL(old(State()), env), leaves)
    {
      hide Table, UniqueIds, Below;
      if ids.startDelay != KErrNotFound { return false; }
      if !env.networkQueries || !env.queries { return true; }
      if env.offline || (HomeOnly(iMailboxSettings) && !env.homeNetwork) {
        Suspend();
        return false;
      }
      iState := Initialised;
      var id := AppendOperation(DelayTimer);
      ids := ids.(startDelay := id);
      return false;
    }

    method ResumeL(connectImmediately: bool, settings: Settings, env: Env) returns (leaves: bool)
      requires Valid()
      modifies this
      ensures Became(AgentState.ResumeL(old(State()), connectImmediately, settings, env), leaves)
    {
      hide Table, UniqueIds, Below;
      iMailboxSettings := settings;
      connectNow := connectImmediately;
      if iState.Idle? {
        var stayIdle := false;
        if !iMailboxSettings.ao.AutoOn? {
          if !env.networkQueries { return true; }
          stayIdle := !env.homeNetwork;
        }
        if !stayIdle {
          iState := Initialised;
          CreateCompletedOpL();
        }
      }
      if protocol.Imap4? { iImap4StateFlags := iImap4StateFlags.(stayOnline := false); }
      return false;
    }

    method HandleRoamingEventL()
      requires Valid()
      modifies this
      ensures Became(AgentState.HandleRoamingEventL(old(State())), false)
    {
      hide Table, UniqueIds, Below;
      if !iMailboxSettings.ao.AutoOn? || !iMailboxSettings.emn.NotificationsOn? {
        ResetAll();
        iState := Idle;
      }
    }

    method HandleHomeNetworkEventL()
      requires Valid()
      modifies this
      ensures Became(AgentState.HandleHomeNetworkEventL(old(State())), false)
    {
      hide Table, UniqueIds, Below;
      if !iMailboxSettings.ao.AutoOn? || !iMailboxSettings.emn.NotificationsOn? {
        if iState.Idle? {
          iState := Initialised;
          CreateCompletedOpL();
        }
      }
    }

    method HandleOutOfDiskEventL(env: Env) returns (leaves: bool)
      requires Valid()
      modifies this
      ensures Became(AgentState.HandleOutOfDiskEventL(old(State()), env), leaves)
    {
      hide Table, UniqueIds, Below, AgentState.NoteAndSwitchOffL;
      leaves := false;
      if !IsTemporaryAgent() { leaves := NoteAndSwitchOffL(env); }
    }

    method HandleSynchronisationComplete()
      requires Valid()
      modifies this
      ensures Became(ImapAgent.SynchronisationComplete(old(State())), false)
    {
      hide Table, UniqueIds, Below;
      iRetryCounter := 0;
      iMailboxSettings := iMailboxSettings.(updateOk := true);
      if iImap4StateFlags.stayOnline && ids.populate == KErrNotFound { FetchNewMailL(); }
    }

    method HandleFolderEntryL(mailbox: bool, env: Env) returns (leaves: bool)
      requires Valid()
      modifies this
      ensures Became(ImapAgent.HandleFolderEntryL(old(State()), mailbox, env), leaves)
    {
      hide Table, UniqueIds, Below, AgentState.DisconnectL;
      leaves := false;
      if mailbox && !env.connected {
        iImap4StateFlags := iImap4StateFlags.(removeMe := true);
        leaves := DisconnectL(true, env);
      } else if ids.folderSync > KErrNotFound {
        iImap4StateFlags := iImap4StateFlags.(fetchAfterSync := true);
      } else {
        iState := Fetching;
        CreateCompletedOpL();
      }
    }

    method SetUpdateMailWhileConnectedL(alreadyCreated: bool, env: Env) returns (leaves: bool)
      requires Valid()
      modifies this
      ensures Became(ImapAgent.SetUpdateMailWhileConnectedL(old(State()), alreadyCreated, env), leaves)
    {
      hide Table, UniqueIds, Below, AgentState.DisconnectL, ImapAgent.StartFolderSyncTimerL;
      if iImap4StateFlags.stayOnline { return false; }
      if alreadyCreated { iImap4StateFlags := iImap4StateFlags.(dontRemove := true); }
      iImap4StateFlags := iImap4StateFlags.(temporary := true, dontReconnect := true);
      if env.connected {
        iImap4StateFlags := iImap4StateFlags.(stayOnline := true);
        iState := Idle;
        leaves := StartFolderSyncTimerL(env);
      } else {
        iImap4StateFlags := iImap4StateFlags.(removeMe := true);
        leaves := DisconnectL(true, env);
      }
    }

    /** Any event, on any agent: the object takes exactly the step that the runs are made of. */
    method Handle(e: AgentRuns.Event)
      requires Valid() && !removed && AgentRuns.Deliverable(State(), e)
      modifies this
      ensures Valid() && State() == AgentRuns.Step(old(State()), e)
    {
      hide Table, UniqueIds, Below, AgentRuns.OpCompleted, AgentState.StartL, AgentState.ResumeL, AgentState.ConnectL;
      hide AgentState.NoteAndSwitchOffL, ImapAgent.HandleFolderEntryL, ImapAgent.SetUpdateMailWhileConnectedL;
      hide AgentState.Suspend, AgentState.HandleRoamingEventL, AgentState.HandleHomeNetworkEventL;
      hide ImapAgent.SynchronisationComplete, AgentState.HandleOutOfDiskEventL;
      match e
      case OpCompletes(id, code, h, c) => var _ := OpCompleted(id, code, h, c);
      case Started(env) => var _ := StartL(env);
      case Suspended => Suspend();
      case Resumed(now, settings, env) => var _ := ResumeL(now, settings, env);
      case RoamingStarted => HandleRoamingEventL();
      case HomeNetworkFound => HandleHomeNetworkEventL();
      case OutOfDisk(env) => var _ := HandleOutOfDiskEventL(env);
      case EmnReceived(env) => var _ := ConnectL(env);
      case Synchronised => HandleSynchronisationComplete();
      case FoldersChanged(mailbox, env) => var _ := HandleFolderEntryL(mailbox, env);
      case UpdateWhileConnected(created, env) => var _ := SetUpdateMailWhileConnectedL(created, env);
    }

    // ---- runs --------------------------------------------------------------------------------------------------

    /** Is the event one that can reach this agent? */
    method CanHappen(e: AgentRuns.Event) returns (ok: bool)
      requires Valid()
      ensures ok <==> AgentRuns.Deliverable(State(), e)
    {
      match e
      case OpCompletes(id, code, _, _) =>
        var i := 0;
        while i < |iOperations|
          invariant 0 <= i <= |iOperations|
          invariant forall j :: 0 <= j < i ==> iOperations[j].id != id
        {
          if iOperations[i].id == id {
            InTable(iOperations, id);
            assert iOperations[i] in iOperations;
            return !IsTimer(iOperations[i].kind) || code.ErrNone?;
          }
          i := i + 1;
        }
        NotInTable(iOperations, id);
        return false;
      case EmnReceived(_) => return IsEmnAgent();
      case Synchronised => return protocol.Imap4?;
      case FoldersChanged(_, _) => return protocol.Imap4?;
      case UpdateWhileConnected(_, _) => return protocol.Imap4?;
      case _ => return true;
    }

    /** One event, if it can happen and the agent is still there. */
    method Deliver(e: AgentRuns.Event)
      requires Orderly()
      modifies this
      ensures Orderly() && State() == AgentRuns.Step(old(State()), e)
    {
      AgentInvariant.StepInv(State(), e);
      hide AgentInvariant.Inv, Table, UniqueIds, Below;
      var ok := CanHappen(e);
      if ok && !removed { Handle(e); } else { SkippedStep(State(), e); }
    }

    /** A whole run.  The object ends where the run of its state ends; so its schedule timers exclude
        each other, the timers it remembers are the ones in its array, its retry counter keeps to
        0..14 for as long as the run of its state does, and a settled POP agent is not stuck. */
    method HandleAll(es: seq<AgentRuns.Event>)
      requires Orderly()
      modifies this
      ensures Orderly() && State() == AgentRuns.Run(old(State()), es)
      ensures ids.waitStart == KErrNotFound || ids.waitStop == KErrNotFound
      ensures NamedBy(iOperations, ids.waitStart, StartTimer) && NamedBy(iOperations, ids.waitStop, StopTimer)
      ensures NamedBy(iOperations, ids.folderTimer, FolderTimer) && NamedBy(iOperations, ids.folderSync, FolderSync)
      ensures ids.folderTimer == KErrNotFound || ids.folderSync == KErrNotFound
      ensures protocol.Imap4? ==> NamedBy(iOperations, ids.interval, IntervalTimer)
      ensures old(iRetryCounter < 15 && RetryBound.NeverUpdated(State(), es) && RetryBound.NeverOvershoots(State(), es)) ==>
        iRetryCounter < 15
      ensures old(protocol.Pop3? && PopLiveness.Settled(State()) && PopLiveness.NothingStalls(State(), es)) ==>
        removed || iState.Idle? || iOperations != []
    {
      hide AgentInvariant.Inv, AgentRuns.Step, Table, UniqueIds, Below, RetryBound.NeverUpdated, RetryBound.NeverOvershoots;
      hide PopLiveness.Settled, PopLiveness.NothingStalls;
      ghost var start := State();
      var i := 0;
      assert es[0..] == es;
      while i < |es|
        invariant 0 <= i <= |es| && Orderly()
        invariant AgentRuns.Run(State(), es[i..]) == AgentRuns.Run(start, es)
      {
        assert es[i..][0] == es[i] && es[i..][1..] == es[i + 1..];
        Deliver(es[i]);
        i := i + 1;
      }
      assert es[i..] == [];
      hide AgentRuns.Run;
      RunOrder(start, es);
      OrderedFields(iOperations, State());
      SettledFields(iOperations, State());
    }
  }

  lemma SkippedStep(a: Agent, e: AgentRuns.Event)
    requires a.removed || !AgentRuns.Deliverable(a, e)
    ensures AgentRuns.Step(a, e) == a
  {}

  /** What the results on runs say of the last state. */
  lemma RunOrder(a: Agent, es: seq<AgentRuns.Event>)
    requires AgentInvariant.Inv(a) && !a.left
    ensures var b := AgentRuns.Run(a, es);
      && (a.retry < 15 && RetryBound.NeverUpdated(a, es) && RetryBound.NeverOvershoots(a, es) ==> b.retry < 15)
      && (a.protocol.Pop3? && PopLiveness.Settled(a) && PopLiveness.NothingStalls(a, es) ==> PopLiveness.Settled(b))
  {
    hide AgentInvariant.Inv, AgentRuns.Run, RetryBound.NeverUpdated, RetryBound.NeverOvershoots, RetryBound.AlwaysBelow;
    hide PopLiveness.Settled, PopLiveness.NothingStalls, PopLiveness.AlwaysLive;
    if a.retry < 15 && RetryBound.NeverUpdated(a, es) && RetryBound.NeverOvershoots(a, es) {
      RetryBound.RunRetry(a, es);
      RetryBound.BelowAtEnd(a, es);
    }
    if a.protocol.Pop3? && PopLiveness.Settled(a) { PopLiveness.RunStaysSettled(a, es); }
  }

  lemma OrderedFields(s: seq<Operation>, a: Agent)
    requires UniqueIds(s) && a.ops == Table(s) && AgentInvariant.Inv(a)
    ensures AgentTable.TimersExclude(a.ids)
    ensures NamedBy(s, a.ids.waitStart, StartTimer) && NamedBy(s, a.ids.waitStop, StopTimer)
    ensures NamedBy(s, a.ids.folderTimer, FolderTimer) && NamedBy(s, a.ids.folderSync, FolderSync)
    ensures a.protocol.Imap4? ==> NamedBy(s, a.ids.interval, IntervalTimer)
  {
    hide Table, UniqueIds, NamedBy, AgentTable.Names, AgentTable.Only, AgentTable.Bounded, AgentTable.Tagged;
    NamesMeansNamedBy(s, a.nextId, a.ids.waitStart, StartTimer);
    NamesMeansNamedBy(s, a.nextId, a.ids.waitStop, StopTimer);
    NamesMeansNamedBy(s, a.nextId, a.ids.folderTimer, FolderTimer);
    NamesMeansNamedBy(s, a.nextId, a.ids.folderSync, FolderSync);
    if a.protocol.Imap4? { NamesMeansNamedBy(s, a.nextId, a.ids.interval, IntervalTimer); }
  }

  lemma SettledFields(s: seq<Operation>, a: Agent)
    requires UniqueIds(s) && a.ops == Table(s)
    ensures PopLiveness.Settled(a) ==> a.removed || a.state.Idle? || s != []
  {
    OperationsPend(s);
  }
}
