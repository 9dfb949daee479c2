/** What outside events, and the operations that only IMAP agents have, make an agent do. */
module AgentEvents {
  import opened AgentState
  import opened AgentRuns
  import opened AgentTable
  import opened AgentInvariant
  import opened AgentBehaviour
  import opened AgentSchedule
  import PopAgent
  import ImapAgent

  predicate Present(a: Agent) { !a.removed && !a.left }

  // ---- starting, stopping, resuming ------------------------------------------------------------------

  /** A start that was made before changes nothing; a first one idles the agent where it may not
      connect, and otherwise sets the start delay. */
  lemma StartEvent(a: Agent, env: Env)
    requires Present(a) && Through(env)
    ensures var b := Step(a, Started(env));
      if a.ids.startDelay != KErrNotFound then b == a
      else if env.offline || (HomeOnly(a.settings) && !env.homeNetwork) then
        b == a.(state := Idle, ops := map[], ids := NoIds, connectNow := false)
      else
        b == a.(state := Initialised, ops := a.ops[a.nextId := DelayTimer], nextId := a.nextId + 1,
                ids := a.ids.(startDelay := a.nextId))
  {}

  /** Suspension drops every operation and forgets every id but the start delay's. */
  lemma SuspendEvent(a: Agent)
    requires Present(a)
    ensures Step(a, Suspended) ==
      a.(state := Idle, ops := map[], ids := NoIds.(startDelay := a.ids.startDelay), connectNow := false)
  {}

  /** Resuming takes the new settings over, and starts an idle agent afresh if these let it update
      everywhere or the phone is at home.  An IMAP agent no longer stays online. */
  lemma ResumeEvent(a: Agent, now: bool, settings: Settings, env: Env)
    requires Present(a) && Through(env)
    ensures var b := Step(a, Resumed(now, settings, env));
      && b.settings == settings && b.connectNow == now
      && (if a.state.Idle? && (settings.ao.AutoOn? || env.homeNetwork)
          then b.state.Initialised? && b.ops == a.ops[a.nextId := Kind.Completed]
          else b.state == a.state && b.ops == a.ops && (a.state.Idle? ==> a.protocol.Pop3? || !b.flags.stayOnline))
      && b.ids == a.ids && b.retry == a.retry
  {}

  /** Roaming resets every agent that is not set to update and be notified everywhere; home again, such
      an agent restarts if it is idle. */
  lemma NetworkEvents(a: Agent)
    requires Present(a)
    ensures var everywhere := a.settings.ao.AutoOn? && a.settings.emn.NotificationsOn?;
      && Step(a, RoamingStarted) ==
           (if everywhere then a else a.(state := Idle, ops := map[], ids := NoIds.(startDelay := a.ids.startDelay)))
      && Step(a, HomeNetworkFound) ==
           (if everywhere || !a.state.Idle? then a
            else a.(state := Initialised, ops := a.ops[a.nextId := Kind.Completed], nextId := a.nextId + 1))
  {}

  /** Running out of disk space switches every agent off but a temporary one. */
  lemma OutOfDiskEvent(a: Agent, env: Env)
    requires Present(a) && Through(env)
    ensures if IsTemporary(a) then Step(a, OutOfDisk(env)) == a else SwitchedOff(a, Step(a, OutOfDisk(env)))
  {}

  /** A notification connects the mailbox exactly if it may be connected now. */
  lemma NotificationEvent(a: Agent, env: Env)
    requires Present(a) && Inv(a) && IsEmn(a) && Through(env)
    ensures var b := Step(a, EmnReceived(env));
      && (MayConnect(a, env) ==> Connects(a, b, a.nextId) && b.ops == a.ops[a.nextId := Connect])
      && (Hopeless(a, env) ==> SwitchedOff(a, b))
      && (!Hopeless(a, env) && !MayConnect(a, env) ==> b.state.Idle? && b.ops == a.ops[a.nextId := Kind.Completed])
  {
    ConnectDecides(a, env);
    hide Inv, ConnectL;
  }

  // ---- IMAP events ----------------------------------------------------------------------------------------

  /** The server has synchronised: that is a success, and an agent that stays online fetches. */
  lemma SynchronisedEvent(a: Agent)
    requires Present(a) && a.protocol.Imap4?
    ensures var b := Step(a, Synchronised);
      && b.retry == 0 && b.settings == a.settings.(updateOk := true) && b.ids == a.ids
      && (if a.flags.stayOnline && a.ids.populate == KErrNotFound
          then b.state.Fetching? && b.ops == a.ops[a.nextId := Kind.Completed] else b.state == a.state && b.ops == a.ops)
  {}

  /** Changed folders are fetched, after an outstanding folder sync if there is one; a mailbox that
      turns out disconnected begins the agent's removal. */
  lemma FoldersChangedEvent(a: Agent, mailbox: bool, env: Env)
    requires Present(a) && a.protocol.Imap4? && -1 <= a.ids.folderSync
    ensures var b := Step(a, FoldersChanged(mailbox, env)); var c := a.ops[a.nextId := Kind.Completed];
      if mailbox && !env.connected then b.state.AutoDisconnecting? && b.flags == a.flags.(removeMe := true) && b.ops == c
      else if a.ids.folderSync != KErrNotFound then b == a.(flags := a.flags.(fetchAfterSync := true))
      else b == a.(state := Fetching, ops := c, nextId := a.nextId + 1)
  {}

  /** An agent on its way out is removed when its disconnect completes, unless it existed before it
      became temporary: then it is a normal one again and waits for its turn, or is idle. */
  lemma RemovalCompletes(a: Agent, id: int, code: Err, h: Env, c: Env)
    requires Due(a, id, Kind.Completed) || Due(a, id, Disconnect)
    requires Removes(a) && a.error.ErrNone? && Through(c)
    ensures var b := Step(a, OpCompletes(id, code, h, c));
      if !a.flags.dontRemove then b.removed
      else !b.removed && b.flags == NoFlags.(fetchAfterSync := a.flags.fetchAfterSync) && b.state == if IsEmn(a) then Idle else TimerWaiting
  {
    OrdinaryHandled(a, id, code, h);
    var x := Taken(a, id);
    if !a.flags.dontRemove { RemovesNow(x, c); } else { TurnsNormal(x, c); }
    var d := ChangeNextStateL(x, c);
    hide Inv, CompletionHandled, Step, ChangeNextStateL;
    StepOfCompletion(a, id, code, h, c, x, d);
  }

  lemma RemovesNow(x: Agent, c: Env)
    requires Removes(x) && !x.flags.dontRemove
    ensures ChangeNextStateL(x, c) == x.(removed := true)
  {
    hide ImapAgent.NextStateL;
  }

  lemma TurnsNormal(x: Agent, c: Env)
    requires Removes(x) && x.flags.dontRemove && x.error.ErrNone? && !x.left && !x.removed && Through(c)
    ensures var d := ChangeNextStateL(x, c);
      && !d.left && !d.removed && d.flags == NoFlags.(fetchAfterSync := x.flags.fetchAfterSync)
      && d.state == if IsEmn(x) then Idle else TimerWaiting
  {
    var y := ImapAgent.BackToNormal(x);
    assert y == x.(flags := NoFlags.(fetchAfterSync := x.flags.fetchAfterSync));
    SameChoice(x, y, c);
    hide ChangeNextStateL;
    AfterConnectionDoes(y, c);
    FlagsStay(y, c);
  }

  lemma SameChoice(x: Agent, y: Agent, c: Env)
    requires Removes(x) && x.flags.dontRemove && y == ImapAgent.BackToNormal(x)
    ensures ChangeNextStateL(x, c) == ChangeNextStateL(y, c)
  {
    hide ImapAgent.NextStateL;
  }

  lemma FlagsStay(b: Agent, c: Env)
    requires IsAfterConnection(b.state) && b.error.ErrNone? && !b.left && !Removes(b) && c.readable
    ensures ChangeNextStateL(b, c).flags == b.flags
  {
    AfterConnectionChooses(b, c);
    hide ChangeNextStateL;
  }

  /** A connected mailbox makes its agent a temporary one that observes the folders; a disconnected one
      makes it go. */
  lemma UpdateWhileConnectedEvent(a: Agent, created: bool, env: Env)
    requires Present(a) && Inv(a) && a.protocol.Imap4? && Through(env) && !a.flags.stayOnline
    ensures var b := Step(a, UpdateWhileConnected(created, env));
      && IsTemporary(b) && b.flags.dontReconnect && (b.flags.dontRemove <==> created || a.flags.dontRemove)
      && (env.connected ==> b.state.Idle? && b.flags.stayOnline)
      && (env.connected && a.ids.folderTimer == a.ids.folderSync == a.ids.populate == KErrNotFound ==>
            b.ids.folderTimer == a.nextId && b.ops == a.ops[a.nextId := FolderTimer])
      && (!env.connected ==> Removes(b) && Pending(b, a.nextId, Kind.Completed))
  {
    hide Inv;
  }

  /** An agent that stays online already is left alone. */
  lemma UpdateWhileOnlineEvent(a: Agent, created: bool, env: Env)
    requires Present(a) && a.protocol.Imap4? && a.flags.stayOnline
    ensures Step(a, UpdateWhileConnected(created, env)) == a
  {}

  // ---- the folder sync cycle --------------------------------------------------------------------------------

  /** The agent watches its folders: nothing else is going on. */
  predicate Watches(a: Agent) {
    a.protocol.Imap4? && a.error.ErrNone? && a.flags.stayOnline && a.ids.populate == KErrNotFound
    && (a.state.Idle? || (a.state.Fetching? && (IsTemporary(a) || Stays(a))))
  }

  lemma WatchingStays(b: Agent, c: Env)
    requires Watches(b) && !b.left && Through(c) && (b.ids.folderTimer != KErrNotFound || b.ids.folderSync != KErrNotFound)
    ensures ChangeNextStateL(b, c) == b
  {
    ImapChooses(b, c);
    hide ChangeNextStateL;
  }

  /** The folder timer has gone off: a connected agent synchronises its folders. */
  lemma FolderTimerEvent(a: Agent, id: int, h: Env, c: Env)
    requires Due(a, id, FolderTimer) && id == a.ids.folderTimer && Watches(a) && Through(h) && Through(c) && h.connected
    ensures var b := Step(a, OpCompletes(id, ErrNone, h, c));
      && Watches(b) && b.state == a.state && b.ids.folderTimer == KErrNotFound && b.ids.folderSync == a.nextId
      && b.ops == (a.ops - {id})[a.nextId := FolderSync]
  {
    KindOfRemembered(true, a.ops, a.nextId, a.ids, id);
    FolderOpsExclude(true, a.ops, a.nextId, a.ids);
    hide Inv;
    var b := CompletionHandled(a, id, ErrNone, h);
    assert b == Taken(a, id).(ops := (a.ops - {id})[a.nextId := FolderSync], nextId := a.nextId + 1,
                              ids := a.ids.(folderTimer := KErrNotFound, folderSync := a.nextId));
    WatchingStays(b, c);
    hide CompletionHandled, ChangeNextStateL, Step;
    StepOfCompletion(a, id, ErrNone, h, c, b, b);
  }

  /** The folders are synchronised: the timer is set for the next time; if a change came in meanwhile,
      the new mail is fetched first. */
  lemma FolderSyncEvent(a: Agent, id: int, code: Err, h: Env, c: Env)
    requires Due(a, id, FolderSync) && id == a.ids.folderSync && Watches(a) && Through(h) && Through(c)
    requires a.flags.fetchAfterSync ==> IsTemporary(a) || Stays(a)
    ensures var b := Step(a, OpCompletes(id, code, h, c)); var k := a.nextId;
      && b.ids.folderSync == KErrNotFound && !b.flags.fetchAfterSync
      && (if a.flags.fetchAfterSync then
            b.state.Fetching? && b.ids.folderTimer == k + 1 && b.ops == (a.ops - {id})[k := Kind.Completed][k + 1 := FolderTimer]
          else b.state == a.state && b.ids.folderTimer == k && b.ops == (a.ops - {id})[k := FolderTimer])
  {
    KindOfRemembered(true, a.ops, a.nextId, a.ids, id);
    SyncExcludesTimer(a, id);
    if a.flags.fetchAfterSync { FetchesAfterSync(a, id, code, h, c); } else { WatchesAfterSync(a, id, code, h, c); }
    hide Inv, Step;
  }

  lemma FetchesAfterSync(a: Agent, id: int, code: Err, h: Env, c: Env)
    requires Due(a, id, FolderSync) && id == a.ids.folderSync && Watches(a) && Through(c)
    requires a.flags.fetchAfterSync && (IsTemporary(a) || Stays(a)) && a.ids.folderTimer == KErrNotFound
    ensures var b := Step(a, OpCompletes(id, code, h, c)); var k := a.nextId;
      && b.ids.folderSync == KErrNotFound && !b.flags.fetchAfterSync && b.state.Fetching? && b.ids.folderTimer == k + 1
      && b.ops == (a.ops - {id})[k := Kind.Completed][k + 1 := FolderTimer]
  {
    SyncHandled(a, id, code, h);
    var k := a.nextId;
    var f := Taken(a, id).(state := Fetching, ops := (a.ops - {id})[k := Kind.Completed], nextId := k + 1,
                           ids := a.ids.(folderSync := KErrNotFound), flags := a.flags.(fetchAfterSync := false));
    hide CompletionHandled, Inv;
    var d := f.(ops := f.ops[k + 1 := FolderTimer], nextId := k + 2, ids := f.ids.(folderTimer := k + 1));
    FetchSetsTimer(f, c);
    hide ChangeNextStateL, Step;
    StepOfCompletion(a, id, code, h, c, f, d);
  }

  lemma SyncHandled(a: Agent, id: int, code: Err, h: Env)
    requires Due(a, id, FolderSync) && a.protocol.Imap4? && id == a.ids.folderSync && a.flags.fetchAfterSync
    ensures CompletionHandled(a, id, code, h) ==
      Taken(a, id).(state := Fetching, ops := (a.ops - {id})[a.nextId := Kind.Completed], nextId := a.nextId + 1,
                    ids := a.ids.(folderSync := KErrNotFound), flags := a.flags.(fetchAfterSync := false))
  {
    KindOfRemembered(true, a.ops, a.nextId, a.ids, id);
    SyncExcludesTimer(a, id);
    hide Inv;
  }

  lemma FetchSetsTimer(f: Agent, c: Env)
    requires f.protocol.Imap4? && f.state.Fetching? && f.error.ErrNone? && !f.left && Through(c) && (IsTemporary(f) || Stays(f))
    requires f.flags.stayOnline && f.ids.folderTimer == f.ids.folderSync == f.ids.populate == KErrNotFound
    ensures ChangeNextStateL(f, c)
      == f.(ops := f.ops[f.nextId := FolderTimer], nextId := f.nextId + 1, ids := f.ids.(folderTimer := f.nextId))
  {
    ImapChooses(f, c);
    hide ChangeNextStateL;
  }

  lemma WatchesAfterSync(a: Agent, id: int, code: Err, h: Env, c: Env)
    requires Due(a, id, FolderSync) && id == a.ids.folderSync && Watches(a) && Through(h) && Through(c)
    requires !a.flags.fetchAfterSync && a.ids.folderTimer == KErrNotFound
    ensures var b := Step(a, OpCompletes(id, code, h, c)); var k := a.nextId;
      && b.ids.folderSync == KErrNotFound && !b.flags.fetchAfterSync && b.state == a.state && b.ids.folderTimer == k
      && b.ops == (a.ops - {id})[k := FolderTimer]
  {
    KindOfRemembered(true, a.ops, a.nextId, a.ids, id);
    hide Inv;
    var k := a.nextId;
    var f := Taken(a, id).(ops := (a.ops - {id})[k := FolderTimer], nextId := k + 1,
                           ids := a.ids.(folderSync := KErrNotFound, folderTimer := k));
    assert CompletionHandled(a, id, code, h) == f;
    hide CompletionHandled;
    WatchingStays(f, c);
    hide ChangeNextStateL, Step;
    StepOfCompletion(a, id, code, h, c, f, f);
  }

  lemma SyncExcludesTimer(a: Agent, id: int)
    requires Inv(a) && id in a.ops && id == a.ids.folderSync
    ensures a.ids.folderTimer == KErrNotFound
  {}

  // ---- the connection that stays open -----------------------------------------------------------------------------

  /** The connection ends though the agent did not disconnect: that is a failure like any other, even if
      it ended well, and the agent tries again. */
  lemma OpenConnectionLost(a: Agent, id: int, h: Env, c: Env)
    requires Due(a, id, StayOnlineConnect) && id == a.ids.stayOnline && a.state.ConnectingToStayOnline?
    requires a.protocol.Imap4? && !IsEmn(a) && a.ids.disconnect == KErrNotFound && Through(c) && (a.retry + 1 < 15 || a.settings.updateOk)
    ensures var b := Step(a, OpCompletes(id, ErrNone, h, c));
      && b.state.TimerWaiting? && b.retry == a.retry + 1 && b.ids.interval == a.nextId && Pending(b, a.nextId, IntervalTimer)
      && b.ids.stayOnline == KErrNotFound
  {
    LostHandled(a, id, h);
    var b := CompletionHandled(a, id, ErrNone, h);
    var x := b.(error := ErrNone, retry := a.retry + 1, state := if (a.retry + 1) % 3 == 0 then ConnectFailed else Reconnecting);
    LossCounted(b, c, x);
    hide Inv, CompletionHandled, ErrorHandled;
    AgentChoosesAs(b, x, c);
    AfterConnectionDoes(x, c);
    var d := ChangeNextStateL(x, c);
    hide ChangeNextStateL, Step;
    StepOfCompletion(a, id, ErrNone, h, c, b, d);
  }

  lemma LostHandled(a: Agent, id: int, h: Env)
    requires Inv(a) && a.protocol.Imap4? && id in a.ops && a.ops[id].StayOnlineConnect? && id == a.ids.stayOnline
    requires a.ids.disconnect == KErrNotFound
    ensures CompletionHandled(a, id, ErrNone, h)
      == Taken(a, id).(error := ErrDisconnected, ids := a.ids.(stayOnline := KErrNotFound))
  {
    hide Inv;
  }

  lemma LossCounted(b: Agent, c: Env, x: Agent)
    requires b.error.ErrDisconnected? && b.state.ConnectingToStayOnline? && c.readable && !b.left
    requires b.retry + 1 < 15 || b.settings.updateOk
    requires x == b.(error := ErrNone, retry := b.retry + 1, state := if (b.retry + 1) % 3 == 0 then ConnectFailed else Reconnecting)
    ensures ErrorHandled(b, c) == x
  {}

  /** The connection ends because the agent disconnected: no failure is counted, and the schedule decides
      whether it connects again. */
  lemma OpenConnectionClosed(a: Agent, id: int, h: Env, c: Env)
    requires Due(a, id, StayOnlineConnect) && id == a.ids.stayOnline && a.state.ConnectingToStayOnline?
    requires a.protocol.Imap4? && !IsEmn(a) && a.ids.disconnect != KErrNotFound && Through(c)
    requires c.schedule.WaitingToConnect? || (c.schedule.Connected? && c.schedule.seconds > 0)
    ensures var b := Step(a, OpCompletes(id, ErrNone, h, c)); var k := a.nextId;
      && (c.schedule.WaitingToConnect? ==> Sleeps(b, k))
      && (c.schedule.Connected? && MayConnect(a, c) ==> b.retry == a.retry && Awake(b, k) && Connects(a, b, k + 1))
  {
    KindOfRemembered(true, a.ops, a.nextId, a.ids, id);
    OnlyImapStays(a, id);
    CompletionInv(a, id, h, c);
    NextIdsAreFree(a);
    hide Inv;
    var b := CompletionHandled(a, id, ErrNone, h);
    assert b == Taken(a, id).(error := ErrNone, ids := a.ids.(stayOnline := KErrNotFound, disconnect := KErrNotFound));
    ImapChooses(b, c);
    AsksSchedule(b, c);
    var d := ConnectIfAllowedL(b, KErrNotFound, c);
    hide CompletionHandled, ChangeNextStateL, Step, ConnectIfAllowedL, NoTimers;
    StepOfCompletion(a, id, ErrNone, h, c, b, d);
  }

  /** A synchronisation that fails is not counted; an agent without notifications waits for its turn. */
  lemma SyncFails(a: Agent, id: int, code: Err, h: Env, c: Env)
    requires Due(a, id, Sync) && a.protocol.Imap4? && id == a.ids.sync && a.state.Synchronising? && !IsEmn(a)
    requires (code.ErrOther? || code.ErrDisconnected? || code.ErrTimedOut? || code.ErrConnectionTerminated?) && h.readable && Through(c)
    ensures var b := Step(a, OpCompletes(id, code, h, c));
      b.state.TimerWaiting? && b.retry == a.retry && b.ids.interval == a.nextId && Pending(b, a.nextId, IntervalTimer)
  {
    KindOfRemembered(true, a.ops, a.nextId, a.ids, id);
    hide Inv;
    var b := CompletionHandled(a, id, code, h);
    assert b == Taken(a, id).(error := code);
    var x := b.(error := ErrNone, state := ConnTerminated);
    assert ErrorHandled(b, c) == x;
    AgentChoosesAs(b, x, c);
    AfterConnectionDoes(x, c);
    var d := ChangeNextStateL(x, c);
    hide CompletionHandled, ChangeNextStateL, Step, ErrorHandled;
    StepOfCompletion(a, id, code, h, c, b, d);
  }

  lemma AgentChoosesAs(b: Agent, x: Agent, c: Env)
    requires b.protocol.Imap4? && ErrorHandled(b, c) == x && !x.left && x.error.ErrNone? && !Removes(b) && !Removes(x)
    ensures ChangeNextStateL(b, c) == ChangeNextStateL(x, c)
  {
    NoErrorNoHandling(x, c);
    hide ErrorHandled, DisconnectL, ConnectIfAllowedL, NoteAndSwitchOffL;
    hide ImapAgent.InitialiseL, ImapAgent.AfterConnectionL, ImapAgent.AfterFetchL, ImapAgent.RestartL;
    hide ImapAgent.FetchNewMailL, ImapAgent.SynchroniseNewL;
  }

  /** Only an IMAP agent can be connecting to stay online with that operation pending. */
  lemma OnlyImapStays(a: Agent, id: int)
    requires Inv(a) && id in a.ops && a.ops[id].StayOnlineConnect? && id == a.ids.stayOnline
    ensures id != a.ids.connect && id != a.ids.sync
  {}
}
