# Always-Online mail agents and mail editor: a verified model

This project models the hard parts of an e-mail application for a phone and proves what they keep.

**Always-Online agents** (`AgentState`, `PopAgent`, `ImapAgent`, `AgentRuns`, `MailAgent`, `MailboxArray`,
`MailboxAgents`, `MailboxWorld`).  Every mailbox has an agent: a state, a table of pending asynchronous
operations, remembered operation ids, a retry counter, flags.  A completion removes one operation, is
handled, and then the next state is chosen; outside events (suspend, resume, roaming, notification,
settings, disk) arrive in between.  Each handler is a function from the agent's state and the platform's
answers (`Env`) to the next state.  A *leave* (the platform's exception) is the flag `left`, and the
callers trap it where the source does.  `MailAgent` is the object itself: its fields are updated step by
step and every method is proved to take the state exactly where the function takes it.  What is proved
about runs (`AgentTable`, `AgentInvariant`, `PopLiveness`, `TimerExclusion`, `RetryBound`) is carried over
to its fields by `MailAgent.HandleAll`.  `FailureRuns` gives the runs that meet the exceptions.
`AgentBehaviour`, `AgentSchedule`, `AgentErrors` and
`AgentEvents` say what single events make an agent do, of the agent's step as a whole; `AgentCycles` and
`SyncBeforeFetch` say it of whole turns and runs.  `MailboxWorld` runs a whole array of agents under the phone's offline and roaming status.

**Editor operations** (`BaseOp`, `MailBaseOp`, `RestoreAttachments`, `LaunchOp`).  The engine that runs a
state, completes and chooses the next one; the restore pass over a list that shrinks under it; and the
launch with its three nested operations.

**In-place algorithms** (`LineBreaks`, `Recipients`, `Duplicates`, `HeaderControls`, `EmnResolver`,
`Timestamps`, `FolderObserver`).  Each loop is proved to compute a function, and the promised properties
are proved of that function.

What the platform decides is a parameter: completion codes and their order, schedule answers, offline and
network status, disk space, access points, readable settings, phonebook answers, attachment removal,
case folding, e-mail address validity.  Assumed throughout: operation ids are fresh and never -1; timers
complete without error; allocation does not fail in the middle of a step.

## Results that differ from what one may expect

- A POP agent can stall, in exactly one way: its only operation is a connect that fails while the stored
  "last update failed" flag cannot be read (`PopLiveness.StepKeepsLive`, `FailureRuns.StartedPopAgentCanStall`).
  `SetLastUpdateFailed` is declared as not leaving but reads a setting.
- The retry counter leaves 0..14 if the success flag cannot be read at the fifteenth failure
  (`RetryBound.FifteenthFailureSwitchesOff`, `FailureRuns.FifteenthFailureIsReached`).
- The note that all attachments are invalid is not shown whenever none is good: a removed attachment
  prevents it (`LaunchOp.LaunchReachesFinalState`, `LaunchOp.NoneGoodButNotAllInvalid`).
- In-field duplicates without names can survive (`Duplicates.UnnamedDuplicatesSurvive`), but not in a tidy field
  (`Duplicates.TidyFieldLosesDuplicates`).
- A notification can be attributed to a mailbox whose settings could not be read, and exactly then the search
  goes wrong (`EmnResolver.FirstFittingMailboxIsFound`, `EmnResolver.UnreadUserIsTakenFromBefore`); the comment in the source says the text stays empty then,
  but the buffers are shared by all turns of the loop.
- The code of a run that ended behind a wait note answers the next start (`BaseOp.OldCodeAnswersNextStart`,
  `BaseOp.OldCodeIsKept`), and exactly then a start does not enter its first state (`BaseOp.FirstStateIsEntered`).

## Model

| member | source | states |
|---|---|---|
| PopLiveness.StartedPopAgentNeverStalls | email/alwaysonlineemailplugin/src/AlwaysOnlinePopAgent.cpp:198-296 | After any run and a start that gets through, the agent is removed, idle or has an operation pending at every moment if and only if no event stalls it; then, if it waits for its interval timer, that very timer is pending. |
| PopLiveness.StepKeepsLive | email/alwaysonlineemailplugin/src/AlwaysOnlineEmailAgentBase.cpp:147-192 | One event stalls a live, busy agent if and only if it completes the only operation, a connect, with a failure while the stored flags cannot be read. |
| PopLiveness.ChangeNextStateOutcome | email/alwaysonlineemailplugin/src/AlwaysOnlinePopAgent.cpp:198-371 | From every state, choosing the next one leaves, removes the agent, idles it or leaves something to wait for. |
| PopLiveness.OpCompletedLive | email/alwaysonlineemailplugin/src/AlwaysOnlinePopAgent.cpp:605-661 | A completion settles the agent unless its handler leaves, and then it only takes the operation away. |
| PopLiveness.ConnectIfAllowedOutcome | email/alwaysonlineemailplugin/src/AlwaysOnlineEmailAgentBase.cpp:1110-1140 | A connect that is allowed, refused or put off by the schedule leaves the agent idle, removed or waiting. |
| FailureRuns.StartedPopAgentCanStall | email/alwaysonlineemailplugin/src/AlwaysOnlineEmailAgentBase.cpp:711-726 | The exception is met by a run: started, idle, notified, connecting, and then a failed connect whose stored flag cannot be read leaves the agent with nothing to wait for. |
| AgentInvariant.RunInv | email/alwaysonlineemailplugin/src/AlwaysOnlineEmailAgentBase.cpp:147-192 | The operation table stays in order over every run of either agent: remembered timers are pending and unique, kinds never mix. |
| AgentInvariant.StepInv | email/alwaysonlineemailplugin/src/AlwaysOnlineEmailAgentBase.cpp:305-379 | One event keeps the table; without permission to connect no connect operation appears; access settings stay unless no connect is pending; a success stays recorded. |
| AgentInvariant.OpCompletedInv | email/alwaysonlineemailplugin/src/AlwaysOnlineEmailAgentBase.cpp:147-192 | A completion keeps the table whether its handler leaves, the choice of the next state leaves, or both get through. |
| AgentInvariant.SchedulingInv | email/alwaysonlineemailplugin/src/AlwaysOnlineEmailAgentBase.cpp:485-529 | Scheduling keeps the table: the old timers are gone before a new one is set. |
| AgentInvariant.LaunchStartTimerInv | email/alwaysonlineemailplugin/src/AlwaysOnlineEmailAgentBase.cpp:416-447 | Launching the start timer keeps the stop timer out of the table. |
| AgentInvariant.LaunchStopTimerInv | email/alwaysonlineemailplugin/src/AlwaysOnlineEmailAgentBase.cpp:453-480 | Launching the stop timer keeps the start timer out of the table. |
| AgentInvariant.ConnectInv | email/alwaysonlineemailplugin/src/AlwaysOnlineEmailAgentBase.cpp:305-379 | ConnectL starts no connect operation while offline, or while roaming for the home network only. |
| AgentInvariant.PopChangeNextStateInv | email/alwaysonlineemailplugin/src/AlwaysOnlinePopAgent.cpp:198-296 | Every branch of the POP agent's choice keeps the table and resets the retry counter only when giving up. |
| AgentInvariant.PopCompletionInv | email/alwaysonlineemailplugin/src/AlwaysOnlinePopAgent.cpp:605-661 | Every completed POP operation is forgotten under the id it had, and only a success resets the counter. |
| AgentInvariant.ImapNextStateInv | email/alwaysonlineemailplugin/src/AlwaysOnlineImapAgent.cpp:426-566 | The same for the IMAP agent's choice. |
| AgentInvariant.ImapCompletionInv | email/alwaysonlineemailplugin/src/AlwaysOnlineImapAgent.cpp:831-972 | The same for the IMAP agent's completions. |
| AgentInvariant.FolderTimerCompletedInv | email/alwaysonlineemailplugin/src/AlwaysOnlineImapAgent.cpp:926-942 | When the folder timer has gone off, either the sync or a new timer is started, never both. |
| TimerExclusion.ScheduleTimersExcludeEachOther | email/alwaysonlineemailplugin/src/AlwaysOnlineEmailAgentBase.cpp:385-529 | In every run at most one schedule timer id is set, a set one names a pending timer, and no second schedule timer is pending. |
| TimerExclusion.ImapTimersAndFolderSyncsAreExclusive | email/alwaysonlineemailplugin/src/AlwaysOnlineImapAgent.cpp:572-666 | In every IMAP run at most one interval timer is pending, and at most one of folder timer and folder sync, so syncs never overlap. |
| RetryBound.RetryCounterStaysBelowFifteen | email/alwaysonlineemailplugin/src/AlwaysOnlineEmailAgentBase.cpp:1253-1327 | While no update has succeeded, the retry counter stays within 0..14 at every moment if and only if the success flag can be read whenever a fifteenth failure is counted. |
| RetryBound.StepKeepsBound | email/alwaysonlineemailplugin/src/AlwaysOnlineEmailAgentBase.cpp:1253-1315 | One event takes the counter out of 0..14 if and only if it counts a fifteenth failure without being able to read the flag. |
| RetryBound.FailuresAreCounted | email/alwaysonlineemailplugin/src/AlwaysOnlineEmailAgentBase.cpp:1279-1315 | The counter equals the failed connection attempts since its last reset, whatever queued, terminated or cancelled errors interleave and whatever settings can be read. |
| RetryBound.FifteenthFailureSwitchesOff | email/alwaysonlineemailplugin/src/AlwaysOnlinePopAgent.cpp:494-565 | A default connect failure is fatal exactly when it is the fifteenth since the reset and the success flag can be read; the agent then switches updates off and is removed. If the flag cannot be read the counter becomes 15. |
| RetryBound.UpdatedAgentIsNeverGivenUp | email/alwaysonlineemailplugin/src/AlwaysOnlineEmailAgentBase.cpp:1253-1327 | Once an update has succeeded, and until settings are reloaded, only a code that is fatal by itself makes a non-notification agent fatal. |
| RetryBound.SuccessIsRemembered | email/alwaysonlineemailplugin/src/AlwaysOnlineEmailAgentBase.cpp:689-705 | A recorded success stays recorded over every run without a settings reload. |
| FailureRuns.FifteenthFailureIsReached | email/alwaysonlineemailplugin/src/AlwaysOnlineEmailAgentBase.cpp:1285-1308 | From its start a POP agent fails to connect fourteen times; the next failure removes it, or, if the flag cannot be read, takes the counter out of its range. |
| FailureRuns.FourteenFailures | email/alwaysonlineemailplugin/src/AlwaysOnlineEmailAgentBase.cpp:1279-1315 | The fourteen failures of that run are all counted, none is reset, and the fifteenth is a default failure. |
| FailureRuns.CyclesCount | email/alwaysonlineemailplugin/src/AlwaysOnlinePopAgent.cpp:302-371 | k times connecting, failing and waiting count k failures and end in connecting again. |
| AgentBehaviour.PopConnectSucceeds | email/alwaysonlineemailplugin/src/AlwaysOnlinePopAgent.cpp:241-245 | A POP agent whose connect succeeds has its counter reset and its success recorded, and fetches the bodies if they are wanted. |
| AgentBehaviour.PopPopulated | email/alwaysonlineemailplugin/src/AlwaysOnlinePopAgent.cpp:246-248 | When the bodies are there it disconnects. |
| AgentBehaviour.ImapConnectSucceeds | email/alwaysonlineemailplugin/src/AlwaysOnlineImapAgent.cpp:494-496 | An IMAP agent whose plain connect succeeds synchronises, with that operation pending and remembered; if the connection is gone already it will retry. |
| AgentBehaviour.ImapSyncSucceeds | email/alwaysonlineemailplugin/src/AlwaysOnlineImapAgent.cpp:497-499 | A completed synchronisation leads to fetching. |
| AgentBehaviour.ImapFetched | email/alwaysonlineemailplugin/src/AlwaysOnlineImapAgent.cpp:500-511 | After fetching, an agent that is neither temporary nor staying online disconnects; the others set the folder timer. |
| AgentBehaviour.ConnectionIsOver | email/alwaysonlineemailplugin/src/AlwaysOnlineEmailAgentBase.cpp:1333-1361 | After a connection an agent waits for its next turn; one that serves notifications gives up and is idle. |
| AgentBehaviour.ConnectDecides | email/alwaysonlineemailplugin/src/AlwaysOnlineEmailAgentBase.cpp:305-379 | Whether a mailbox may be connected, is switched off, or is left idle, said of the conditions and not of the order in which they are tested. |
| AgentSchedule.WaitIsOver | email/alwaysonlineemailplugin/src/AlwaysOnlineEmailAgentBase.cpp:1110-1140 | When a wait is over: outside its schedule the agent sleeps with its start timer pending and connects nowhere; within it, it connects exactly if it may, with its stop timer pending. |
| AgentSchedule.WaitIsOverAtAnyHour | email/alwaysonlineemailplugin/src/AlwaysOnlineEmailAgentBase.cpp:464-471 | Without hours it connects whenever it may, and no schedule timer is set. |
| AgentSchedule.WaitIsOverForEmn | email/alwaysonlineemailplugin/src/AlwaysOnlineEmailAgentBase.cpp:1131-1137 | An agent that serves notifications does not ask the schedule. |
| AgentSchedule.ScheduleSaysWait | email/alwaysonlineemailplugin/src/AlwaysOnlineEmailAgentBase.cpp:416-447 | A schedule timer that finds the schedule closed puts any agent to sleep, disconnecting one that stays online. |
| AgentSchedule.ScheduleStarts | email/alwaysonlineemailplugin/src/AlwaysOnlinePopAgent.cpp:274-279 | The start timer that finds the schedule open makes the agent connect if it may. |
| AgentSchedule.AgentStartsAfresh | email/alwaysonlineemailplugin/src/AlwaysOnlinePopAgent.cpp:214-238 | An initialised agent drops what it had and sets its timers as the schedule says; one that serves notifications is idle. |
| AgentSchedule.NoConnectOutsideSchedule | email/alwaysonlineemailplugin/src/AlwaysOnlineEmailAgentBase.cpp:1110-1140 | Over every run: while the schedule says wait whenever asked, an agent without notifications never has a connect operation pending. |
| AgentErrors.CancelledConnect | email/alwaysonlineemailplugin/src/AlwaysOnlinePopAgent.cpp:506-513 | A cancelled or aborted connect drops everything and starts the agent afresh. |
| AgentErrors.BusyConnect | email/alwaysonlineemailplugin/src/AlwaysOnlinePopAgent.cpp:515-524 | On a busy line the agent is queued and waits, its other operations untouched; one that serves notifications tries three times. |
| AgentErrors.TerminatedConnect | email/alwaysonlineemailplugin/src/AlwaysOnlinePopAgent.cpp:543-546 | A terminated or timed-out connection is not counted. |
| AgentErrors.FatalConnect | email/alwaysonlineemailplugin/src/AlwaysOnlinePopAgent.cpp:525-541 | A fatal code, or a missing server without any success before, switches the agent off. |
| AgentErrors.MissingServer | email/alwaysonlineemailplugin/src/AlwaysOnlineEmailAgentBase.cpp:1257-1273 | A missing server after a success is counted and tried again. |
| AgentErrors.OrdinaryFailure | email/alwaysonlineemailplugin/src/AlwaysOnlineEmailAgentBase.cpp:1279-1315 | Any other failure is counted and tried again, except at the third for an agent that serves notifications and at the fifteenth without a success. |
| AgentErrors.UnreadableConnectFailure | email/alwaysonlineemailplugin/src/AlwaysOnlinePopAgent.cpp:614-618 | A failed connect whose stored flag cannot be read is only taken away. |
| AgentErrors.LeaveRestarts | email/alwaysonlineemailplugin/src/AlwaysOnlineEmailAgentBase.cpp:179-190 | A leave out of the choice of the next state restarts the agent. |
| AgentEvents.StartEvent | email/alwaysonlineemailplugin/src/AlwaysOnlinePopAgent.cpp:94-128 | A first start sets the start delay or idles the agent; a later one changes nothing. |
| AgentEvents.SuspendEvent | email/alwaysonlineemailplugin/src/AlwaysOnlineEmailAgentBase.cpp:562-570 | Suspension drops every operation and every id but the start delay's. |
| AgentEvents.ResumeEvent | email/alwaysonlineemailplugin/src/AlwaysOnlineEmailAgentBase.cpp:575-617 | Resuming takes the settings over and restarts an idle agent where it may update. |
| AgentEvents.NetworkEvents | email/alwaysonlineemailplugin/src/AlwaysOnlineEmailAgentBase.cpp:622-633 | Roaming resets, and home again restarts, the agents that are not set to update everywhere. |
| AgentEvents.OutOfDiskEvent | email/alwaysonlineemailplugin/src/AlwaysOnlineEmailAgentBase.cpp:639-651 | Every agent but a temporary one is switched off. |
| AgentEvents.NotificationEvent | email/alwaysonlineemailplugin/src/AlwaysOnlineEmailAgent.cpp:176-201 | A notification connects the mailbox exactly if it may be connected. |
| AgentEvents.SynchronisedEvent | email/alwaysonlineemailplugin/src/AlwaysOnlineImapAgent.cpp:382-418 | The server's synchronisation is a success, and an agent that stays online fetches. |
| AgentEvents.FoldersChangedEvent | email/alwaysonlineemailplugin/src/AlwaysOnlineImapAgent.cpp:1194-1240 | Changed folders are fetched, after an outstanding sync; a disconnected mailbox begins the removal. |
| AgentEvents.RemovalCompletes | email/alwaysonlineemailplugin/src/AlwaysOnlineImapAgent.cpp:431-454 | The removal ends in removal, or in a normal agent if it existed before. |
| AgentEvents.UpdateWhileConnectedEvent | email/alwaysonlineemailplugin/src/AlwaysOnlineImapAgent.cpp:1334-1370 | The agent becomes temporary and watches the open connection, or goes. |
| AgentEvents.FolderTimerEvent | email/alwaysonlineemailplugin/src/AlwaysOnlineImapAgent.cpp:926-942 | The folder timer starts the folder sync. |
| AgentEvents.FolderSyncEvent | email/alwaysonlineemailplugin/src/AlwaysOnlineImapAgent.cpp:943-961 | The folder sync sets the timer again, after fetching what changed meanwhile. |
| AgentEvents.OpenConnectionLost | email/alwaysonlineemailplugin/src/AlwaysOnlineImapAgent.cpp:842-863 | A lost open connection is counted as a failure and tried again. |
| AgentEvents.OpenConnectionClosed | email/alwaysonlineemailplugin/src/AlwaysOnlineImapAgent.cpp:842-863 | One that the agent closed itself is not counted; the schedule decides what follows. |
| AgentEvents.SyncFails | email/alwaysonlineemailplugin/src/AlwaysOnlineImapAgent.cpp:864-870 | A failed synchronisation is not counted; the agent waits. |
| AgentCycles.PopAgentTakesItsTurn | email/alwaysonlineemailplugin/src/AlwaysOnlinePopAgent.cpp:198-296 | A whole turn of a POP agent: wait, connect, fetch, disconnect, wait again, with counter reset, success recorded, stop timer set. |
| AgentCycles.ImapAgentTakesItsTurn | email/alwaysonlineemailplugin/src/AlwaysOnlineImapAgent.cpp:426-566 | A whole turn of an IMAP agent: wait, connect, synchronise, fetch, disconnect, wait again. |
| SyncBeforeFetch.FirstFetchNeedsSync | email/alwaysonlineemailplugin/src/AlwaysOnlineImapAgent.cpp:494-499 | Over every run from a fresh agent: it gets to fetching only through a moment at which a synchronisation was pending, unless the server or its folders bring mail by themselves. |
| MailAgent.MailAgent.OpCompleted | email/alwaysonlineemailplugin/src/AlwaysOnlineEmailAgentBase.cpp:147-192 | A completion takes the object exactly to the state the model gives, and reports the same leave. |
| MailAgent.MailAgent.CleanOperation | email/alwaysonlineemailplugin/src/AlwaysOnlineEmailAgentBase.cpp:385-410 | Exactly the operation with the id leaves the array, and the id is cleared if there was one. |
| MailAgent.MailAgent.DeleteOperation | email/alwaysonlineemailplugin/src/AlwaysOnlineImapAgent.cpp:576-593 | The search from the end deletes exactly the operation with the id. |
| MailAgent.MailAgent.ConnectL | email/alwaysonlineemailplugin/src/AlwaysOnlineEmailAgentBase.cpp:305-379 | The checks in their order: disk space, offline, access point, settings, network; then connect, idle or switch off. |
| MailAgent.MailAgent.CheckAndHandleSchedulingL | email/alwaysonlineemailplugin/src/AlwaysOnlineEmailAgentBase.cpp:485-529 | Old timers are cleaned, then the start or stop timer is launched. |
| MailAgent.MailAgent.HandleDefaultError | email/alwaysonlineemailplugin/src/AlwaysOnlineEmailAgentBase.cpp:1253-1327 | The default retry mechanism, with the counter incremented before the flag is read. |
| MailAgent.MailAgent.HandleOpErrorL | email/alwaysonlineemailplugin/src/AlwaysOnlinePopAgent.cpp:494-565 | The error switch; the error is reset unless the handling leaves. |
| MailAgent.MailAgent.StartWaitTimerL | email/alwaysonlineemailplugin/src/AlwaysOnlinePopAgent.cpp:302-371 | The interval timer is started unless it runs; the IMAP agent drops a running one first. |
| MailAgent.MailAgent.PopChangeNextStateL | email/alwaysonlineemailplugin/src/AlwaysOnlinePopAgent.cpp:198-296 | The POP agent's state switch. |
| MailAgent.MailAgent.ImapNextStateL | email/alwaysonlineemailplugin/src/AlwaysOnlineImapAgent.cpp:456-566 | The IMAP agent's state switch. |
| MailAgent.MailAgent.PopHandleOpCompleted | email/alwaysonlineemailplugin/src/AlwaysOnlinePopAgent.cpp:605-661 | The POP agent's completion handler. |
| MailAgent.MailAgent.ImapHandleOpCompleted | email/alwaysonlineemailplugin/src/AlwaysOnlineImapAgent.cpp:831-972 | The IMAP agent's completion handler. |
| MailAgent.MailAgent.StartFolderSyncTimerL | email/alwaysonlineemailplugin/src/AlwaysOnlineImapAgent.cpp:1030-1081 | The folder timer is started only when staying online with no folder operation or populate outstanding. |
| MailAgent.MailAgent.DoFolderSyncL | email/alwaysonlineemailplugin/src/AlwaysOnlineImapAgent.cpp:986-1025 | The periodic folder sync. |
| MailAgent.MailAgent.ResumeL | email/alwaysonlineemailplugin/src/AlwaysOnlineEmailAgentBase.cpp:575-617 | New settings are taken over; an idle agent restarts if the network allows it. |
| MailAgent.MailAgent.StartL | email/alwaysonlineemailplugin/src/AlwaysOnlinePopAgent.cpp:94-128 | The start delay, or suspension when offline or away from home. |
| MailAgent.MailAgent.HandleRoamingEventL | email/alwaysonlineemailplugin/src/AlwaysOnlineEmailAgentBase.cpp:622-633 | A roaming event resets the agents that are not set to update everywhere. |
| MailAgent.MailAgent.HandleFolderEntryL | email/alwaysonlineemailplugin/src/AlwaysOnlineImapAgent.cpp:1194-1240 | A folder change starts a fetch, waits for the folder sync, or begins the agent's removal. |
| MailAgent.MailAgent.SetUpdateMailWhileConnectedL | email/alwaysonlineemailplugin/src/AlwaysOnlineImapAgent.cpp:1334-1370 | The agent becomes temporary and observes the open connection. |
| MailAgent.MailAgent.Handle | email/alwaysonlineemailplugin/src/AlwaysOnlineEmailAgentBase.cpp:147-192 | Any deliverable event: the object takes exactly the step that the runs are made of. |
| MailAgent.MailAgent.HandleAll | email/alwaysonlineemailplugin/src/AlwaysOnlineEmailAgentBase.cpp:147-192 | A whole run on the object: it ends where the run of its state ends, its schedule timers and folder operations exclude each other and are the ones in its array, its retry counter keeps its bound, a settled POP agent is not stuck. |
| MailboxWorld.NoConnectsWhileOffline | email/alwaysonlineemailplugin/src/AlwaysOnlineEmailAgent.cpp:111-119 | After any run that ends offline, the suspend broadcast, and any further run without the end of offline: no agent has a connect operation pending. |
| MailboxWorld.NoHomeOnlyConnectsWhileRoaming | email/alwaysonlineemailplugin/src/AlwaysOnlineEmailAgent.cpp:137-145 | Likewise for home-only agents while roaming, with settings unchanged. |
| MailboxWorld.AgentsMatchTheirMailboxes | email/alwaysonlineemailplugin/src/AlwaysOnlineEmailAgent.cpp:642-680 | In every run mailbox ids are pairwise distinct and each agent is of its mailbox's protocol, so the cast of the agent found is right. |
| MailboxWorld.WorldStepKeeps | email/alwaysonlineemailplugin/src/AlwaysOnlineEmailAgent.cpp:101-158 | Every happening keeps the array in order. |
| MailboxWorld.ConnectedMailboxGetsAgent | email/alwaysonlineemailplugin/src/AlwaysOnlineEmailAgent.cpp:642-680 | A connected IMAP mailbox without an agent gets a temporary one that watches the connection; one that was there stays afterwards. |
| MailboxWorld.DeletedMailboxHasNoAgent | email/alwaysonlineemailplugin/src/AlwaysOnlineEmailAgent.cpp:392-409 | A deleted mailbox has no agent any more and the others keep theirs. |
| MailboxWorld.WorldStepCalm | email/alwaysonlineemailplugin/src/AlwaysOnlineEmailAgentBase.cpp:305-379 | While offline or roaming no happening lets a connect operation appear. |
| MailboxArray.RefreshYields | email/alwaysonlineemailplugin/src/AlwaysOnlineEmailAgent.cpp:248-302 | With settings that load, a refresh yields the healthy old agents with an entry, unchanged and in order, then a new agent for each healthy IMAP, then POP, service mailbox that wants updates and had none, however often its account is listed. |
| MailboxArray.RefreshTwice | email/alwaysonlineemailplugin/src/AlwaysOnlineEmailAgent.cpp:248-302 | A second refresh changes nothing. |
| MailboxArray.RefreshKeeps | email/alwaysonlineemailplugin/src/AlwaysOnlineEmailAgent.cpp:248-302 | Even a refresh that leaves halfway keeps mailboxes distinct and adds only fresh agents of the right protocol. |
| MailboxArray.Find | email/alwaysonlineemailplugin/src/AlwaysOnlineEmailAgent.cpp:365-387 | The first agent of the mailbox, found exactly if there is one. |
| MailboxAgents.MailboxAgents.FindMailbox | email/alwaysonlineemailplugin/src/AlwaysOnlineEmailAgent.cpp:365-387 | The search loop finds the first agent of the mailbox. |
| MailboxAgents.MailboxAgents.DeleteMailbox | email/alwaysonlineemailplugin/src/AlwaysOnlineEmailAgent.cpp:392-409 | The first agent of the mailbox is deleted, and the answer says whether there was one. |
| MailboxAgents.MailboxAgents.IsMailAgentActive | email/alwaysonlineemailplugin/src/AlwaysOnlineEmailAgent.cpp:489-562 | Active with notifications or automatic retrieval on, or while an agent exists; leaves if the settings cannot be loaded. |
| MailboxAgents.MailboxAgents.GetMailboxes | email/alwaysonlineemailplugin/src/AlwaysOnlineEmailAgent.cpp:208-243 | The IMAP and then the POP accounts without those already in the array. |
| MailboxAgents.MailboxAgents.AddMailbox | email/alwaysonlineemailplugin/src/AlwaysOnlineEmailAgent.cpp:307-342 | An agent is appended for a service mailbox of a known protocol that has none. |
| MailboxAgents.MailboxAgents.DropStaleAgents | email/alwaysonlineemailplugin/src/AlwaysOnlineEmailAgent.cpp:250-281 | The backward loop deletes the agents whose mailbox is gone or unhealthy. |
| MailboxAgents.MailboxAgents.RefreshMailAgentArray | email/alwaysonlineemailplugin/src/AlwaysOnlineEmailAgent.cpp:248-302 | Both loops together do what the refresh function says, leaves included. |
| MailboxAgents.MailboxAgents.SwitchOffAllAgents | email/alwaysonlineemailplugin/src/AlwaysOnlineEmailAgent.cpp:474-484 | All agents are deleted. |
| BaseOp.AtMostOneCallback | email/mail/EditorSrc/cmsgmailbaseop.cpp:174-254 | Over any interleaving every StartOp is answered by at most one callback, made in the idle state. |
| BaseOp.FirstRunCallsBack | email/mail/EditorSrc/cmsgmailbaseop.cpp:58-145 | Once nothing is on its way to it any more, a first run has called back exactly once, to the client that started it and with the code that ended it, if no action left with KLeaveExit or a leave claimed as handled; otherwise not at all. |
| BaseOp.ChosenStateIsEntered | email/mail/EditorSrc/cmsgmailbaseop.cpp:94-106 | A run step without an end or a leave enters the state that SetNextState chose, and goes on. |
| BaseOp.OldCodeAnswersNextStart | email/mail/EditorSrc/cmsgmailbaseop.cpp:86-93 | The code of a run that ended behind a wait note answers the next StartOp at once, before any state is entered. |
| BaseOp.FirstStateIsEntered | email/mail/EditorSrc/cmsgmailbaseop.cpp:86-106 | A start of an idle operation enters its first state if and only if no code is kept from an earlier run. |
| BaseOp.OldCodeIsKept | email/mail/EditorSrc/cmsgmailbaseop.cpp:215-234 | Such a state is reached: a run whose wait note outlasts it calls back once and keeps its code. |
| MailBaseOp.MailBaseOp.Run | email/mail/EditorSrc/cmsgmailbaseop.cpp:69-107 | RunL changes the fields as the model says. |
| MailBaseOp.MailBaseOp.RunError | email/mail/EditorSrc/cmsgmailbaseop.cpp:114-145 | RunError likewise. |
| MailBaseOp.MailBaseOp.StartOp | email/mail/EditorSrc/cmsgmailbaseop.cpp:174-198 | Both StartOp overloads: cancel, register the client, go. |
| MailBaseOp.MailBaseOp.CompleteOperation | email/mail/EditorSrc/cmsgmailbaseop.cpp:215-234 | Completion, immediate or behind a wait note. |
| MailBaseOp.MailBaseOp.NotifyObservers | email/mail/EditorSrc/cmsgmailbaseop.cpp:239-254 | Each waiting client is called back once and forgotten. |
| MailBaseOp.MailBaseOp.Cancel | email/mail/EditorSrc/cmsgmailbaseop.cpp:58-63 | Cancelling an active operation completes it. |
| MailBaseOp.MailBaseOp.DialogDismissed | email/mail/EditorSrc/cmsgmailbaseop.cpp:152-158 | A dismissed wait note activates the operation. |
| RestoreAttachments.EveryAttachmentIsVisitedOnce | email/mail/EditorSrc/cmsgmailrestoreattasop.cpp:115-155 | Given that removals are reported only when done, the pass visits each attachment once, in the original order, and ends after exactly as many visits; the remainder drops by one per visit. |
| RestoreAttachments.AttachmentsAreConserved | email/mail/EditorSrc/cmsgmailrestoreattasop.cpp:173-227 | All are shown, removed or invalid; the manager holds all but the removed, the model exactly the good ones, both in order. |
| RestoreAttachments.PassEndsWhenReportsAreRight | email/mail/EditorSrc/cmsgmailrestoreattasop.cpp:173-195 | Without the assumption: the pass has ended after k visits if and only if as many of them were right as there were attachments. |
| RestoreAttachments.RestoreAttasOp.Run | email/mail/EditorSrc/cmsgmailrestoreattasop.cpp:83-155 | The whole operation ends idle, with document and counters as the pass leaves them. |
| RestoreAttachments.RestoreAttasOp.VisitOne | email/mail/EditorSrc/cmsgmailrestoreattasop.cpp:173-227 | One attachment: child operation, index and counters. |
| RestoreAttachments.RestoreAttasOp.RestoreAttaL | email/mail/EditorSrc/cmsgmailrestoreattaop.cpp:176-270 | The child operation's checks in order, and the index moved on. |
| RestoreAttachments.RestoreAttasOp.HandleStateActionError | email/mail/EditorSrc/cmsgmailrestoreattasop.cpp:173-195 | A removal steps the index back; any other error counts as invalid. |
| RestoreAttachments.RestoreAttasOp.SetNextState | email/mail/EditorSrc/cmsgmailrestoreattasop.cpp:115-155 | The state switch. |
| RestoreAttachments.RestoreAttasOp.InitializeL | email/mail/EditorSrc/cmsgmailrestoreattasop.cpp:200-213 | Counters and model are reset, the attachments counted. |
| LaunchOp.LaunchReachesFinalState | email/mail/EditorSrc/cmsgmaillaunchop.cpp:135-176 | A launch in its final state has both restore operations finished without error, every attachment accounted for and all attached messages shown in order; the all-invalid wording is chosen exactly when there is something and nothing is good or removed. |
| LaunchOp.LaunchCanReachFinalState | email/mail/EditorSrc/cmsgmaillaunchop.cpp:135-176 | Whatever the attachments are and whatever becomes of each, a run reaches the final state with exactly the outcome of the restore pass. |
| LaunchOp.NoneGoodButNotAllInvalid | email/mail/EditorSrc/cmsgmailrestoresuperop.cpp:183-212 | Runs in which no attachment is good: with none removed the note says that all are invalid, with one or more removed it says few. |
| LaunchOp.LaunchWasEverywhere | email/mail/EditorSrc/cmsgmaillaunchop.cpp:135-176 | A launch in its final state has been in every state before it, in order. |
| LaunchOp.FailuresPropagate | email/mail/EditorSrc/cmsgmailrestoresuperop.cpp:115-178 | A failure ends the operation that waits for it with the same code, level by level. |
| LaunchOp.StepInv | email/mail/EditorSrc/cmsgmailrestoresuperop.cpp:115-178 | Every RunL of any of the four nested operations keeps: past the restore state, the restore operation is there and done. |
| LaunchOp.AttasRunInv | email/mail/EditorSrc/cmsgmailrestoreattasop.cpp:115-227 | Conservation of attachments holds after every step, not only at the end. |
| LaunchOp.MsgsRunInv | email/mail/EditorSrc/cmsgmailrestoreattmsgsop.cpp:114-232 | An operation on attached messages that finishes has shown them all, in order, and found none invalid. |
| LineBreaks.ConvertLineBreaks | email/mail/EditorSrc/cmsgmaillaunchop.cpp:282-316 | The in-place loop computes the one-pass conversion. |
| LineBreaks.ConversionKeepsTheText | email/mail/EditorSrc/cmsgmaillaunchop.cpp:282-316 | The result is shorter by one per CRLF, holds no CRLF, and is the old text once all line ends are written alike; every tenth examined line break has become a paragraph delimiter, and the only line feeds left directly followed a CRLF. |
| Recipients.CheckRecipientsInField | email/mail/EditorSrc/MsgMailEditorAppUi.cpp:626-744 | The loop that inserts into the array it walks succeeds exactly if every recipient is valid or expands to valid ones, and leaves the expanded prefix and the untouched suffix. |
| Recipients.CheckRecipients | email/mail/EditorSrc/MsgMailEditorAppUi.cpp:592-620 | To, then Cc, then Bcc; fields after the first failing one stay as they are. |
| Recipients.CheckedFieldIsReady | email/mail/EditorSrc/MsgMailEditorAppUi.cpp:626-744 | All recipients pass if and only if every entry of the result is valid and marked; then a second check changes nothing. |
| Recipients.MailGoesToThoseMeant | email/mail/EditorSrc/MsgMailEditorAppUi.cpp:640-744 | The recipients before the first that fails have become exactly those meant by them, themselves or everybody the phonebook finds, in order with their names; the others are untouched. |
| Recipients.PassesMeans | email/mail/EditorSrc/MsgMailEditorAppUi.cpp:640-692 | A recipient passes exactly if it is an address or stands for at least one, and for addresses only. |
| Recipients.ReplaceEntry | email/mail/EditorSrc/MsgMailEditorAppUi.cpp:694-717 | The entry is replaced by those found, inserted one by one in order. |
| Recipients.ValidateFound | email/mail/EditorSrc/MsgMailEditorAppUi.cpp:662-692 | The entries found are all valid, and then all marked, or the check fails. |
| Duplicates.RemoveDuplicates | email/mail/EditorSrc/MsgMailEditorAppUi.cpp:2343-2377 | The two nested loops over one field do what the removal function says. |
| Duplicates.RemovalKeepsAddresses | email/mail/EditorSrc/MsgMailEditorAppUi.cpp:2343-2377 | Any field: a subsequence is left with an entry for every address, named if one was. |
| Duplicates.NamedFieldKeepsFirstOccurrences | email/mail/EditorSrc/MsgMailEditorAppUi.cpp:2343-2377 | If all entries are named, exactly the first entry of each address is left. |
| Duplicates.UnnamedDuplicatesSurvive | email/mail/EditorSrc/MsgMailEditorAppUi.cpp:2352-2366 | Unnamed A, B, B, A becomes B, B, A. |
| Duplicates.TidyFieldLosesDuplicates | email/mail/EditorSrc/MsgMailEditorAppUi.cpp:2343-2377 | No duplicates are left if every entry without a name is the last of its address or directly followed by its next occurrence. |
| Duplicates.RemoveDuplicatesBetween | email/mail/EditorSrc/MsgMailEditorAppUi.cpp:1822-1862 | For each entry of the earlier field the first match in the later one is deleted. |
| Duplicates.FindF | email/mail/EditorSrc/MsgMailEditorAppUi.cpp:1842-1842 | The search for one address in another, case folded, on every pair of texts. |
| Duplicates.Header.DoRemoveDuplicates | email/mail/EditorSrc/MsgMailEditorAppUi.cpp:1796-1812 | The six passes, on whichever fields the mail has. |
| Duplicates.NoDuplicatesLeft | email/mail/EditorSrc/MsgMailEditorAppUi.cpp:1796-1862 | With tidy fields (all named, for example) and no address inside another: the three fields end up duplicate-free, and each address is in the first field that it was in. |
| Duplicates.EarlierFieldsWin | email/mail/EditorSrc/MsgMailEditorAppUi.cpp:1810-1862 | On every input: To is cleaned by itself, Cc and Bcc keep their order and lose only entries that are found in an earlier field. |
| Duplicates.LaterFieldLosesOnlyFound | email/mail/EditorSrc/MsgMailEditorAppUi.cpp:1822-1862 | The later field loses at most one entry for each entry of the earlier one, and only entries found in one. |
| HeaderControls.InsertionKeepsOrder | email/mail/EditorSrc/cmsgmaileditorheader.cpp:203-237 | There is exactly one place that keeps the header ordered: the number of shown controls that come before. |
| HeaderControls.OrderIsUnique | email/mail/EditorSrc/cmsgmaileditorheader.cpp:203-212 | What is shown determines the header: To, Cc, Bcc, Reply-to, Subject, attachments. |
| HeaderControls.UpdateSettles | email/mail/EditorSrc/cmsgmaileditorheader.cpp:81-122 | A visibility update settles each listed control and no other. |
| HeaderControls.MailEditorHeader.AddControl | email/mail/EditorSrc/cmsgmaileditorheader.cpp:162-237 | The control is shown, at its place. |
| HeaderControls.MailEditorHeader.UpdateHeaderVisibility | email/mail/EditorSrc/cmsgmaileditorheader.cpp:81-122 | The loop does what the update says, in order at every step. |
| HeaderControls.MailEditorHeader.UpdateReplyToControl | email/mail/EditorSrc/cmsgmaileditorheader.cpp:128-156 | Reply-to is shown exactly if there is an address. |
| HeaderControls.MailEditorHeader.CreateAttachmentControl | email/mail/EditorSrc/cmsgmaileditorheader.cpp:308-323 | The attachment control is appended, which is its place. |
| HeaderControls.MailEditorHeader.CreateHeaders | email/mail/EditorSrc/cmsgmaileditorheader.cpp:255-303 | The header of an opened mail, in order. |
| EmnResolver.FindEMNMailbox | email/alwaysonlineemailplugin/src/AlwaysOnlineEmailEMNResolver.cpp:99-167 | The loop with its reused buffers finds what the search function says. |
| EmnResolver.ResolvedIsFirstAccepted | email/alwaysonlineemailplugin/src/AlwaysOnlineEmailEMNResolver.cpp:99-167 | On every array, whatever can be read, the first mailbox accepted with what the shared buffers hold at that moment. |
| EmnResolver.FirstFittingMailboxIsFound | email/alwaysonlineemailplugin/src/AlwaysOnlineEmailEMNResolver.cpp:99-167 | The result is the first mailbox in array order that serves notifications and fits by its own settings if and only if no unreadable mailbox before any fitting one is accepted with a setting left from an earlier one. |
| EmnResolver.PopAuthUriIsInverted | email/alwaysonlineemailplugin/src/AlwaysOnlineEmailEMNResolver.cpp:251-284 | A POP URI with authentication fits exactly the POP mailboxes that are known to be of its user and server. |
| EmnResolver.PopUriIsInverted | email/alwaysonlineemailplugin/src/AlwaysOnlineEmailEMNResolver.cpp:289-317 | A POP URI without authentication likewise. |
| EmnResolver.ImapUriIsInverted | email/alwaysonlineemailplugin/src/AlwaysOnlineEmailEMNResolver.cpp:217-246 | An IMAP URI fits exactly the IMAP mailboxes of its user whose server name begins the host part. |
| EmnResolver.MailatUriFits | email/alwaysonlineemailplugin/src/AlwaysOnlineEmailEMNResolver.cpp:126-130 | An address URI fits exactly the mailboxes whose e-mail address occurs in it after the start. |
| EmnResolver.OwnAddressFits | email/alwaysonlineemailplugin/src/AlwaysOnlineEmailEMNResolver.cpp:125-130 | The URI built from a mailbox's own address fits it. |
| EmnResolver.SlashesFirst | email/alwaysonlineemailplugin/src/AlwaysOnlineEmailEMNResolver.cpp:228-237 | The pattern guarantees what the matchers look for, so no index runs out of bounds. |
| EmnResolver.MatchIsOccurrence | email/alwaysonlineemailplugin/src/AlwaysOnlineEmailEMNResolver.cpp:33-36 | Matching a wildcard pattern is the occurrence of its pieces one after the other. |
| EmnResolver.UnreadUserIsTakenFromBefore | email/alwaysonlineemailplugin/src/AlwaysOnlineEmailEMNResolver.cpp:117-120 | A user name that cannot be read is taken from an earlier mailbox: a mailbox is found though none fits. |
| Timestamps.DecodersAgree | email/emailnotificationhandler/src/EMNXMLContentHandler.cpp:212-441 | Text and octets of every real date and time are decoded alike, month and day counted from zero. |
| Timestamps.HandleXMLAttributes | email/emailnotificationhandler/src/EMNXMLContentHandler.cpp:212-319 | The four edit loops end on any input and leave the edited text, which is then decremented and parsed. |
| Timestamps.DeleteAll | email/emailnotificationhandler/src/EMNXMLContentHandler.cpp:231-245 | A delete loop ends and deletes exactly the character. |
| Timestamps.ReplaceAll | email/emailnotificationhandler/src/EMNXMLContentHandler.cpp:248-253 | The replace loop ends and replaces exactly the character. |
| Timestamps.OctetsAreDecoded | email/emailnotificationhandler/src/EMNXMLContentHandler.cpp:324-441 | Binary-coded decimal octets are decoded to the date and time they were made from. |
| Timestamps.OctetsDecodeIfReal | email/emailnotificationhandler/src/EMNXMLContentHandler.cpp:362-424 | Decimal octets are decoded exactly if they are those of a real date and time; otherwise the first wrong field is named. |
| FolderObserver.BatchesLoseNothing | email/alwaysonlineemailplugin/src/AlwaysOnlineImap4FolderObserver.cpp:161-216 | Recorded ids are those delivered followed by those pending; each was watched when recorded; no folder waits twice; a due notification has its timer set and a batch. |
| FolderObserver.ChangeIsDelivered | email/alwaysonlineemailplugin/src/AlwaysOnlineImap4FolderObserver.cpp:145-156 | A change below a watched folder is in the next batch delivered. |
| FolderObserver.MailboxChangeIsDelivered | email/alwaysonlineemailplugin/src/AlwaysOnlineImap4FolderObserver.cpp:194-211 | A change of the mailbox itself is recorded each time, and delivered. |
| FolderObserver.OnlyWatchedChangesCount | email/alwaysonlineemailplugin/src/AlwaysOnlineImap4FolderObserver.cpp:161-216 | A change sets the timer exactly if it concerns something watched; others are ignored. |
| FolderObserver.StartStopAndTimer | email/alwaysonlineemailplugin/src/AlwaysOnlineImap4FolderObserver.cpp:116-156 | Starting and stopping keep the batch; after its timer an observer waits to be started. |
| FolderObserver.WatchedFolders | email/alwaysonlineemailplugin/src/AlwaysOnlineImap4FolderObserver.cpp:221-261 | What is watched after folders are appended, removed and reset. |
| FolderObserver.Imap4FolderObserver.HandleSessionEventL | email/alwaysonlineemailplugin/src/AlwaysOnlineImap4FolderObserver.cpp:161-216 | The event handler changes the fields as the model says. |
| FolderObserver.Imap4FolderObserver.RunL | email/alwaysonlineemailplugin/src/AlwaysOnlineImap4FolderObserver.cpp:145-156 | The batch is delivered and reset, unless the agent leaves. |
| FolderObserver.Imap4FolderObserver.Start | email/alwaysonlineemailplugin/src/AlwaysOnlineImap4FolderObserver.cpp:116-122 | Starting does not touch the batch. |
| FolderObserver.Imap4FolderObserver.Stop | email/alwaysonlineemailplugin/src/AlwaysOnlineImap4FolderObserver.cpp:124-130 | Stopping does not touch the batch either. |
| FolderObserver.Imap4FolderObserver.RemoveFolder | email/alwaysonlineemailplugin/src/AlwaysOnlineImap4FolderObserver.cpp:233-241 | The first occurrence of the folder is deleted. |

## Left out

- MailAgent.MailAgent.Handle: HandleFolderEntryL also stops the folder observer while a folder sync runs; the observer is modelled by itself in FolderObserver.
- MailAgent.MailAgent.ResetAll: the synchronous disconnect and its nested scheduler wait are one atomic step without effect on the agent.
- MailAgent.MailAgent.StartWaitTimerL: how long a timer runs is not modelled, only that it runs; the same for the other timers.
- MailAgent.MailAgent.PopHandleOpCompleted: the stored "last update failed" flag and the time of the last update are not modelled, only whether reading leaves.
- MailAgent.MailAgent.OpCompleted: completion codes are taken as HandleCompletingOperation passes them on; reading them from the progress packet is not modelled.
- MailAgent.MailAgent.ImapHandleOpCompleted: the connect-and-sync id is compared there but never assigned anywhere, so its branches are dead and not modelled.
- The POP, IMAP and base classes are one class here, with the protocol as a constant; the remembered ids are one record.
- MailboxAgents.MailboxAgents.RefreshMailAgentArray: the array holds agents by value, not by reference; the three attempts to load settings are one answer.
- MailboxWorld.WorldStepKeeps: broadcasts other than suspend, roaming and home network are runs of single-agent events; the out-of-disk broadcast, which keeps a fixed count while agents remove themselves, is not modelled as one loop.
- A no-stall claim for the IMAP agent: its temporary mode and the asynchronous folder notification break the simple form.
- SetStayOnlineFlagL and FetchNewMailFromSelectedFoldersL of the IMAP agent, which nothing calls.
- The choice of access point and connection method: an answer of the platform.
- MailBaseOp.MailBaseOp.NotifyObservers: an observer that starts the operation again from within its callback is not modelled.
- MailBaseOp.MailBaseOp.StartOp: the debug-build assertion that the operation is idle is not modelled, so the results also cover the release build.
- RestoreAttachments.RestoreAttasOp.RestoreAttaL: the child operation is one step, and a removal that reports an error is taken not to have removed anything.
- LaunchOp.StepInv: the four nested operations are values rather than objects, since their steps interleave; wait notes are left to BaseOp, and an operation is started only when idle, as StartOp asserts.
- RestoreAttachments.RestoreAttasOp.Run: a leave before the child operation is started stalls the operation; LaunchOp.AttasRun models it, this loop does not.
- Recipients.CheckRecipientsInField: notes, highlighting and the refresh of the control are not modelled.
- Duplicates.TidyFieldLosesDuplicates: a sufficient condition; some untidy fields lose their duplicates as well.
- HeaderControls.MailEditorHeader.AddControl: resources, focus and the contents of controls are not modelled.
- EmnResolver.FindEMNMailbox: the length limits of the buffers are not modelled.
- Timestamps.HandleXMLAttributes: TTime::Set is taken to accept exactly YYYYMMDD:HHMMSS with valid fields; both decoders are modelled although their calls are commented out (lines 179-191).
- Timestamps.OctetsAreDecoded: seconds, and what an uninitialised date-time holds when an octet is missing, are not modelled; SetYear is taken to succeed.
- FolderObserver.Imap4FolderObserver.HandleSessionEventL: how long the timer runs is not modelled.
- All user interface: dialogs, menus, setting pages, notes; logging; plug-in entry points; central repository.
