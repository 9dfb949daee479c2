/** Runs of one agent: completions in any order, with any code, mixed with outside events. */
module AgentRuns {
  import opened AgentState
  import PopAgent
  import ImapAgent

  /** Completed carries the answers given while the completion is handled (h) and while the next
      state is chosen (c). */
  datatype Event =
    | OpCompletes(id: int, code: Err, h: Env, c: Env)
    | Started(env: Env)
    | Suspended
    | Resumed(connectNow: bool, settings: Settings, env: Env)
    | RoamingStarted
    | HomeNetworkFound
    | OutOfDisk(env: Env)
    | EmnReceived(env: Env)
    | Synchronised
    | FoldersChanged(mailbox: bool, env: Env)
    | UpdateWhileConnected(alreadyCreated: bool, env: Env)

  function HandleOpCompleted(a: Agent, id: int, code: Err, env: Env): Agent {
    if a.protocol.Pop3? then PopAgent.HandleOpCompleted(a, id, code, env)
    else ImapAgent.HandleOpCompleted(a, id, code, env)
  }

  function ChangeNextStateL(a: Agent, env: Env): Agent {
    if a.protocol.Pop3? then PopAgent.ChangeNextStateL(a, env) else ImapAgent.ChangeNextStateL(a, env)
  }

  /** What a completion does before the next state is chosen. */
  function CompletionHandled(a: Agent, id: int, code: Err, env: Env): Agent {
    if id in a.ops then HandleOpCompleted(a.(ops := a.ops - {id}), id, code, env) else a
  }

  /** OpCompleted.  A leave out of the completion handler skips the choice of the next state; a
      leave out of that choice restarts the agent. */
  function OpCompleted(a: Agent, id: int, code: Err, h: Env, c: Env): Agent {
    var b := CompletionHandled(a, id, code, h);
    if b.left then b
    else
      var d := ChangeNextStateL(b, c);
      if d.left then CreateCompletedOp(ResetAll(d).(state := Initialised, left := false)) else d
  }

  /** Only pending operations complete, and a timer that completes has gone off. */
  predicate Deliverable(a: Agent, e: Event) {
    match e
    case OpCompletes(id, code, _, _) => id in a.ops && (IsTimer(a.ops[id]) ==> code.ErrNone?)
    case EmnReceived(_) => IsEmn(a)
    case Synchronised => a.protocol.Imap4?
    case FoldersChanged(_, _) => a.protocol.Imap4?
    case UpdateWhileConnected(_, _) => a.protocol.Imap4?
    case _ => true
  }

  function Handle(a: Agent, e: Event): Agent {
    match e
    case OpCompletes(id, code, h, c) => OpCompleted(a, id, code, h, c)
    case Started(env) => StartL(a, env)
    case Suspended => Suspend(a)
    case Resumed(connectNow, settings, env) => ResumeL(a, connectNow, settings, env)
    case RoamingStarted => HandleRoamingEventL(a)
    case HomeNetworkFound => HandleHomeNetworkEventL(a)
    case OutOfDisk(env) => HandleOutOfDiskEventL(a, env)
    case EmnReceived(env) => ConnectL(a, env)
    case Synchronised => ImapAgent.SynchronisationComplete(a)
    case FoldersChanged(mailbox, env) => ImapAgent.HandleFolderEntryL(a, mailbox, env)
    case UpdateWhileConnected(created, env) => ImapAgent.SetUpdateMailWhileConnectedL(a, created, env)
  }

  /** One event.  Nothing reaches an agent that has been removed. */
  function Step(a: Agent, e: Event): Agent {
    if a.removed || !Deliverable(a, e) then a else Handle(a, e).(left := false)
  }

  function Run(a: Agent, es: seq<Event>): Agent
    decreases |es|
  {
    if es == [] then a else Run(Step(a, es[0]), es[1..])
  }
}
