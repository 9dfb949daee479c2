/** Runs of the whole array of agents, with the phone's offline and roaming status. */
module MailboxWorld {
  import opened AgentState
  import opened AgentRuns
  import opened AgentTable
  import opened AgentInvariant
  import opened MailboxArray

  /** mtm: the protocol of every mailbox that is an IMAP or POP mailbox; it never changes. */
  datatype World = World(
    mtm: map<int, Protocol>, store: Store, offline: bool, roaming: bool, agents: seq<Member>)

  datatype Happening =
    | Offline(on: bool)                       // the offline switch
    | Roaming(on: bool)                       // the phone leaves or finds its home network
    | SuspendNWOperations                     // the broadcast to all agents
    | RoamingEvent                            // the broadcast to all agents
    | HomeNetworkEvent                        // the broadcast to all agents
    | StoreChanges(store: Store)
    | Refreshed
    | MailboxDeleted(mailbox: int)
    | AllSwitchedOff
    | UpdateMailWhileConnected(mailbox: int, env: Env)
    | AgentEvent(mailbox: int, event: Event)

  function Seeing(w: World, env: Env): Env { env.(offline := w.offline, homeNetwork := !w.roaming) }

  /** The event as an agent in this world meets it: status queries give the phone's real status. */
  function Seen(w: World, e: Event): Event {
    match e
    case OpCompletes(id, code, h, c) => OpCompletes(id, code, Seeing(w, h), Seeing(w, c))
    case Started(env) => Started(Seeing(w, env))
    case Resumed(connectNow, settings, env) => Resumed(connectNow, settings, Seeing(w, env))
    case OutOfDisk(env) => OutOfDisk(Seeing(w, env))
    case EmnReceived(env) => EmnReceived(Seeing(w, env))
    case FoldersChanged(mailbox, env) => FoldersChanged(mailbox, Seeing(w, env))
    case UpdateWhileConnected(created, env) => UpdateWhileConnected(created, Seeing(w, env))
    case _ => e
  }

  function StepMember(m: Member, e: Event): Member { m.(agent := Step(m.agent, e)) }

  function StepAll(agents: seq<Member>, e: Event): seq<Member> {
    seq(|agents|, i requires 0 <= i < |agents| => StepMember(agents[i], e))
  }

  /** One agent handles an event; an agent that removes itself leaves the array. */
  function StepAt(agents: seq<Member>, k: nat, e: Event): seq<Member>
    requires k < |agents|
  {
    var m := StepMember(agents[k], e);
    if m.agent.removed then Without(agents, k) else agents[k := m]
  }

  /** The mailbox is a connected IMAP service entry. */
  predicate ConnectedImap(w: World, id: int) {
    && id in w.store.entries && id in w.mtm && w.mtm[id].Imap4?
    && w.store.entries[id].service && w.store.entries[id].connected
  }

  /** A mailbox without an agent gets a temporary one. */
  function UpdateWhileConnectedAt(w: World, id: int, env: Env): seq<Member> {
    var seen := env.(connected := true);
    var k := Find(w.agents, id);
    if !ConnectedImap(w, id) then w.agents
    else if k < |w.agents| then StepAt(w.agents, k, Seen(w, UpdateWhileConnected(true, seen)))
    else
      StepAt(w.agents + [NewMember(w.mtm, w.store, id)], k, Seen(w, UpdateWhileConnected(false, seen)))
  }

  function WorldStep(w: World, x: Happening): World {
    match x
    case Offline(on) => w.(offline := on)
    case Roaming(on) => w.(roaming := on)
    case SuspendNWOperations => w.(agents := StepAll(w.agents, Suspended))
    case RoamingEvent => w.(agents := StepAll(w.agents, RoamingStarted))
    case HomeNetworkEvent => w.(agents := StepAll(w.agents, HomeNetworkFound))
    case StoreChanges(store) => w.(store := store)
    case Refreshed => w.(agents := Refresh(w.agents, w.mtm, w.store).agents)
    case MailboxDeleted(id) =>
      var k := Find(w.agents, id);
      if k < |w.agents| then w.(agents := Without(w.agents, k)) else w
    case AllSwitchedOff => w.(agents := [])
    case UpdateMailWhileConnected(id, env) => w.(agents := UpdateWhileConnectedAt(w, id, env))
    case AgentEvent(id, e) =>
      var k := Find(w.agents, id);
      if k < |w.agents| then w.(agents := StepAt(w.agents, k, Seen(w, e))) else w
  }

  function WorldRun(w: World, xs: seq<Happening>): World
    decreases |xs|
  {
    if xs == [] then w else WorldRun(WorldStep(w, xs[0]), xs[1..])
  }

  function Empty(mtm: map<int, Protocol>, store: Store, offline: bool, roaming: bool): World {
    World(mtm, store, offline, roaming, [])
  }

  // ---- the array stays in order ------------------------------------------------------------------

  /** The agent is of its mailbox's class and in a state it can reach. */
  ghost predicate Good(mtm: map<int, Protocol>, m: Member) {
    m.mailbox in mtm && m.agent.protocol == mtm[m.mailbox] && Inv(m.agent) && !m.agent.left && !m.agent.removed
  }

  ghost predicate ArrayInv(w: World) {
    Distinct(w.agents) && forall m :: m in w.agents ==> Good(w.mtm, m)
  }

  lemma StepMemberGood(mtm: map<int, Protocol>, m: Member, e: Event)
    requires Good(mtm, m)
    ensures var n := StepMember(m, e); n.mailbox == m.mailbox && (!n.agent.removed ==> Good(mtm, n))
  {
    StepInv(m.agent, e);
    StepFrame(m.agent, e);
    hide Inv, Step;
  }

  lemma NotRemoved(a: Agent)
    requires !a.removed
    ensures !Step(a, Suspended).removed && !Step(a, RoamingStarted).removed && !Step(a, HomeNetworkFound).removed
  {}

  lemma StepAllKeeps(mtm: map<int, Protocol>, agents: seq<Member>, e: Event)
    requires Distinct(agents) && forall m :: m in agents ==> Good(mtm, m)
    requires e.Suspended? || e.RoamingStarted? || e.HomeNetworkFound?
    ensures var r := StepAll(agents, e); Distinct(r) && forall m :: m in r ==> Good(mtm, m)
  {
    forall i | 0 <= i < |agents| ensures Good(mtm, StepAll(agents, e)[i]) {
      assert agents[i] in agents;
      StepMemberGood(mtm, agents[i], e);
      NotRemoved(agents[i].agent);
    }
    hide Good, Step;
  }

  lemma StepAtKeeps(mtm: map<int, Protocol>, agents: seq<Member>, k: nat, e: Event)
    requires k < |agents| && Distinct(agents) && forall m :: m in agents ==> Good(mtm, m)
    ensures var r := StepAt(agents, k, e); Distinct(r) && forall m :: m in r ==> Good(mtm, m)
  {
    assert agents[k] in agents;
    StepMemberGood(mtm, agents[k], e);
    hide Good, Step;
  }

  lemma NewIsGood(mtm: map<int, Protocol>, m: Member)
    requires IsNew(mtm, m)
    ensures Good(mtm, m) && NoConnect(m.agent.ops)
  {
    FreshInv(mtm[m.mailbox], 0, m.agent.settings);
  }

  lemma UpdateWhileConnectedKeeps(w: World, id: int, env: Env)
    requires ArrayInv(w)
    ensures var r := UpdateWhileConnectedAt(w, id, env); Distinct(r) && forall m :: m in r ==> Good(w.mtm, m)
  {
    hide Good, StepAt;
    var seen := env.(connected := true);
    var k := Find(w.agents, id);
    if ConnectedImap(w, id) && k < |w.agents| {
      StepAtKeeps(w.mtm, w.agents, k, Seen(w, UpdateWhileConnected(true, seen)));
    } else if ConnectedImap(w, id) {
      var m := NewMember(w.mtm, w.store, id);
      NewIsGood(w.mtm, m);
      StepAtKeeps(w.mtm, w.agents + [m], k, Seen(w, UpdateWhileConnected(false, seen)));
    }
  }

  lemma WorldStepKeeps(w: World, x: Happening)
    requires ArrayInv(w)
    ensures ArrayInv(WorldStep(w, x)) && WorldStep(w, x).mtm == w.mtm
  {
    hide Good, StepAll, StepAt, Refresh, UpdateWhileConnectedAt, IsNew;
    match x
    case SuspendNWOperations => StepAllKeeps(w.mtm, w.agents, Suspended);
    case RoamingEvent => StepAllKeeps(w.mtm, w.agents, RoamingStarted);
    case HomeNetworkEvent => StepAllKeeps(w.mtm, w.agents, HomeNetworkFound);
    case Refreshed =>
      RefreshKeeps(w.agents, w.mtm, w.store);
      forall m | IsNew(w.mtm, m) ensures Good(w.mtm, m) { NewIsGood(w.mtm, m); }
    case UpdateMailWhileConnected(id, env) => UpdateWhileConnectedKeeps(w, id, env);
    case AgentEvent(id, e) =>
      var k := Find(w.agents, id);
      if k < |w.agents| { StepAtKeeps(w.mtm, w.agents, k, Seen(w, e)); }
    case _ =>
  }

  lemma {:induction false} WorldRunKeeps(w: World, xs: seq<Happening>)
    requires ArrayInv(w)
    ensures ArrayInv(WorldRun(w, xs)) && WorldRun(w, xs).mtm == w.mtm
    decreases |xs|
  {
    hide ArrayInv, WorldStep;
    if xs != [] {
      WorldStepKeeps(w, xs[0]);
      WorldRunKeeps(WorldStep(w, xs[0]), xs[1..]);
    }
  }

  /** Main result: in every run the mailboxes in the array are pairwise distinct, each agent is of its
      mailbox's protocol and none is waiting to be removed.  In particular the agent found for a
      connected IMAP mailbox is an IMAP agent, so treating it as one is right. */
  lemma AgentsMatchTheirMailboxes(
      mtm: map<int, Protocol>, store: Store, offline: bool, roaming: bool, xs: seq<Happening>, id: int)
    ensures var w := WorldRun(Empty(mtm, store, offline, roaming), xs);
      && Distinct(w.agents)
      && (forall i :: 0 <= i < |w.agents| ==>
            w.agents[i].mailbox in mtm && w.agents[i].agent.protocol == mtm[w.agents[i].mailbox] && !w.agents[i].agent.removed)
      && (ConnectedImap(w, id) && Has(w.agents, id) ==> w.agents[Find(w.agents, id)].agent.protocol.Imap4?)
  {
    var e := Empty(mtm, store, offline, roaming);
    assert ArrayInv(e);
    WorldRunKeeps(e, xs);
    hide WorldRun, Inv;
    var w := WorldRun(e, xs);
    forall i | 0 <= i < |w.agents| ensures Good(mtm, w.agents[i]) { assert w.agents[i] in w.agents; }
  }

  lemma WithoutMembers(agents: seq<Member>, k: nat)
    requires k < |agents| && Distinct(agents)
    ensures forall m :: m in Without(agents, k) <==> m in agents && m.mailbox != agents[k].mailbox
  {
    var r := Without(agents, k);
    forall i | 0 <= i < |r| ensures r[i] == agents[if i < k then i else i + 1] {}
    assert agents == agents[..k] + [agents[k]] + agents[k + 1..];
  }

  /** A deleted mailbox has no agent any more; the others keep theirs. */
  lemma DeletedMailboxHasNoAgent(w: World, id: int)
    requires ArrayInv(w)
    ensures var v := WorldStep(w, MailboxDeleted(id));
      && !Has(v.agents, id) && forall m :: m in v.agents <==> m in w.agents && m.mailbox != id
  {
    hide Good;
    var k := Find(w.agents, id);
    HasMember(w.agents, id);
    if k < |w.agents| {
      WithoutMembers(w.agents, k);
      HasMember(Without(w.agents, k), id);
      hide Without, Has, Distinct;
    }
  }

  /** A connected IMAP mailbox without an agent gets a temporary one, which watches the open connection
      and goes when it ends; an agent that was there before stays afterwards. */
  lemma ConnectedMailboxGetsAgent(w: World, id: int, env: Env)
    requires ArrayInv(w) && ConnectedImap(w, id) && env.readable && env.observes
    ensures var v := WorldStep(w, UpdateMailWhileConnected(id, env)); var k := Find(w.agents, id);
      if Has(w.agents, id) then
        |v.agents| == |w.agents| &&
        v.agents[k].mailbox == id && v.agents[k].agent.flags.stayOnline &&
        (!w.agents[k].agent.flags.stayOnline ==> IsTemporary(v.agents[k].agent) && v.agents[k].agent.flags.dontRemove)
      else
        |v.agents| == |w.agents| + 1 && v.agents[..|w.agents|] == w.agents && v.agents[|w.agents|].mailbox == id &&
        var b := v.agents[|w.agents|].agent;
          IsTemporary(b) && b.state.Idle? && b.flags.stayOnline && !b.flags.dontRemove && b.ids.folderTimer in b.ops
  {
    var k := Find(w.agents, id);
    var seen := env.(connected := true);
    if Has(w.agents, id) {
      assert w.agents[k] in w.agents;
      ConnectedAgent(w, w.agents[k].agent, true, seen);
    } else {
      var m := NewMember(w.mtm, w.store, id);
      NewIsGood(w.mtm, m);
      ConnectedAgent(w, m.agent, false, seen);
      var all := w.agents + [m];
      assert all[k] == m && all[..|w.agents|] == w.agents;
    }
    hide Inv, Step;
  }

  lemma ConnectedAgent(w: World, a: Agent, created: bool, env: Env)
    requires a.protocol.Imap4? && !a.removed && !a.left && env.connected && env.readable && env.observes
    ensures var b := Step(a, Seen(w, UpdateWhileConnected(created, env)));
      && !b.removed && b.flags.stayOnline
      && (!a.flags.stayOnline ==> IsTemporary(b) && b.state.Idle? && b.flags.dontRemove == (created || a.flags.dontRemove))
      && (!a.flags.stayOnline && a.ids == NoIds ==> b.ids.folderTimer in b.ops)
  {}

  // ---- offline and roaming ---------------------------------------------------------------------------

  ghost predicate Calm(agents: seq<Member>) { forall m :: m in agents ==> NoConnect(m.agent.ops) }

  ghost predicate HomeCalmOne(m: Member) { HomeOnly(m.agent.settings) ==> NoConnect(m.agent.ops) }

  ghost predicate HomeCalm(agents: seq<Member>) { forall m :: m in agents ==> HomeCalmOne(m) }

  /** The happening leaves the access settings of every agent as they are. */
  predicate FixedSettings(w: World, x: Happening) {
    x.AgentEvent? && x.event.Resumed? ==>
      var k := Find(w.agents, x.mailbox);
      k < |w.agents| ==>
        w.agents[k].agent.settings.ao == x.event.settings.ao && w.agents[k].agent.settings.emn == x.event.settings.emn
  }

  lemma SeenIsQuiet(w: World, a: Agent, e: Event)
    ensures w.offline ==> Quiet(a, Seen(w, e))
    ensures w.roaming && HomeOnly(a.settings) ==> Quiet(a, Seen(w, e))
  {}

  lemma ResumeSettings(a: Agent, connectNow: bool, settings: Settings, env: Env)
    ensures var b := Step(a, Resumed(connectNow, settings, env)); b.settings == a.settings || b.settings == settings
  {}

  lemma StepMemberCalm(w: World, m: Member, e: Event)
    requires Good(w.mtm, m)
    ensures w.offline && NoConnect(m.agent.ops) ==> NoConnect(StepMember(m, Seen(w, e)).agent.ops)
    ensures w.roaming && HomeCalmOne(m) &&
            (e.Resumed? ==> m.agent.settings.ao == e.settings.ao && m.agent.settings.emn == e.settings.emn) ==>
            HomeCalmOne(StepMember(m, Seen(w, e)))
  {
    var s := Seen(w, e);
    StepInv(m.agent, s);
    SeenIsQuiet(w, m.agent, e);
    hide Inv, Step, Quiet, NoConnect;
    if e.Resumed? { ResumeSettings(m.agent, s.connectNow, s.settings, s.env); }
  }

  lemma StepAtCalm(w: World, agents: seq<Member>, k: nat, e: Event)
    requires k < |agents| && Good(w.mtm, agents[k])
    ensures w.offline && Calm(agents) ==> Calm(StepAt(agents, k, Seen(w, e)))
    ensures w.roaming && HomeCalm(agents) && (e.Resumed? ==> SameAccess(agents[k].agent, agents[k].agent.(settings := e.settings))) ==>
            HomeCalm(StepAt(agents, k, Seen(w, e)))
  {
    StepMemberCalm(w, agents[k], e);
    hide Good, StepMember, HomeCalmOne, NoConnect, Seen;
  }

  lemma StepAllCalm(w: World, agents: seq<Member>, e: Event)
    requires forall m :: m in agents ==> Good(w.mtm, m)
    requires e.Suspended? || e.RoamingStarted? || e.HomeNetworkFound?
    ensures w.offline && Calm(agents) ==> Calm(StepAll(agents, e))
    ensures w.roaming && HomeCalm(agents) ==> HomeCalm(StepAll(agents, e))
  {
    forall i | 0 <= i < |agents|
      ensures w.offline && NoConnect(agents[i].agent.ops) ==> NoConnect(StepAll(agents, e)[i].agent.ops)
      ensures w.roaming && HomeCalmOne(agents[i]) ==> HomeCalmOne(StepAll(agents, e)[i])
    {
      assert agents[i] in agents;
      StepMemberCalm(w, agents[i], e);
    }
    hide Good, StepMember, HomeCalmOne, NoConnect;
  }

  lemma AppendCalm(w: World, agents: seq<Member>, m: Member)
    requires IsNew(w.mtm, m)
    ensures Calm(agents) ==> Calm(agents + [m])
    ensures HomeCalm(agents) ==> HomeCalm(agents + [m])
  {
    NewIsGood(w.mtm, m);
    hide NoConnect;
  }

  lemma UpdateWhileConnectedCalm(w: World, id: int, env: Env)
    requires ArrayInv(w)
    ensures w.offline && Calm(w.agents) ==> Calm(UpdateWhileConnectedAt(w, id, env))
    ensures w.roaming && HomeCalm(w.agents) ==> HomeCalm(UpdateWhileConnectedAt(w, id, env))
  {
    hide Good, StepAt, Calm, HomeCalm, Seen;
    var seen := env.(connected := true);
    var k := Find(w.agents, id);
    if ConnectedImap(w, id) && k < |w.agents| {
      StepAtCalm(w, w.agents, k, UpdateWhileConnected(true, seen));
    } else if ConnectedImap(w, id) {
      var m := NewMember(w.mtm, w.store, id);
      NewIsGood(w.mtm, m);
      AppendCalm(w, w.agents, m);
      StepAtCalm(w, w.agents + [m], k, UpdateWhileConnected(false, seen));
    }
  }

  lemma RefreshCalm(w: World)
    requires Distinct(w.agents)
    ensures var r := Refresh(w.agents, w.mtm, w.store).agents;
      (Calm(w.agents) ==> Calm(r)) && (HomeCalm(w.agents) ==> HomeCalm(r))
  {
    RefreshKeeps(w.agents, w.mtm, w.store);
    forall m | IsNew(w.mtm, m) ensures NoConnect(m.agent.ops) { NewIsGood(w.mtm, m); }
    hide IsNew, NoConnect, Refresh;
  }

  lemma WithoutCalm(agents: seq<Member>, k: nat)
    requires k < |agents|
    ensures Calm(agents) ==> Calm(Without(agents, k))
    ensures HomeCalm(agents) ==> HomeCalm(Without(agents, k))
  {
    hide HomeCalmOne, NoConnect;
  }

  lemma WorldStepCalm(w: World, x: Happening)
    requires ArrayInv(w)
    ensures w.offline && Calm(w.agents) ==> Calm(WorldStep(w, x).agents)
    ensures w.roaming && HomeCalm(w.agents) && FixedSettings(w, x) ==> HomeCalm(WorldStep(w, x).agents)
  {
    hide Good, StepAll, StepAt, Refresh, UpdateWhileConnectedAt, Calm, HomeCalm;
    match x
    case SuspendNWOperations => StepAllCalm(w, w.agents, Suspended);
    case RoamingEvent => StepAllCalm(w, w.agents, RoamingStarted);
    case HomeNetworkEvent => StepAllCalm(w, w.agents, HomeNetworkFound);
    case Refreshed => RefreshCalm(w);
    case UpdateMailWhileConnected(id, env) => UpdateWhileConnectedCalm(w, id, env);
    case AgentEvent(id, e) =>
      var k := Find(w.agents, id);
      if k < |w.agents| { StepAtCalm(w, w.agents, k, e); }
    case MailboxDeleted(id) =>
      var k := Find(w.agents, id);
      if k < |w.agents| { WithoutCalm(w.agents, k); }
    case AllSwitchedOff => NobodyIsCalm();
    case _ =>
  }

  lemma NobodyIsCalm()
    ensures Calm([]) && HomeCalm([])
  {}

  lemma {:induction false} StaysCalm(w: World, xs: seq<Happening>)
    requires ArrayInv(w) && w.offline && Calm(w.agents) && Offline(false) !in xs
    ensures Calm(WorldRun(w, xs).agents)
    decreases |xs|
  {
    hide ArrayInv, Calm;
    if xs != [] {
      WorldStepCalm(w, xs[0]);
      WorldStepKeeps(w, xs[0]);
      assert xs[0] in xs;
      StaysCalm(WorldStep(w, xs[0]), xs[1..]);
    }
  }

  ghost predicate SettingsStayFixed(w: World, xs: seq<Happening>)
    decreases |xs|
  {
    xs == [] || (FixedSettings(w, xs[0]) && SettingsStayFixed(WorldStep(w, xs[0]), xs[1..]))
  }

  lemma {:induction false} StaysHomeCalm(w: World, xs: seq<Happening>)
    requires ArrayInv(w) && w.roaming && HomeCalm(w.agents) && Roaming(false) !in xs && SettingsStayFixed(w, xs)
    ensures HomeCalm(WorldRun(w, xs).agents)
    decreases |xs|
  {
    hide ArrayInv, HomeCalm;
    if xs != [] {
      WorldStepCalm(w, xs[0]);
      WorldStepKeeps(w, xs[0]);
      assert xs[0] in xs;
      StaysHomeCalm(WorldStep(w, xs[0]), xs[1..]);
    }
  }

  lemma BroadcastCalms(w: World)
    requires ArrayInv(w)
    ensures Calm(WorldStep(w, SuspendNWOperations).agents) && HomeCalm(WorldStep(w, RoamingEvent).agents)
  {
    hide Inv;
    forall i | 0 <= i < |w.agents|
      ensures NoConnect(Step(w.agents[i].agent, Suspended).ops)
      ensures HomeCalmOne(StepMember(w.agents[i], RoamingStarted))
    {
      assert w.agents[i] in w.agents;
    }
    hide Step, HomeCalmOne, NoConnect;
  }

  /** Main result.  Take any run that leaves the phone offline, then the broadcast that suspends
      network operations, then any run in which the phone stays offline: no agent in the array,
      old, new or temporary, has a connect operation pending. */
  lemma NoConnectsWhileOffline(
      mtm: map<int, Protocol>, store: Store, offline: bool, roaming: bool, before: seq<Happening>, after: seq<Happening>)
    requires WorldRun(Empty(mtm, store, offline, roaming), before).offline && Offline(false) !in after
    ensures var w := WorldRun(WorldStep(WorldRun(Empty(mtm, store, offline, roaming), before), SuspendNWOperations), after);
      forall i, op :: 0 <= i < |w.agents| && op in w.agents[i].agent.ops ==> !IsConnect(w.agents[i].agent.ops[op])
  {
    var e := Empty(mtm, store, offline, roaming);
    assert ArrayInv(e);
    WorldRunKeeps(e, before);
    hide ArrayInv, WorldRun;
    var w := WorldRun(e, before);
    WorldStepKeeps(w, SuspendNWOperations);
    BroadcastCalms(w);
    StaysCalm(WorldStep(w, SuspendNWOperations), after);
    CalmMeans(WorldRun(WorldStep(w, SuspendNWOperations), after).agents);
    hide WorldStep, Calm;
  }

  lemma CalmMeans(agents: seq<Member>)
    requires Calm(agents)
    ensures forall i, op :: 0 <= i < |agents| && op in agents[i].agent.ops ==> !IsConnect(agents[i].agent.ops[op])
  {
    forall i | 0 <= i < |agents| ensures NoConnect(agents[i].agent.ops) { assert agents[i] in agents; }
  }

  lemma HomeCalmMeans(agents: seq<Member>)
    requires HomeCalm(agents)
    ensures forall i, op :: 0 <= i < |agents| && HomeOnly(agents[i].agent.settings) && op in agents[i].agent.ops ==>
              !IsConnect(agents[i].agent.ops[op])
  {
    forall i | 0 <= i < |agents| ensures HomeCalmOne(agents[i]) { assert agents[i] in agents; }
  }

  /** Main result, likewise for roaming: after the roaming broadcast, and as long as the phone roams
      and reloading settings brings no changed ones, no agent for the home network only has a
      connect operation pending. */
  lemma NoHomeOnlyConnectsWhileRoaming(
      mtm: map<int, Protocol>, store: Store, offline: bool, roaming: bool, before: seq<Happening>, after: seq<Happening>)
    requires var w := WorldRun(Empty(mtm, store, offline, roaming), before);
      w.roaming && Roaming(false) !in after && SettingsStayFixed(WorldStep(w, RoamingEvent), after)
    ensures var w := WorldRun(WorldStep(WorldRun(Empty(mtm, store, offline, roaming), before), RoamingEvent), after);
      forall i, op :: 0 <= i < |w.agents| && HomeOnly(w.agents[i].agent.settings) && op in w.agents[i].agent.ops ==>
        !IsConnect(w.agents[i].agent.ops[op])
  {
    var e := Empty(mtm, store, offline, roaming);
    assert ArrayInv(e);
    WorldRunKeeps(e, before);
    hide ArrayInv, WorldRun, SettingsStayFixed;
    var w := WorldRun(e, before);
    WorldStepKeeps(w, RoamingEvent);
    BroadcastCalms(w);
    StaysHomeCalm(WorldStep(w, RoamingEvent), after);
    HomeCalmMeans(WorldRun(WorldStep(w, RoamingEvent), after).agents);
    hide WorldStep, HomeCalm;
  }
}
