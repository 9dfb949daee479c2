/** The operation table of an agent: which ids it hands out, remembers and has pending. */
module AgentTable {
  import opened AgentState

  predicate Tag(ops: map<int, Kind>, next: nat, id: int, k: Kind) {
    -1 <= id < next && (id in ops ==> ops[id] == k)
  }

  /** The id, when set, names a pending operation of kind k. */
  predicate Names(ops: map<int, Kind>, next: nat, id: int, k: Kind) {
    Tag(ops, next, id, k) && (id != KErrNotFound ==> id in ops)
  }

  /** The only pending operation of kind k is the one that id names. */
  ghost predicate Only(ops: map<int, Kind>, id: int, k: Kind) {
    forall i :: i in ops && ops[i] == k ==> i == id
  }

  ghost predicate Bounded(ops: map<int, Kind>, next: nat) {
    forall i :: i in ops ==> 0 <= i < next
  }

  predicate Tagged(ops: map<int, Kind>, next: nat, ids: Ids) {
    && Tag(ops, next, ids.connect, Connect) && Tag(ops, next, ids.sync, Sync)
    && Tag(ops, next, ids.populate, Populate) && Tag(ops, next, ids.startDelay, DelayTimer)
    && Tag(ops, next, ids.stayOnline, StayOnlineConnect) && Tag(ops, next, ids.disconnect, Disconnect)
  }

  ghost predicate TimersNamed(isImap: bool, ops: map<int, Kind>, next: nat, ids: Ids) {
    && Names(ops, next, ids.interval, IntervalTimer) && (isImap ==> Only(ops, ids.interval, IntervalTimer))
    && Names(ops, next, ids.waitStart, StartTimer) && Only(ops, ids.waitStart, StartTimer)
    && Names(ops, next, ids.waitStop, StopTimer) && Only(ops, ids.waitStop, StopTimer)
    && Names(ops, next, ids.folderTimer, FolderTimer) && Only(ops, ids.folderTimer, FolderTimer)
    && Names(ops, next, ids.folderSync, FolderSync) && Only(ops, ids.folderSync, FolderSync)
  }

  predicate TimersExclude(ids: Ids) {
    && (ids.waitStart == KErrNotFound || ids.waitStop == KErrNotFound)
    && (ids.folderTimer == KErrNotFound || ids.folderSync == KErrNotFound)
  }

  /** An IMAP agent also keeps its interval timer unique; a POP agent has no folder operations. */
  ghost predicate TableInv(isImap: bool, ops: map<int, Kind>, next: nat, ids: Ids) {
    && Bounded(ops, next) && Tagged(ops, next, ids) && TimersNamed(isImap, ops, next, ids) && TimersExclude(ids)
    && (!isImap ==> ids.folderTimer == ids.folderSync == KErrNotFound)
  }

  /** No connect operation is pending. */
  ghost predicate NoConnect(ops: map<int, Kind>) {
    forall i :: i in ops ==> !IsConnect(ops[i])
  }

  lemma AddPlain(isImap: bool, ops: map<int, Kind>, next: nat, ids: Ids, k: Kind)
    requires TableInv(isImap, ops, next, ids) && !IsTimer(k) && !k.FolderSync? && !IsConnect(k)
    ensures TableInv(isImap, ops[next := k], next + 1, ids)
    ensures NoConnect(ops) ==> NoConnect(ops[next := k])
  {}

  lemma AddDelayTimer(isImap: bool, ops: map<int, Kind>, next: nat, ids: Ids)
    requires TableInv(isImap, ops, next, ids)
    ensures TableInv(isImap, ops[next := DelayTimer], next + 1, ids.(startDelay := next))
    ensures NoConnect(ops) ==> NoConnect(ops[next := DelayTimer])
  {}

  lemma AddConnect(isImap: bool, ops: map<int, Kind>, next: nat, ids: Ids)
    requires TableInv(isImap, ops, next, ids)
    ensures TableInv(isImap, ops[next := Connect], next + 1, ids.(connect := next))
    ensures TableInv(isImap, ops[next := StayOnlineConnect], next + 1, ids.(stayOnline := next))
  {}

  lemma AddDisconnect(isImap: bool, ops: map<int, Kind>, next: nat, ids: Ids)
    requires TableInv(isImap, ops, next, ids)
    ensures TableInv(isImap, ops[next := Disconnect], next + 1, ids.(disconnect := next))
    ensures NoConnect(ops) ==> NoConnect(ops[next := Disconnect])
  {}

  lemma AddTransfer(isImap: bool, ops: map<int, Kind>, next: nat, ids: Ids)
    requires TableInv(isImap, ops, next, ids)
    ensures TableInv(isImap, ops[next := Populate], next + 1, ids.(populate := next))
    ensures NoConnect(ops) ==> NoConnect(ops[next := Populate])
    ensures TableInv(isImap, ops[next := Sync], next + 1, ids.(sync := next))
    ensures NoConnect(ops) ==> NoConnect(ops[next := Sync])
  {}

  lemma AddInterval(isImap: bool, ops: map<int, Kind>, next: nat, ids: Ids)
    requires TableInv(isImap, ops, next, ids) && (isImap ==> ids.interval == KErrNotFound)
    ensures TableInv(isImap, ops[next := IntervalTimer], next + 1, ids.(interval := next))
    ensures NoConnect(ops) ==> NoConnect(ops[next := IntervalTimer])
  {}

  lemma AddStart(isImap: bool, ops: map<int, Kind>, next: nat, ids: Ids)
    requires TableInv(isImap, ops, next, ids) && ids.waitStart == ids.waitStop == KErrNotFound
    ensures TableInv(isImap, ops[next := StartTimer], next + 1, ids.(waitStart := next))
    ensures NoConnect(ops) ==> NoConnect(ops[next := StartTimer])
  {}

  lemma AddStop(isImap: bool, ops: map<int, Kind>, next: nat, ids: Ids)
    requires TableInv(isImap, ops, next, ids) && ids.waitStart == ids.waitStop == KErrNotFound
    ensures TableInv(isImap, ops[next := StopTimer], next + 1, ids.(waitStop := next))
    ensures NoConnect(ops) ==> NoConnect(ops[next := StopTimer])
  {}

  lemma AddFolderOp(isImap: bool, ops: map<int, Kind>, next: nat, ids: Ids)
    requires isImap && TableInv(isImap, ops, next, ids) && ids.folderTimer == ids.folderSync == KErrNotFound
    ensures TableInv(isImap, ops[next := FolderTimer], next + 1, ids.(folderTimer := next))
    ensures NoConnect(ops) ==> NoConnect(ops[next := FolderTimer])
    ensures TableInv(isImap, ops[next := FolderSync], next + 1, ids.(folderSync := next))
    ensures NoConnect(ops) ==> NoConnect(ops[next := FolderSync])
  {}

  lemma CleanTimers(isImap: bool, ops: map<int, Kind>, next: nat, ids: Ids)
    requires TableInv(isImap, ops, next, ids)
    ensures TableInv(isImap, ops - {ids.interval}, next, ids.(interval := KErrNotFound))
    ensures NoConnect(ops) ==> NoConnect(ops - {ids.interval})
    ensures TableInv(isImap, ops - {ids.waitStart}, next, ids.(waitStart := KErrNotFound))
    ensures NoConnect(ops) ==> NoConnect(ops - {ids.waitStart})
    ensures TableInv(isImap, ops - {ids.waitStop}, next, ids.(waitStop := KErrNotFound))
    ensures NoConnect(ops) ==> NoConnect(ops - {ids.waitStop})
  {}

  /** A completed operation leaves the table; an id that must name it is forgotten with it. */
  lemma CompleteFolderOp(isImap: bool, ops: map<int, Kind>, next: nat, ids: Ids)
    requires TableInv(isImap, ops, next, ids)
    ensures TableInv(isImap, ops - {ids.folderTimer}, next, ids.(folderTimer := KErrNotFound))
    ensures NoConnect(ops) ==> NoConnect(ops - {ids.folderTimer})
    ensures TableInv(isImap, ops - {ids.folderSync}, next, ids.(folderSync := KErrNotFound))
    ensures NoConnect(ops) ==> NoConnect(ops - {ids.folderSync})
  {}

  lemma FolderOpsExclude(isImap: bool, ops: map<int, Kind>, next: nat, ids: Ids)
    requires TableInv(isImap, ops, next, ids) && ids.folderTimer in ops
    ensures ids.folderSync == KErrNotFound
  {}

  predicate Remembered(ids: Ids, id: int) {
    id in {ids.interval, ids.waitStart, ids.waitStop, ids.folderTimer, ids.folderSync}
  }

  lemma CompleteOther(isImap: bool, ops: map<int, Kind>, next: nat, ids: Ids, id: int)
    requires TableInv(isImap, ops, next, ids) && id in ops && !Remembered(ids, id)
    ensures TableInv(isImap, ops - {id}, next, ids)
    ensures NoConnect(ops) ==> NoConnect(ops - {id})
  {}

  lemma ForgetTransfer(isImap: bool, ops: map<int, Kind>, next: nat, ids: Ids)
    requires TableInv(isImap, ops, next, ids)
    ensures TableInv(isImap, ops, next, ids.(connect := KErrNotFound))
    ensures TableInv(isImap, ops, next, ids.(sync := KErrNotFound))
    ensures TableInv(isImap, ops, next, ids.(populate := KErrNotFound))
  {}

  lemma ForgetStayOnline(isImap: bool, ops: map<int, Kind>, next: nat, ids: Ids)
    requires TableInv(isImap, ops, next, ids)
    ensures TableInv(isImap, ops, next, ids.(stayOnline := KErrNotFound))
    ensures TableInv(isImap, ops, next, ids.(stayOnline := KErrNotFound, disconnect := KErrNotFound))
  {}

  /** A pending operation is remembered under at most the ids of its own kind. */
  lemma KindOfRemembered(isImap: bool, ops: map<int, Kind>, next: nat, ids: Ids, id: int)
    requires TableInv(isImap, ops, next, ids) && id in ops
    ensures id == ids.interval ==> ops[id] == IntervalTimer
    ensures id == ids.waitStart ==> ops[id] == StartTimer
    ensures id == ids.waitStop ==> ops[id] == StopTimer
    ensures id == ids.folderTimer ==> ops[id] == FolderTimer
    ensures id == ids.folderSync ==> ops[id] == FolderSync
    ensures id == ids.connect ==> ops[id] == Connect
    ensures id == ids.sync ==> ops[id] == Sync
    ensures id == ids.populate ==> ops[id] == Populate
    ensures id == ids.startDelay ==> ops[id] == DelayTimer
    ensures id == ids.stayOnline ==> ops[id] == StayOnlineConnect
    ensures !isImap ==> id != ids.folderTimer && id != ids.folderSync
  {}

  lemma ResetTable(isImap: bool, ids: Ids, next: nat)
    requires -1 <= ids.startDelay < next
    ensures TableInv(isImap, map[], next, NoIds.(startDelay := ids.startDelay))
  {}
}
