/** Which timers and folder operations can be pending together. */
module TimerExclusion {
  import opened AgentState
  import opened AgentRuns
  import opened AgentTable
  import opened AgentInvariant

  predicate IsScheduleTimer(k: Kind) { k.StartTimer? || k.StopTimer? }
  predicate IsFolderOp(k: Kind) { k.FolderTimer? || k.FolderSync? }

  /** In every run of either agent the two schedule timers exclude each other: at most one id is
      set, a set one names a pending timer of its kind, and no other schedule timer is pending. */
  lemma ScheduleTimersExcludeEachOther(p: Protocol, next: nat, settings: Settings, es: seq<Event>)
    ensures var a := Run(Fresh(p, next, settings), es);
      && (a.ids.waitStart == KErrNotFound || a.ids.waitStop == KErrNotFound)
      && (a.ids.waitStart != KErrNotFound ==> a.ids.waitStart in a.ops && a.ops[a.ids.waitStart] == StartTimer)
      && (a.ids.waitStop != KErrNotFound ==> a.ids.waitStop in a.ops && a.ops[a.ids.waitStop] == StopTimer)
      && (forall i, j :: i in a.ops && IsScheduleTimer(a.ops[i]) && j in a.ops && IsScheduleTimer(a.ops[j]) ==> i == j)
  {
    FreshInv(p, next, settings);
    RunInv(Fresh(p, next, settings), es);
    hide Run;
  }

  /** In every run of an IMAP agent at most one interval timer is pending, and at most one of the
      folder timer and the folder sync, so folder syncs never overlap. */
  lemma ImapTimersAndFolderSyncsAreExclusive(next: nat, settings: Settings, es: seq<Event>)
    ensures var a := Run(Fresh(Imap4, next, settings), es);
      && (forall i, j :: i in a.ops && a.ops[i].IntervalTimer? && j in a.ops && a.ops[j].IntervalTimer? ==> i == j)
      && (forall i, j :: i in a.ops && IsFolderOp(a.ops[i]) && j in a.ops && IsFolderOp(a.ops[j]) ==> i == j)
      && (a.ids.folderTimer == KErrNotFound || a.ids.folderSync == KErrNotFound)
      && (a.ids.folderSync != KErrNotFound <==> exists i :: i in a.ops && a.ops[i].FolderSync?)
  {
    FreshInv(Imap4, next, settings);
    RunInv(Fresh(Imap4, next, settings), es);
    hide Run;
  }
}
