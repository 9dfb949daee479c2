/** The engine as an object: each method changes the fields exactly as the function of the same name. */
module MailBaseOp {
  import opened BaseOp

  class MailBaseOp {
    var iState: nat
    var iObserver: Option<nat>
    var iExtRequestStatus: Option<nat>
    var iWaitingError: int
    var iWaitDialog: Dialog
    var active: bool
    var started: nat
    var log: seq<Callback>
    var panicked: bool

    ghost function Value(): Op
      reads this
    {
      Op(iState, iObserver, iExtRequestStatus, iWaitingError, iWaitDialog, active, started, log, panicked)
    }

    constructor ()
      ensures Value() == New
    {
      iState, iObserver, iExtRequestStatus, iWaitingError := EIdleState, None, None, KMaxTInt;
      iWaitDialog, active, started, log, panicked := NoDialog, false, 0, [], false;
    }

    method NotifyObservers(code: int)
      modifies this
      ensures Value() == BaseOp.NotifyObservers(old(Value()), code)
    {
      if iObserver.Some? {
        log := log + [Callback(iObserver.value, Observer, code, iState)];
        iObserver := None;
      }
      if iExtRequestStatus.Some? {
        log := log + [Callback(iExtRequestStatus.value, RequestStatus, code, iState)];
        iExtRequestStatus := None;
      }
    }

    method CompleteOperation(code: int, stays: bool)
      modifies this
      ensures Value() == BaseOp.CompleteOperation(old(Value()), code, stays)
    {
      hide BaseOp.NotifyObservers;
      iState := EIdleState;
      if !stays { iWaitDialog := NoDialog; }
      if iWaitDialog.Open? {
        iWaitDialog := Open(true);
        iWaitingError := code;
      } else {
        NotifyObservers(code);
      }
    }

    method RunError(error: int, handled: bool, stays: bool)
      modifies this
      ensures Value() == BaseOp.RunError(old(Value()), error, handled, stays)
    {
      hide BaseOp.CompleteOperation;
      if error == KLeaveExit { return; }
      if error == KErrDiskFull || error == KErrNoMemory {
        CompleteOperation(KErrCancel, stays);
      } else if !handled {
        CompleteOperation(error, stays);
      }
    }

    method Run(x: Answers)
      modifies this
      ensures Value() == BaseOp.Run(old(Value()), x)
    {
      hide BaseOp.CompleteOperation, BaseOp.NotifyObservers, BaseOp.RunError;
      active := false;
      if x.code != KErrNone && !x.handled {
        CompleteOperation(x.code, x.stays);
        return;
      }
      if iWaitingError <= KErrNone && iState == EIdleState {
        NotifyObservers(iWaitingError);
      } else {
        iState := x.next;
        if iState == EIdleState {
          CompleteOperation(KErrNone, x.stays);
        } else {
          if !x.note { iWaitDialog := NoDialog; }
          else if iWaitDialog.NoDialog? { iWaitDialog := Open(false); }
          if x.leave.Some? { RunError(x.leave.value, x.leaveHandled, x.stays); }
          else { active := true; }
        }
      }
    }

    method Cancel(stays: bool)
      modifies this
      ensures Value() == Cancelled(old(Value()), stays)
    {
      hide BaseOp.CompleteOperation;
      if active {
        active := false;
        CompleteOperation(KErrCancel, stays);
      }
    }

    method StartOp(client: Client, stays: bool)
      modifies this
      ensures Value() == Started(old(Value()), client, stays)
    {
      hide BaseOp.CompleteOperation;
      ghost var before := started;
      Cancel(stays);
      assert started == before by { CompleteKeepsStarted(old(Value()).(active := false), KErrCancel, stays); }
      if client.Observer? { iObserver := Some(started); } else { iExtRequestStatus := Some(started); }
      started := started + 1;
      active := true;
    }

    method DialogDismissed()
      modifies this
      ensures Value() == DialogClosed(old(Value()))
    {
      if iWaitDialog.NoDialog? { return; }
      if iWaitDialog.callback {
        panicked := active;
        active := true;
      }
      iWaitDialog := NoDialog;
    }
  }
}
