/**
 The Update reconciler (update_controller.go).  One reconcile spans a long-running stream, so it is
 cut at its writes into three phases: Begin (guards and the first status write), Dial (workspace,
 connection, opening the operation) and Finish (the end of the stream and the last status write).
 Between phases the session lives in the operator's memory and is lost in a crash.
 */
module UpdateController {
  import opened Prelude
  import opened StackModel
  import opened UpdateStream

  datatype Update = Update(
    typ: UpdateType, generation: int, observedGeneration: int, status: UpdateStatus,
    finalizer: bool, deleted: bool, orphaned: bool)

  function NewUpdate(typ: UpdateType): Update {
    Update(typ, 1, 0, FRESH, false, false, false)
  }

  // isUpdateComplete: what the Stack reconciler waits for.
  predicate IsUpdateComplete(u: Update) {
    u.generation == u.observedGeneration && u.status.complete == Yes
  }

  function MarkFailed(st: UpdateStatus, reason: string): UpdateStatus {
    st.(progressing := No, failed := Yes, failedReason := reason, complete := Yes)
  }

  function MarkInFlight(st: UpdateStatus): UpdateStatus {
    st.(progressing := Yes, failed := No, failedReason := "Progressing", complete := No)
  }

  function MarkRetryable(st: UpdateStatus): UpdateStatus {
    st.(progressing := No, failed := No, failedReason := "Progressing", complete := No)
  }

  // A reconcile that is under way, as the operator's memory holds it.
  datatype Running =
    | Starting(generation: int, status: UpdateStatus)
    | Streaming(generation: int, status: UpdateStatus, script: Script)

  datatype BeginOutcome =
    | BeginIdle                          // nothing to write
    | BeginExpire                        // the completed Update has outlived its TTL; delete it
    | BeginStop(status: UpdateStatus)    // write this status and end
    | BeginStart(status: UpdateStatus)   // write this status and go on

  function Begin(u: Update, ttlExpired: bool): BeginOutcome {
    if u.status.complete == Yes then
      if !u.deleted && ttlExpired then BeginExpire else BeginIdle
    else if u.status.progressing == Yes then BeginStop(MarkFailed(u.status, "Aborted"))
    else if u.deleted then BeginStop(MarkFailed(u.status, "Canceled"))
    else if u.orphaned then BeginStop(MarkFailed(u.status, "Canceled"))
    else BeginStart(MarkInFlight(u.status))
  }

  // What the agent and the API server answer between the first write and the stream.
  datatype Dialled =
    | GetWorkspaceFailed
    | ConnectFailed
    | SelectFailed
    | OpenUnavailable                 // the open request found the workspace unreachable
    | OpenRefused                     // any other error of the open request
    | Opened(script: Script)

  datatype DialOutcome = DialAgain(status: UpdateStatus) | DialGiveUp | DialStream(script: Script)

  function Dial(r: Running, workspace: Option<Workspace>, d: Dialled): DialOutcome {
    if d == GetWorkspaceFailed then DialGiveUp
    else if !IsWorkspaceReady(workspace) then DialAgain(MarkRetryable(r.status))
    else match d
      case ConnectFailed => DialAgain(MarkRetryable(r.status))
      case OpenUnavailable => DialAgain(MarkRetryable(r.status))
      case Opened(script) => DialStream(script)
      case _ => DialGiveUp
  }

  // The status to write at the end of the stream, if the reconcile gets that far.
  function Finish(r: Running, typ: UpdateType, secretCreated: bool): Option<UpdateStatus>
    requires r.Streaming?
  {
    var end := Decisive(r.script);
    var st := Apply(r.status, end);
    if end.Result? && typ == UpType && end.res.hasOutputs then
      if secretCreated then Some(st.(outputs := true)) else None
    else Some(st)
  }

  function WriteStatus(u: Update, generation: int, st: UpdateStatus): Update {
    u.(observedGeneration := generation, status := st)
  }

  /** One reconcile of one Update, acting on the stored object. */
  class UpdateReconciler {
    var stored: Update
    var running: Option<Running>

    constructor(u: Update)
      ensures stored == u && running == None
    {
      stored, running := u, None;
    }

    // updateStatus: one patch; a refused patch changes nothing.
    method UpdateStatusWrite(generation: int, st: UpdateStatus, ok: bool)
      modifies this`stored
      ensures stored == if ok then WriteStatus(old(stored), generation, st) else old(stored)
    {
      if ok { stored := stored.(observedGeneration := generation, status := st); }
    }

    method BeginReconcile(ttlExpired: bool, writeOk: bool) returns (expire: bool)
      requires running.None?
      modifies this
      ensures expire == Begin(old(stored), ttlExpired).BeginExpire?
      ensures stored == match Begin(old(stored), ttlExpired)
                        case BeginStop(st) =>
                          if writeOk then WriteStatus(old(stored), old(stored).generation, st) else old(stored)
                        case BeginStart(st) =>
                          if writeOk then WriteStatus(old(stored), old(stored).generation, st) else old(stored)
                        case _ => old(stored)
      ensures running == if Begin(old(stored), ttlExpired).BeginStart? && writeOk
                         then Some(Starting(old(stored).generation, stored.status)) else None
    {
      expire := false;
      var st := stored.status;
      if st.complete == Yes {
        expire := !stored.deleted && ttlExpired;
        return;
      }
      if st.progressing == Yes {
        st := st.(progressing := No, failed := Yes, failedReason := "Aborted", complete := Yes);
        UpdateStatusWrite(stored.generation, st, writeOk);
        return;
      }
      if stored.deleted || stored.orphaned {
        st := st.(progressing := No, failed := Yes, failedReason := "Canceled", complete := Yes);
        UpdateStatusWrite(stored.generation, st, writeOk);
        return;
      }
      st := st.(progressing := Yes, failed := No, failedReason := "Progressing", complete := No);
      UpdateStatusWrite(stored.generation, st, writeOk);
      if writeOk { running := Some(Starting(stored.generation, stored.status)); }
    }

    method DialWorkspace(workspace: Option<Workspace>, d: Dialled, writeOk: bool)
      requires running.Some? && running.value.Starting?
      modifies this
      ensures var out := Dial(old(running).value, workspace, d);
              && stored == (if out.DialAgain? && writeOk
                            then WriteStatus(old(stored), old(running).value.generation, out.status) else old(stored))
              && running == (if out.DialStream?
                             then Some(Streaming(old(running).value.generation, old(running).value.status,
                                                 out.script))
                             else None)
    {
      var r := running.value;
      running := None;
      if d.GetWorkspaceFailed? { return; }
      var retryable := r.status.(progressing := No, failed := No, failedReason := "Progressing", complete := No);
      if !IsWorkspaceReady(workspace) {
        UpdateStatusWrite(r.generation, retryable, writeOk);
        return;
      }
      if d.ConnectFailed? {
        UpdateStatusWrite(r.generation, retryable, writeOk);
        return;
      }
      if d.SelectFailed? { return; }
      if d.OpenUnavailable? {
        UpdateStatusWrite(r.generation, retryable, writeOk);
        return;
      }
      if d.OpenRefused? { return; }
      running := Some(Streaming(r.generation, r.status, d.script));
    }

    method FinishStream(secretCreated: bool, writeOk: bool)
      requires running.Some? && running.value.Streaming?
      modifies this
      ensures running == None
      ensures var st := Finish(old(running).value, old(stored).typ, secretCreated);
              stored == if st.Some? && writeOk
                        then WriteStatus(old(stored), old(running).value.generation, st.value) else old(stored)
    {
      var r := running.value;
      running := None;
      var reader := new StreamReader(r.script, r.status);
      var end := reader.ReadResult();
      if end.Result? && stored.typ == UpType && end.res.hasOutputs {
        if !secretCreated { return; }
        reader.outputs := true;
      }
      UpdateStatusWrite(r.generation, reader.Block(), writeOk);
    }
  }
}
