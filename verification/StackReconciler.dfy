/**
 The Stack reconciler as it runs (stack_controller.go): it rewrites its local copy of the status step
 by step and writes to the API server as it goes.  Each method does exactly what the function of the
 same stage in StackController says.
 */
module StackReconcilerMethods {
  import opened Prelude
  import opened ReadyProtocol
  import opened StackModel
  import opened Sync
  import opened Outputs
  import opened UpdateStream
  import opened UpdateController
  import opened ClusterState
  import opened UpdateSteps
  import opened StackController
  import opened UpdateProofs

  class StackReconciler {
    // the API server's objects
    var stack: Stack
    var workspace: Option<Workspace>
    var updates: map<UpdateName, Update>
    var nextName: UpdateName
    // the reconcile's own: instance.Status and toBeFinalized
    var status: StackStatus
    var toBeFinalized: Option<UpdateName>
    // history
    var unsaved: Option<Absorption>
    var running: map<UpdateName, Running>
    var absorbed: seq<Absorption>
    var executions: map<UpdateName, Execution>
    var created: nat
    var faults: nat
    var leaked: set<UpdateName>

    function World(): Cluster
      reads this
    {
      Cluster(stack, workspace, updates, nextName, running, absorbed, executions, created, faults, leaked)
    }

    ghost function Here(): Session
      reads this
    {
      Session(World(), status, unsaved, toBeFinalized)
    }

    constructor(w: Cluster)
      ensures World() == w
    {
      stack, workspace, updates, nextName := w.stack, w.workspace, w.updates, w.nextName;
      running, absorbed, executions := w.running, w.absorbed, w.executions;
      created, faults, leaked := w.created, w.faults, w.leaked;
      status, unsaved, toBeFinalized := w.stack.status, None, None;
    }

    method RemoveUpdateFinalizer(n: UpdateName)
      modifies this`updates
      ensures World() == Release(old(World()), n)
    {
      if n in updates {
        if updates[n].deleted {
          updates := updates - {n};
        } else {
          updates := updates[n := updates[n].(finalizer := false)];
        }
      }
    }

    method SaveStatus(ok: bool, releaseOk: bool)
      modifies this
      ensures Here() == Save(old(Here()), ok, releaseOk)
    {
      if !ok { return; }
      stack := stack.(status := status);
      if unsaved.Some? {
        absorbed := absorbed + [unsaved.value];
      }
      if toBeFinalized.Some? && releaseOk {
        RemoveUpdateFinalizer(toBeFinalized.value);
      }
      toBeFinalized := None;
      unsaved := None;
    }

    method MarkReconcilingCondition(reason: Reason)
      modifies this`status
      ensures Here() == Reconciling(old(Here()), reason)
    {
      status := status.(conditions := MarkReconciling(status.conditions, reason));
    }

    method MarkStalledCondition(reason: Reason)
      modifies this`status
      ensures Here() == Stalled(old(Here()), reason)
    {
      status := status.(conditions := MarkStalled(status.conditions, reason));
    }

    method SaveStatusAndReturn(i: Input, after: int) returns (res: Result)
      modifies this
      ensures (World(), res) == SaveAndReturn(old(Here()), i, after)
    {
      SaveStatus(i.saveOk, i.releaseOk);
      res := if i.saveOk then Requeue(after) else Retry;
    }

    method MarkStackFailed(c: CurrentUpdate, u: Update, now: int)
      requires u.status.failed == Yes
      modifies this`status, this`unsaved
      ensures status == old(status).(lastUpdate := Some(Absorb(old(status).lastUpdate, AbsorptionOf(c, u, now))))
      ensures unsaved == Some(AbsorptionOf(c, u, now))
    {
      var last := status.lastUpdate;
      var next := LastUpdate(c.generation, c.request, c.name, u.typ, FailedState, u.status.message,
                             c.commit, "", u.status.permalink, now, 0);
      if last.Some? {
        next := next.(lastSuccessfulCommit := last.value.lastSuccessfulCommit);
      }
      if last.Some? && last.value.generation == c.generation && last.value.request == c.request {
        next := next.(failures := last.value.failures + 1);
      }
      status := status.(lastUpdate := Some(next));
      unsaved := Some(AbsorptionOf(c, u, now));
    }

    method MarkStackSucceeded(c: CurrentUpdate, u: Update, secret: SecretRead, now: int) returns (ok: bool)
      requires u.status.failed != Yes
      modifies this`status, this`unsaved
      ensures ok == (u.status.outputs ==> ShownOutputs(secret).Some?)
      ensures !ok ==> status == old(status) && unsaved == old(unsaved)
      ensures ok ==> unsaved == Some(AbsorptionOf(c, u, now))
      ensures ok ==>
                status == old(status).(
                  lastUpdate := Some(Absorb(old(status).lastUpdate, AbsorptionOf(c, u, now))),
                  outputs := if u.status.outputs then ShownOutputs(secret) else old(status).outputs,
                  projectInfo := if u.status.projectInfo.Some? then u.status.projectInfo else old(status).projectInfo)
    {
      ok := true;
      if u.status.outputs {
        var shown := CollectOutputs(secret);
        if shown.None? { return false; }
        status := status.(outputs := shown);
      }
      status := status.(lastUpdate := Some(LastUpdate(c.generation, c.request, c.name, u.typ, SucceededState, "",
                                                      c.commit, c.commit, u.status.permalink, now, 0)));
      if u.status.projectInfo.Some? {
        status := status.(projectInfo := u.status.projectInfo);
      }
      unsaved := Some(AbsorptionOf(c, u, now));
    }

    // Returns None to go on.
    method AbsorbCurrentUpdate(i: Input) returns (stop: Option<Result>)
      requires unsaved.None? && toBeFinalized.None?
      modifies this
      ensures match AbsorbCurrent(old(Here()), i)
              case Proceed(s) => stop.None? && Here() == s
              case End(w, result) => stop == Some(result) && World() == w
    {
      stop := None;
      if status.currentUpdate.Some? {
        var c := status.currentUpdate.value;
        if !i.getUpdateOk { return Some(Retry); }
        if c.name !in updates || !IsUpdateComplete(updates[c.name]) {
          MarkReconcilingCondition(StackProcessing);
          var res := SaveStatusAndReturn(i, 0);
          return Some(res);
        }
        var u := updates[c.name];
        if u.status.failed == Yes {
          MarkStackFailed(c, u, i.absorbedAt);
        } else {
          var ok := MarkStackSucceeded(c, u, i.secret, i.absorbedAt);
          if !ok { return Some(Retry); }
        }
        toBeFinalized := Some(c.name);
        status := status.(currentUpdate := None);
      }
    }

    method RemoveFinalizer(i: Input) returns (res: Result)
      modifies this`stack
      ensures (World(), res) == DropFinalizer(old(World()), i)
    {
      res := Retry;
      if i.dropFinalizerOk {
        stack := stack.(finalizer := false);
        res := Requeue(0);
      }
    }

    method MarkStackResult()
      requires status.lastUpdate.Some?
      modifies this`status
      ensures Here() == MarkResult(old(Here()))
    {
      var last := status.lastUpdate.value;
      if last.state == SucceededState {
        status := status.(conditions := MarkReady(status.conditions));
        return;
      }
      if last.failures >= MAX_UPDATE_FAILURES {
        MarkStalledCondition(UpdateFailed);
        return;
      }
      if last.typ == PreviewType {
        MarkReconcilingCondition(PreviewFailed);
        return;
      }
      MarkReconcilingCondition(RetryingAfterFailure);
    }

    method ReconcileSynced(i: Input) returns (res: Result)
      requires status.lastUpdate.Some?
      modifies this
      ensures (World(), res) == SyncedStage(old(Here()), i)
    {
      var last := status.lastUpdate;
      MarkStackResult();
      if stack.deleted {
        if last.value.state != SucceededState {
          var after := Max(SECOND, last.value.resyncTime + Cooldown(stack.spec, last) - i.requeuedAt);
          res := SaveStatusAndReturn(i, after);
          return;
        }
        SaveStatus(i.saveOk, i.releaseOk);
        res := RemoveFinalizer(i);
        return;
      }
      var after, updateFailed := 0, false;
      if last.value.state == FailedState {
        updateFailed := true;
        if last.value.failures < MAX_UPDATE_FAILURES {
          after := Max(SECOND, last.value.resyncTime + Cooldown(stack.spec, last) - i.requeuedAt);
        }
      }
      if last.value.state == SucceededState && stack.spec.continueResyncOnCommitMatch {
        after := Max(SECOND, last.value.resyncTime + ResyncFreq(stack.spec) - i.requeuedAt);
      }
      if stack.spec.source.GitSource? && stack.spec.source.trackBranch {
        if after > 0 {
          after := Max(SECOND, Min(ResyncFreq(stack.spec), after));
        } else {
          after := Max(SECOND, ResyncFreq(stack.spec));
        }
      }
      if !updateFailed && stack.spec.reclaimDelete {
        res := ReclaimWorkspace(i, after);
        return;
      }
      res := SaveStatusAndReturn(i, after);
    }

    method ReclaimWorkspace(i: Input, after: int) returns (res: Result)
      modifies this
      ensures (World(), res) == ReclaimStage(old(Here()), i, after)
    {
      if toBeFinalized.Some? {
        if !i.earlyReleaseOk { return Retry; }
        RemoveUpdateFinalizer(toBeFinalized.value);
        toBeFinalized := None;
      }
      if !i.deleteWorkspaceOk { return Retry; }
      workspace := None;
      res := SaveStatusAndReturn(i, after);
    }

    method LaunchUpdate(i: Input, commit: string) returns (res: Result)
      modifies this
      ensures (World(), res) == LaunchStage(old(Here()), i, commit)
    {
      MarkReconcilingCondition(StackProcessing);
      SaveStatus(i.saveOk, i.releaseOk);
      if !i.saveOk { return Retry; }
      match i.apply
      case NamespaceIsTerminating => res := StallOnNamespace(i);
      case ApplyBroken => return Retry;
      case Applied(changed) =>
        CreateWorkspace(changed);
        res := RunUpdate(i, commit);
    }

    method StallOnNamespace(i: Input) returns (res: Result)
      modifies this
      ensures (World(), res) ==
              (if old(stack).deleted
               then SaveAgain(Stalled(old(Here()), NamespaceTerminating), i, SOURCE_UNAVAILABLE_WAIT)
               else (old(World()), Retry))
    {
      if !stack.deleted { return Retry; }
      MarkStalledCondition(NamespaceTerminating);
      SaveStatus(i.saveAgainOk, i.releaseOk);
      res := if i.saveAgainOk then Requeue(SOURCE_UNAVAILABLE_WAIT) else Retry;
    }

    method CreateWorkspace(changed: bool)
      modifies this`workspace
      ensures World() == ApplyWorkspace(old(World()), changed) && workspace.Some?
    {
      if workspace.None? {
        workspace := Some(Workspace(1, 0, false, false, None));
      } else if changed {
        workspace := Some(workspace.value.(generation := workspace.value.generation + 1));
      }
    }

    method RunUpdate(i: Input, commit: string) returns (res: Result)
      requires workspace.Some?
      modifies this
      ensures (World(), res) == RunStage(old(Here()), i, commit)
    {
      if !IsWorkspaceReady(workspace) {
        if workspace.value.stalled.Some? {
          if stack.deleted && status.lastUpdate.None? {
            res := RemoveFinalizer(i);
            return;
          }
          MarkStalledCondition(StallReasonOf(workspace.value.stalled.value));
          SaveStatus(i.saveAgainOk, i.releaseOk);
          return if i.saveAgainOk then Requeue(0) else Retry;
        }
        return Requeue(0);
      }
      res := CreateUpdate(i, commit);
    }

    method CreateUpdate(i: Input, commit: string) returns (res: Result)
      modifies this
      ensures (World(), res) == CreateStage(old(Here()), i, commit)
    {
      MarkReconcilingCondition(StackProcessing);
      var current := CurrentUpdate(stack.generation, status.observedRequest, nextName, commit);
      nextName := nextName + 1;
      status := status.(currentUpdate := Some(current));
      SaveStatus(i.saveAgainOk, i.releaseOk);
      if !i.saveAgainOk { return Retry; }
      res := CreateUpdateObject(current, i);
    }

    method CreateUpdateObject(current: CurrentUpdate, i: Input) returns (res: Result)
      modifies this
      ensures (World(), res) == CreateObject(old(Here()), current, i)
    {
      if !i.createOk {
        ForgetUpdate(i);
        return Retry;
      }
      CreateInStore(current);
      UpdateReconcilerSteps(current.name, i.meanwhile);
      if !i.finalizeUpdateOk {
        DropUpdate(current.name, i);
        ForgetUpdate(i);
        return Retry;
      }
      AddUpdateFinalizer(current.name);
      res := Requeue(0);
    }

    method CreateInStore(current: CurrentUpdate)
      modifies this`updates, this`executions, this`created
      ensures World() == Created(old(World()), current, NextType(stack))
    {
      var typ := NextType(stack);
      updates := updates[current.name := NewUpdate(typ)];
      executions := executions[current.name := Execution(current, typ, [], None)];
      created := created + 1;
    }

    // The other controller is not idle meanwhile.
    method UpdateReconcilerSteps(n: UpdateName, steps: seq<UpdateStep>)
      modifies this`updates, this`executions, this`running
      ensures World() == Meanwhile(old(World()), n, steps)
    {
      MeanwhileTouchesOnly(World(), n, steps);
      var w := Meanwhile(World(), n, steps);
      updates, executions, running := w.updates, w.executions, w.running;
    }

    method AddUpdateFinalizer(n: UpdateName)
      modifies this`updates
      ensures World() == Finalized(old(World()), n)
    {
      if n in updates {
        updates := updates[n := updates[n].(finalizer := true)];
      }
    }

    method DropUpdate(n: UpdateName, i: Input)
      modifies this`updates, this`faults, this`leaked
      ensures World() == Faulty(old(World()), n, i.deleteUpdateOk, i.saveUndoOk)
    {
      if i.saveUndoOk && (!i.deleteUpdateOk || Begun(World(), n)) {
        leaked := leaked + {n};
      }
      if i.deleteUpdateOk {
        updates := updates - {n};
      }
      faults := faults + 1;
    }

    method ForgetUpdate(i: Input)
      modifies this
      ensures var s := old(Here());
              Here() == Save(s.(status := s.status.(currentUpdate := None)), i.saveUndoOk, i.releaseOk)
    {
      status := status.(currentUpdate := None);
      SaveStatus(i.saveUndoOk, i.releaseOk);
    }

    /** One reconcile of the Stack. */
    method ReconcileStack(i: Input) returns (res: Result)
      modifies this
      ensures (World(), res) == Reconcile(old(World()), i)
    {
      status := stack.status.(observedGeneration := stack.generation, observedRequest := stack.request);
      toBeFinalized, unsaved := None, None;
      if stack.deleted && !stack.finalizer { return Requeue(0); }
      if !stack.deleted && !stack.finalizer {
        if !i.addFinalizerOk { return Retry; }
        stack := stack.(finalizer := true, generation := stack.generation + if i.finalizerBumps then 1 else 0);
      }
      if !i.planOk { return Retry; }
      var stop := AbsorbCurrentUpdate(i);
      if stop.Some? { return stop.value; }
      res := ReconcileSettled(i);
    }

    method ReconcileSettled(i: Input) returns (res: Result)
      modifies this
      ensures (World(), res) == CleanUpStage(old(Here()), i)
    {
      if stack.deleted && (!stack.spec.destroyOnFinalize || stack.spec.preview) {
        status := status.(conditions := MarkReady(status.conditions));
        SaveStatus(i.saveOk, i.releaseOk);
        if !i.saveOk { return Retry; }
        res := RemoveFinalizer(i);
        return;
      }
      match ResolveSource(stack, status, i.source)
      case SourceInvalid =>
        MarkStalledCondition(SpecInvalid);
        res := SaveStatusAndReturn(i, 0);
      case SourceMissing =>
        MarkStalledCondition(SourceUnavailable);
        res := SaveStatusAndReturn(i, SOURCE_UNAVAILABLE_WAIT);
      case SourceBroken => res := Retry;
      case Resolved(commit) => res := ReconcileSource(i, commit);
    }

    method ReconcileSource(i: Input, commit: string) returns (res: Result)
      modifies this
      ensures (World(), res) == SetupStage(old(Here()), i, commit)
    {
      match i.setup
      case SetupStalled =>
        MarkStalledCondition(SpecInvalid);
        res := SaveStatusAndReturn(i, 0);
        return;
      case SetupBroken => return Retry;
      case SetupDone =>
      if IsSynced(stack, status, commit, i.decidedAt) {
        res := ReconcileSynced(i);
        return;
      }
      if !stack.deleted {
        match i.prereq {
          case Satisfied =>
          case PrereqBroken => return Retry;
          case Unsatisfied =>
            MarkReconcilingCondition(PrerequisiteNotSatisfied);
            res := SaveStatusAndReturn(i, 0);
            return;
        }
      }
      res := LaunchUpdate(i, commit);
    }
  }
}
