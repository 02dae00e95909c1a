/** The main safety theorems, over every run of both controllers together. */
module Safety {
  import opened Prelude
  import opened ReadyProtocol
  import opened StackModel
  import opened Sync
  import opened Outputs
  import opened UpdateStream
  import opened UpdateController
  import opened ClusterState
  import opened UpdateSteps
  import opened StackController
  import opened Invariants
  import opened UpdateProofs
  import opened StackProofs
  import opened Runs

  /**
   At-most-once execution.  However reconciles, crashes, refused status writes and unreachable
   workspaces interleave, one Update opens at most one operation stream; and while a stream may
   still be opened for it, its conditions are in a state from which it may start.
   */
  lemma AtMostOnceExecution(w: Cluster, n: UpdateName)
    requires Reachable(w) && n in w.executions
    ensures |w.executions[n].streams| <= 1
    ensures n in w.updates && w.executions[n].streams != [] ==>
            !Unstarted(w.updates[n].status) && !Retryable(w.updates[n].status)
  {
    ReachableInv(w);
    assert NameInv(w, n);
  }

  /**
   Verdicts.  A stored Update is always unstarted, in flight, retryable, failed or succeeded; and it
   is recorded as succeeded only if its single stream delivered a result that did not fail before
   anything else decided (or broke with an error that is no gRPC status).  So if no stream breaks like
   that, as none does that a gRPC client opens, a recorded success was delivered.
   */
  lemma VerdictsAreSound(w: Cluster, n: UpdateName)
    requires Reachable(w) && n in w.updates
    ensures LegalTriple(w.updates[n].status)
    ensures DoneSucceeded(w.updates[n].status) ==> n in w.executions && Delivered(w.executions[n])
    ensures DoneSucceeded(w.updates[n].status) && !BreaksForeign(w.executions[n].streams[0]) ==>
              DeliversSuccess(w.executions[n].streams[0])
  {
    ReachableInv(w);
    assert NameInv(w, n);
  }

  /**
   Completion is for ever: in every run, a complete Update keeps its status to the letter until it is gone
   for good.
   */
  lemma {:induction false} CompleteIsAbsorbing(t: seq<Cluster>, j: nat, k: nat, n: UpdateName)
    requires IsRun(t) && j <= k < |t|
    requires n in t[j].updates && t[j].updates[n].status.complete == Yes
    ensures n in t[k].updates ==> t[k].updates[n].status == t[j].updates[n].status
    ensures n in t[k].executions
  {
    RunInv(t, j);
    assert NameInv(t[j], n);
    if j < k {
      CompleteIsAbsorbing(t, j, k - 1, n);
      RunIsGood(t, k - 1);
      assert CompleteKept(t[k - 1], t[k], n) && GoneKept(t[k - 1], t[k], n);
    }
  }

  /**
   Exactly-once absorption.  In every reachable state LastUpdate is the fold of markStackFailed and
   markStackSucceeded over the absorbed Updates; these are absorbed in creation order, each once,
   with the verdict, the message and the permalink that it was stored with when it completed.
   */
  lemma ExactlyOnceAbsorption(w: Cluster)
    requires Reachable(w)
    ensures w.stack.status.lastUpdate == Fold(w.absorbed)
    ensures InOrder(w.absorbed)
    ensures forall a :: a in w.absorbed ==> AbsorptionInv(w, a)
  {
    ReachableInv(w);
  }

  /**
   So LastUpdate tells the truth: it failed or succeeded as its Update did, with the message of a failed
   one, and was made for the generation and request for which that was created.
   */
  lemma LastUpdateTellsTheTruth(w: Cluster)
    requires Reachable(w) && w.stack.status.lastUpdate.Some?
    ensures var last := w.stack.status.lastUpdate.value;
            && last.name in w.executions
            && var e := w.executions[last.name];
              && e.end.Some?
              && (last.state == FailedState <==> e.end.value.failed == Yes)
              && (last.state == SucceededState <==> e.end.value.failed != Yes)
              && (last.state == FailedState ==> last.message == e.end.value.message)
              && last.permalink == e.end.value.permalink
              && last.typ == e.typ && last.lastAttemptedCommit == e.origin.commit
              && last.generation == e.origin.generation && last.request == e.origin.request
              && (last.name in w.updates ==> w.updates[last.name].status == e.end.value)
  {
    ReachableInv(w);
    FoldOfLast(w);
    assert NameInv(w, w.stack.status.lastUpdate.value.name);
  }

  /** History only grows: what was absorbed stays absorbed. */
  lemma {:induction false} AbsorptionIsPermanent(t: seq<Cluster>, j: nat, k: nat)
    requires IsRun(t) && j <= k < |t|
    ensures t[j].absorbed <= t[k].absorbed
  {
    if j < k {
      AbsorptionIsPermanent(t, j, k - 1);
      RunIsGood(t, k - 1);
    }
  }

  /**
   No result is lost: as long as the workspace is not to be reclaimed, an Update that has its finalizer
   stays in the store, finalizer and all, until the status that absorbs it has been saved.
   */
  lemma {:induction false} FinalizerOutlastsAbsorption(t: seq<Cluster>, j: nat, k: nat, n: UpdateName)
    requires IsRun(t) && j <= k < |t| && n in t[j].updates && t[j].updates[n].finalizer
    requires forall m :: j <= m < k ==> !t[m].stack.spec.reclaimDelete
    ensures (n in t[k].updates && t[k].updates[n].finalizer) || n in AbsorbedNames(t[k].absorbed)
  {
    if j < k {
      FinalizerOutlastsAbsorption(t, j, k - 1, n);
      RunIsGood(t, k - 1);
      NamesOfPrefix(t[k - 1], t[k]);
    }
  }

  /*** Single flight ***/

  /** An Update that is not complete, unless left behind, is the one CurrentUpdate names, so there is at most one. */
  lemma SingleFlightHolds(w: Cluster, m: UpdateName, n: UpdateName)
    requires Reachable(w) && m !in w.leaked && n !in w.leaked
    requires m in w.updates && w.updates[m].status.complete != Yes
    requires n in w.updates && w.updates[n].status.complete != Yes
    ensures m == n && IsCurrent(w, n)
  {
    ReachableInv(w);
    assert NameInv(w, m) && NameInv(w, n);
  }

  /** So it is with operations, even where the object is gone: one that is under way is that of the current Update. */
  lemma OneOperationAtATime(w: Cluster, m: UpdateName, n: UpdateName)
    requires Reachable(w) && m in w.running && n in w.running && m !in w.leaked && n !in w.leaked
    ensures m == n && IsCurrent(w, n)
  {
    ReachableInv(w);
    assert NameInv(w, m) && NameInv(w, n);
    NotAbsorbedWhileRunning(w, m);
    NotAbsorbedWhileRunning(w, n);
  }

  lemma NotAbsorbedWhileRunning(w: Cluster, n: UpdateName)
    requires Inv(w) && n in w.running
    ensures n !in AbsorbedNames(w.absorbed)
  {
    forall a | a in w.absorbed ensures a.current.name != n { assert AbsorptionInv(w, a); }
  }

  ghost predicate InSingleFlight(w: Cluster) {
    forall n :: SingleFlight(w, n)
  }

  /** Single flight is broken exactly while an Update that was left behind is not complete. */
  lemma SingleFlightExactly(w: Cluster)
    requires Reachable(w)
    ensures InSingleFlight(w) <==> forall n :: n in w.leaked && n in w.updates ==> w.updates[n].status.complete == Yes
  {
    ReachableInv(w);
    forall n ensures SingleFlight(w, n) <==> (n in w.leaked && n in w.updates ==> w.updates[n].status.complete == Yes) {
      assert NameInv(w, n);
    }
  }

  // The reconcile leaves the Update behind that it creates: it cannot add the finalizer, clears
  // CurrentUpdate, and cannot delete the object, or deletes it when its operation has begun.
  predicate LeavesBehind(w: Cluster, i: Input) {
    var w' := Reconcile(w, i).0;
    && w'.created > w.created
    && !i.finalizeUpdateOk && i.saveUndoOk
    && (!i.deleteUpdateOk || Begun(w', w.nextName))
  }

  // What a stage that may create an Update of that name leaves behind.
  predicate LeavesOnly(w: Cluster, w': Cluster, n: UpdateName, i: Input) {
    w'.leaked == if w'.created > w.created && !i.finalizeUpdateOk && i.saveUndoOk && (!i.deleteUpdateOk || Begun(w', n))
                 then w.leaked + {n} else w.leaked
  }

  predicate LeavesNothing(w: Cluster, w': Cluster) {
    w'.created == w.created && w'.leaked == w.leaked
  }

  lemma SaveLeavesNothing(s: Session, ok: bool, releaseOk: bool)
    ensures LeavesNothing(s.w, Save(s, ok, releaseOk).w)
  {}

  lemma CreateObjectLeak(s: Session, c: CurrentUpdate, i: Input)
    requires s.pending.None? && s.unsaved.None?
    ensures LeavesOnly(s.w, CreateObject(s, c, i).0, c.name, i)
  {
    MeanwhileTouchesOnly(Created(s.w, c, NextType(s.w.stack)), c.name, i.meanwhile);
  }

  lemma CreateLeak(s: Session, i: Input, commit: string)
    requires s.pending.None? && s.unsaved.None?
    ensures LeavesOnly(s.w, CreateStage(s, i, commit).0, s.w.nextName, i)
  {
    var c := CurrentUpdate(s.w.stack.generation, s.status.observedRequest, s.w.nextName, commit);
    var s1 := Reconciling(s, StackProcessing);
    var s2 := s1.(w := s1.w.(nextName := s1.w.nextName + 1), status := s1.status.(currentUpdate := Some(c)));
    if i.saveAgainOk {
      SaveLeavesNothing(s2, true, i.releaseOk);
      CreateObjectLeak(Save(s2, true, i.releaseOk), c, i);
    }
  }

  lemma RunLeak(s: Session, i: Input, commit: string)
    requires s.pending.None? && s.unsaved.None? && s.w.workspace.Some?
    ensures LeavesOnly(s.w, RunStage(s, i, commit).0, s.w.nextName, i)
  {
    if IsWorkspaceReady(s.w.workspace) {
      CreateLeak(s, i, commit);
    } else if s.w.workspace.value.stalled.Some? {
      SaveLeavesNothing(Stalled(s, StallReasonOf(s.w.workspace.value.stalled.value)), i.saveAgainOk, i.releaseOk);
    }
  }

  lemma LaunchLeak(s: Session, i: Input, commit: string)
    ensures LeavesOnly(s.w, LaunchStage(s, i, commit).0, s.w.nextName, i)
  {
    if i.saveOk {
      var s0 := Reconciling(s, StackProcessing);
      var s1 := Save(s0, true, i.releaseOk);
      SaveLeavesNothing(s0, true, i.releaseOk);
      SaveLeavesNothing(Stalled(s1, NamespaceTerminating), i.saveAgainOk, i.releaseOk);
      if i.apply.Applied? {
        RunLeak(s1.(w := ApplyWorkspace(s1.w, i.apply.changed)), i, commit);
      }
    }
  }

  lemma SyncedLeak(s: Session, i: Input)
    requires s.status.lastUpdate.Some?
    ensures LeavesNothing(s.w, SyncedStage(s, i).0)
  {
    var s1 := MarkResult(s);
    SaveLeavesNothing(s1, i.saveOk, i.releaseOk);
    if !s.w.stack.deleted {
      ReclaimLeak(s1, i, RequeueAfter(s.w.stack, s.status, i.requeuedAt));
    }
  }

  lemma ReclaimLeak(s: Session, i: Input, after: int)
    ensures LeavesNothing(s.w, ReclaimStage(s, i, after).0)
  {
    var released := if s.pending.Some? then Release(s.w, s.pending.value) else s.w;
    SaveLeavesNothing(s.(w := released.(workspace := None), pending := None), i.saveOk, i.releaseOk);
  }

  lemma SetupLeak(s: Session, i: Input, commit: string)
    ensures LeavesOnly(s.w, SetupStage(s, i, commit).0, s.w.nextName, i)
  {
    SaveLeavesNothing(Stalled(s, SpecInvalid), i.saveOk, i.releaseOk);
    if IsSynced(s.w.stack, s.status, commit, i.decidedAt) {
      SyncedLeak(s, i);
    } else {
      SaveLeavesNothing(Reconciling(s, PrerequisiteNotSatisfied), i.saveOk, i.releaseOk);
      LaunchLeak(s, i, commit);
    }
  }

  lemma CleanUpLeak(s: Session, i: Input)
    ensures LeavesOnly(s.w, CleanUpStage(s, i).0, s.w.nextName, i)
  {
    SaveLeavesNothing(Ready(s), true, i.releaseOk);
    SaveLeavesNothing(Stalled(s, SpecInvalid), i.saveOk, i.releaseOk);
    SaveLeavesNothing(Stalled(s, SourceUnavailable), i.saveOk, i.releaseOk);
    var source := ResolveSource(s.w.stack, s.status, i.source);
    if source.Resolved? { SetupLeak(s, i, source.commit); }
  }

  /** One reconcile leaves behind the Update it creates exactly under those answers, and never another. */
  lemma LeaksExactly(w: Cluster, i: Input)
    ensures Reconcile(w, i).0.leaked == if LeavesBehind(w, i) then w.leaked + {w.nextName} else w.leaked
  {
    var s := Observe(EnsureFinalizer(w, i), w.stack);
    SaveLeavesNothing(Reconciling(s, StackProcessing), i.saveOk, i.releaseOk);
    match AbsorbCurrent(s, i)
    case Proceed(s') => CleanUpLeak(s', i);
    case End(_, _) =>
  }

  lemma OthersLeakNothing(w: Cluster, e: Event)
    requires !e.StackReconcile?
    ensures Next(w, e).leaked == w.leaked
  {}

  /** And no other step of any run leaves one behind. */
  lemma LeavingStep(t: seq<Cluster>, k: nat)
    requires IsRun(t) && k + 1 < |t|
    ensures t[k + 1].leaked != t[k].leaked <==> exists i :: t[k + 1] == Reconcile(t[k], i).0 && LeavesBehind(t[k], i)
  {
    RunInv(t, k);
    assert NameInv(t[k], t[k].nextName);
    assert StepAt(t, k);
    var e :| t[k + 1] == Next(t[k], e);
    if e.StackReconcile? { LeaksExactly(t[k], e.i); } else { OthersLeakNothing(t[k], e); }
    if i :| t[k + 1] == Reconcile(t[k], i).0 && LeavesBehind(t[k], i) { LeaksExactly(t[k], i); }
  }

  /*** Destroy before release ***/

  // No operation was ever run for this Stack.
  ghost predicate Untried(w: Cluster) {
    forall n :: n in w.executions ==> w.executions[n].streams == []
  }

  /**
   Destroy before release.  If any step of any run takes the finalizer off a Stack, it is being deleted,
   and unless it is preview only or asks for no destroy, either a destroy at its current generation
   and request was executed and its one stream delivered a result that did not fail (or broke with an
   error that is no gRPC status, which passes for a success), or no update was
   ever recorded and the workspace is stalled.  In the latter case no operation was ever run if and
   only if none was for an Update that was left behind.
   */
  lemma DestroyBeforeRelease(t: seq<Cluster>, k: nat)
    requires IsRun(t) && k + 1 < |t| && t[k].stack.finalizer && !t[k + 1].stack.finalizer
    ensures ReleaseIsSafe(t[k], t[k + 1])
  {
    RunIsGood(t, k);
    StepReleasesSafely(t[k], t[k + 1]);
  }

  ghost predicate LeftUntried(w: Cluster) {
    forall n :: n in w.leaked && n in w.executions ==> w.executions[n].streams == []
  }

  ghost predicate ReleaseIsSafe(w: Cluster, w': Cluster) {
    && w.stack.deleted
    && (|| !w.stack.spec.destroyOnFinalize
        || w.stack.spec.preview
        || Destroyed(w)
        || (NothingHappened(w') && (Untried(w') <==> LeftUntried(w'))))
  }

  lemma StepReleasesSafely(w: Cluster, w': Cluster)
    requires Inv(w') && GoodStep(w, w') && w.stack.finalizer && !w'.stack.finalizer
    ensures ReleaseIsSafe(w, w')
  {
    if NothingHappened(w') { NothingRecordedNothingRun(w'); }
  }

  lemma NothingRecordedNothingRun(w: Cluster)
    requires Inv(w) && NothingHappened(w)
    ensures Untried(w) <==> LeftUntried(w)
  {
    assert w.absorbed == [];
    forall n | n in w.executions && n !in w.leaked ensures w.executions[n].streams == [] { assert NameInv(w, n); }
  }

  /**
   Release is the end: whatever happens after the finalizer has left a deleted Stack, it never comes back,
   and no further Update is created or absorbed and no further status written for that Stack.
   */
  lemma {:induction false} ReleasedStaysReleased(t: seq<Cluster>, j: nat, k: nat)
    requires IsRun(t) && j <= k < |t| && t[j].stack.deleted && !t[j].stack.finalizer
    ensures t[k].stack.deleted && !t[k].stack.finalizer && t[k].stack.status == t[j].stack.status
    ensures t[k].created == t[j].created && t[k].absorbed == t[j].absorbed && t[k].leaked == t[j].leaked
  {
    if j < k {
      ReleasedStaysReleased(t, j, k - 1);
      assert StepAt(t, k - 1);
      RunInv(t, k - 1);
      ReleasedStep(t[k - 1], t[k]);
    }
  }

  lemma ReleasedStep(w: Cluster, w': Cluster)
    requires Inv(w) && LeadsTo(w, w') && w.stack.deleted && !w.stack.finalizer
    ensures w'.stack.deleted && !w'.stack.finalizer && w'.stack.status == w.stack.status
    ensures w'.created == w.created && w'.absorbed == w.absorbed && w'.leaked == w.leaked
  {
    var e :| w' == Next(w, e);
    if !e.StackReconcile? { OthersLeakNothing(w, e); }
    if IsUpdateEvent(e) { UpdateEventTouchesUpdatesOnly(w, e); }
  }

  /*** Ready means ready ***/

  /**
   Every stored status obeys the ready protocol, and unless the Stack is being deleted Ready=True
   means that the last update succeeded at the observed generation and request.
   */
  lemma ReadyIsSound(w: Cluster)
    requires Reachable(w)
    ensures w.stack.status.conditions == [] || WellFormed(w.stack.status.conditions)
    ensures !w.stack.deleted && IsTrue(w.stack.status.conditions, ReadyCondition) ==>
            SucceededAsObserved(w.stack.status)
  {
    ReachableInv(w);
  }
}
