/**
 How a reconcile handles the request annotation: what it observes, what it records with an Update, and
 what it says when it comes to rest.
 */
module Requests {
  import opened Prelude
  import opened ReadyProtocol
  import opened StackModel
  import opened Sync
  import opened Outputs
  import opened UpdateStream
  import opened UpdateController
  import opened ClusterState
  import opened StackController
  import opened Invariants
  import opened UpdateSteps
  import opened UpdateProofs
  import opened StackProofs

  // The status says that the Stack waits for its prerequisites.
  predicate SaysWaiting(status: StackStatus) {
    var c := Find(status.conditions, ReconcilingCondition);
    c.Some? && c.value.reason == PrerequisiteNotSatisfied
  }

  ghost predicate AbsorbsCurrent(w: Cluster, w': Cluster) {
    && w.stack.status.currentUpdate.Some?
    && |w'.absorbed| == |w.absorbed| + 1
    && w.absorbed == w'.absorbed[..|w.absorbed|]
    && w'.absorbed[|w.absorbed|].current == w.stack.status.currentUpdate.value
  }

  // What a reconcile that observed `req` may change in the requests a Stack remembers.
  ghost predicate Remembers(w: Cluster, w': Cluster, req: Request) {
    var st, st' := w.stack.status, w'.stack.status;
    && w'.stack.request == w.stack.request
    && (st'.observedRequest == st.observedRequest || st'.observedRequest == req)
    && (st'.currentUpdate.None? || st'.currentUpdate == st.currentUpdate || st'.currentUpdate.value.request == req)
    && (w'.absorbed == w.absorbed || AbsorbsCurrent(w, w'))
  }

  ghost predicate Recalls(w: Cluster, s: Session) {
    var c := s.status.currentUpdate;
    && Remembers(w, s.w, s.status.observedRequest)
    && (c.None? || c == w.stack.status.currentUpdate || c.value.request == s.status.observedRequest)
    && (s.unsaved.Some? ==> s.w.absorbed == w.absorbed && w.stack.status.currentUpdate == Some(s.unsaved.value.current))
  }

  // A reconcile remembers as it should, and one that comes to rest does not say that it waits.
  ghost predicate EndsWell(w: Cluster, end: (Cluster, Result), req: Request) {
    && Remembers(w, end.0, req)
    && (end.1.Requeue? && end.0.stack.finalizer ==> !SaysWaiting(end.0.stack.status))
  }

  lemma SaveRecalls(w: Cluster, s: Session, ok: bool, releaseOk: bool)
    requires Recalls(w, s)
    ensures Recalls(w, Save(s, ok, releaseOk)) && Save(s, ok, releaseOk).status == s.status
    ensures ok ==> Save(s, ok, releaseOk).w.stack.status == s.status && Save(s, ok, releaseOk).unsaved.None?
  {}

  lemma MarksSay(s: Session, reason: Reason)
    ensures SaysWaiting(Reconciling(s, reason).status) <==> reason == PrerequisiteNotSatisfied
    ensures !SaysWaiting(Stalled(s, reason).status) && !SaysWaiting(Ready(s).status)
  {
    MarkReconcilingShape(s.status.conditions, reason);
    MarkStalledShape(s.status.conditions, reason);
    MarkReadyShape(s.status.conditions);
  }

  lemma SaveEndsWell(w: Cluster, s: Session, i: Input, after: int)
    requires Recalls(w, s) && !SaysWaiting(s.status)
    ensures EndsWell(w, SaveAndReturn(s, i, after), s.status.observedRequest)
    ensures EndsWell(w, SaveAgain(s, i, after), s.status.observedRequest)
  {
    SaveRecalls(w, s, i.saveOk, i.releaseOk);
    SaveRecalls(w, s, i.saveAgainOk, i.releaseOk);
  }

  lemma MarkedEndsWell(w: Cluster, s: Session, reason: Reason, i: Input, after: int)
    requires Recalls(w, s) && reason != PrerequisiteNotSatisfied
    ensures EndsWell(w, SaveAndReturn(Reconciling(s, reason), i, after), s.status.observedRequest)
    ensures EndsWell(w, SaveAndReturn(Stalled(s, reason), i, after), s.status.observedRequest)
    ensures EndsWell(w, SaveAgain(Stalled(s, reason), i, after), s.status.observedRequest)
  {
    MarksSay(s, reason);
    SaveEndsWell(w, Reconciling(s, reason), i, after);
    SaveEndsWell(w, Stalled(s, reason), i, after);
  }

  lemma ReclaimEndsWell(w: Cluster, s: Session, i: Input, after: int)
    requires Recalls(w, s) && !SaysWaiting(s.status)
    ensures EndsWell(w, ReclaimStage(s, i, after), s.status.observedRequest)
  {
    var released := if s.pending.Some? then Release(s.w, s.pending.value) else s.w;
    SaveEndsWell(w, s.(w := released.(workspace := None), pending := None), i, after);
  }

  lemma MarkResultSays(w: Cluster, s: Session)
    requires Recalls(w, s) && s.status.lastUpdate.Some?
    ensures Recalls(w, MarkResult(s)) && !SaysWaiting(MarkResult(s).status)
    ensures MarkResult(s).w == s.w && MarkResult(s).status.observedRequest == s.status.observedRequest
  {
    MarksSay(s, UpdateFailed);
    MarksSay(s, PreviewFailed);
    MarksSay(s, RetryingAfterFailure);
  }

  lemma SyncedEndsWell(w: Cluster, s: Session, i: Input)
    requires Recalls(w, s) && s.status.lastUpdate.Some?
    ensures EndsWell(w, SyncedStage(s, i), s.status.observedRequest)
  {
    var st, last := s.w.stack, s.status.lastUpdate.value;
    var s1 := MarkResult(s);
    MarkResultSays(w, s);
    if st.deleted {
      if last.state != SucceededState {
        SaveEndsWell(w, s1, i, Max(SECOND, last.resyncTime + Cooldown(st.spec, s.status.lastUpdate) - i.requeuedAt));
      } else {
        SaveRecalls(w, s1, i.saveOk, i.releaseOk);
      }
    } else {
      var after := RequeueAfter(st, s.status, i.requeuedAt);
      ReclaimEndsWell(w, s1, i, after);
      SaveEndsWell(w, s1, i, after);
    }
  }

  lemma CreateObjectEndsWell(w: Cluster, s: Session, c: CurrentUpdate, i: Input)
    requires Recalls(w, s) && s.unsaved.None? && s.pending.None? && !SaysWaiting(s.w.stack.status)
    ensures EndsWell(w, CreateObject(s, c, i), s.status.observedRequest)
  {
    MeanwhileTouchesOnly(Created(s.w, c, NextType(s.w.stack)), c.name, i.meanwhile);
  }

  // The session that has announced the Update to come.
  function Announced(s: Session, c: CurrentUpdate): Session {
    var s1 := Reconciling(s, StackProcessing);
    s1.(w := s1.w.(nextName := s1.w.nextName + 1), status := s1.status.(currentUpdate := Some(c)))
  }

  lemma AnnouncedRecalls(w: Cluster, s: Session, c: CurrentUpdate)
    requires Recalls(w, s) && c.request == s.status.observedRequest
    ensures Recalls(w, Announced(s, c)) && !SaysWaiting(Announced(s, c).status)
  {
    MarksSay(s, StackProcessing);
  }

  lemma CreateEndsWell(w: Cluster, s: Session, i: Input, commit: string)
    requires Recalls(w, s) && s.unsaved.None? && s.pending.None?
    ensures EndsWell(w, CreateStage(s, i, commit), s.status.observedRequest)
  {
    var c := CurrentUpdate(s.w.stack.generation, s.status.observedRequest, s.w.nextName, commit);
    var s2 := Announced(s, c);
    AnnouncedRecalls(w, s, c);
    if i.saveAgainOk {
      SaveRecalls(w, s2, true, i.releaseOk);
      var s3 := Save(s2, true, i.releaseOk);
      CreateObjectEndsWell(w, s3, c, i);
      assert CreateStage(s, i, commit) == CreateObject(s3, c, i);
    } else {
      assert CreateStage(s, i, commit) == (s2.w, Retry);
    }
  }

  lemma RunEndsWell(w: Cluster, s: Session, i: Input, commit: string)
    requires Recalls(w, s) && s.unsaved.None? && s.pending.None? && s.w.workspace.Some?
    requires !SaysWaiting(s.w.stack.status)
    ensures EndsWell(w, RunStage(s, i, commit), s.status.observedRequest)
  {
    if IsWorkspaceReady(s.w.workspace) {
      CreateEndsWell(w, s, i, commit);
    } else if s.w.workspace.value.stalled.Some? {
      MarkedEndsWell(w, s, StallReasonOf(s.w.workspace.value.stalled.value), i, 0);
    }
  }

  lemma LaunchEndsWell(w: Cluster, s: Session, i: Input, commit: string)
    requires Recalls(w, s)
    ensures EndsWell(w, LaunchStage(s, i, commit), s.status.observedRequest)
  {
    if i.saveOk {
      MarksSay(s, StackProcessing);
      SaveRecalls(w, Reconciling(s, StackProcessing), true, i.releaseOk);
      var s1 := Save(Reconciling(s, StackProcessing), true, i.releaseOk);
      if i.apply.Applied? {
        RunEndsWell(w, s1.(w := ApplyWorkspace(s1.w, i.apply.changed)), i, commit);
      } else {
        MarkedEndsWell(w, s1, NamespaceTerminating, i, SOURCE_UNAVAILABLE_WAIT);
      }
    }
  }

  // The prerequisite stage may end waiting, but only if some prerequisite is not satisfied.
  lemma PrerequisitesEndWell(w: Cluster, s: Session, i: Input, commit: string)
    requires Recalls(w, s)
    ensures Remembers(w, PrerequisiteStage(s, i, commit).0, s.status.observedRequest)
    ensures s.w.stack.deleted || i.prereq != Unsatisfied ==>
              EndsWell(w, PrerequisiteStage(s, i, commit), s.status.observedRequest)
  {
    if s.w.stack.deleted || i.prereq == Satisfied {
      LaunchEndsWell(w, s, i, commit);
    } else {
      SaveRecalls(w, Reconciling(s, PrerequisiteNotSatisfied), i.saveOk, i.releaseOk);
    }
  }

  lemma SetupEndsWell(w: Cluster, s: Session, i: Input, commit: string)
    requires Recalls(w, s)
    requires i.setup == SetupDone && !IsSynced(s.w.stack, s.status, commit, i.decidedAt) ==> s.w.stack.deleted
    ensures EndsWell(w, SetupStage(s, i, commit), s.status.observedRequest)
  {
    match i.setup
    case SetupBroken =>
    case SetupStalled => MarkedEndsWell(w, s, SpecInvalid, i, 0);
    case SetupDone =>
      if IsSynced(s.w.stack, s.status, commit, i.decidedAt) {
        SyncedEndsWell(w, s, i);
      } else {
        PrerequisitesEndWell(w, s, i, commit);
      }
  }

  lemma ReadyToLeaveEndsWell(w: Cluster, s: Session, i: Input)
    requires Recalls(w, s)
    ensures EndsWell(w, DropFinalizer(Save(Ready(s), true, i.releaseOk).w, i), s.status.observedRequest)
  {
    MarksSay(s, SpecInvalid);
    SaveRecalls(w, Ready(s), true, i.releaseOk);
  }

  lemma SourceEndsWell(w: Cluster, s: Session, i: Input, source: SourceAnswer)
    requires Recalls(w, s)
    requires source.Resolved? && i.setup == SetupDone ==>
               s.w.stack.deleted || IsSynced(s.w.stack, s.status, source.commit, i.decidedAt)
    ensures source.Resolved? ==> EndsWell(w, SetupStage(s, i, source.commit), s.status.observedRequest)
    ensures EndsWell(w, SaveAndReturn(Stalled(s, SpecInvalid), i, 0), s.status.observedRequest)
    ensures EndsWell(w, SaveAndReturn(Stalled(s, SourceUnavailable), i, SOURCE_UNAVAILABLE_WAIT),
                     s.status.observedRequest)
  {
    if source.Resolved? { SetupEndsWell(w, s, i, source.commit); }
    MarkedEndsWell(w, s, SpecInvalid, i, 0);
    MarkedEndsWell(w, s, SourceUnavailable, i, SOURCE_UNAVAILABLE_WAIT);
  }

  lemma CleanUpEndsWell(w: Cluster, s: Session, i: Input)
    requires Recalls(w, s)
    requires var source := ResolveSource(s.w.stack, s.status, i.source);
             source.Resolved? && i.setup == SetupDone ==>
               s.w.stack.deleted || IsSynced(s.w.stack, s.status, source.commit, i.decidedAt)
    ensures EndsWell(w, CleanUpStage(s, i), s.status.observedRequest)
  {
    var st := s.w.stack;
    if st.deleted && (!st.spec.destroyOnFinalize || st.spec.preview) {
      if i.saveOk { ReadyToLeaveEndsWell(w, s, i); }
    } else {
      SourceEndsWell(w, s, i, ResolveSource(st, s.status, i.source));
    }
  }

  // A whole reconcile that does not get as far as the prerequisites.
  lemma ReconcileEndsWell(w: Cluster, i: Input)
    requires !ChecksPrerequisites(w, i) && !(w.stack.deleted && !w.stack.finalizer)
    ensures EndsWell(w, Reconcile(w, i), w.stack.request)
  {
    if (w.stack.finalizer || i.addFinalizerOk) && i.planOk {
      var s := Observe(EnsureFinalizer(w, i), w.stack);
      if s.status.currentUpdate.Some? && AbsorbCurrent(s, i).End? {
        MarkedEndsWell(w, s, StackProcessing, i, 0);
      } else {
        CleanUpEndsWell(w, AbsorbCurrent(s, i).s, i);
      }
    }
  }

  // The session with which a reconcile comes to its prerequisites.
  function AtPrerequisites(w: Cluster, i: Input): (at: (Session, string))
    requires ChecksPrerequisites(w, i)
  {
    var s := AbsorbCurrent(Observe(EnsureFinalizer(w, i), w.stack), i).s;
    (s, ResolveSource(s.w.stack, s.status, i.source).commit)
  }

  /** A reconcile falls into the part before the prerequisites and the part from looking at them on. */
  lemma ReconcileAroundPrerequisites(w: Cluster, i: Input)
    requires ChecksPrerequisites(w, i)
    ensures Reconcile(w, i) == PrerequisiteStage(AtPrerequisites(w, i).0, i, AtPrerequisites(w, i).1)
    ensures !AtPrerequisites(w, i).0.w.stack.deleted
  {}
}
