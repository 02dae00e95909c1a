/**
 What a reconcile leaves in the status, and when it comes back: for every condition it may set, what that
 tells of the stored objects and of the answers the reconcile got.
 */
module Outcomes {
  import opened Prelude
  import opened ReadyProtocol
  import opened StackModel
  import opened Sync
  import opened DueDates
  import opened Outputs
  import opened UpdateStream
  import opened UpdateController
  import opened ClusterState
  import opened UpdateSteps
  import opened StackController
  import opened Invariants
  import opened UpdateProofs
  import opened StackProofs
  import opened Runs
  import opened Creation
  import opened Effects

  predicate SourceAnswers(st: Stack, i: Input, answer: SourceAnswer) {
    !NeedsNoSource(st, st.status) && i.source == answer
  }

  // The source, the setup and the prerequisites allowed the reconcile to go on to the workspace.
  predicate MayLaunch(st: Stack, i: Input) {
    && (NeedsNoSource(st, st.status) || i.source.Resolved?)
    && i.setup == SetupDone && HasWork(st) && (st.deleted || i.prereq == Satisfied)
  }

  predicate Succeeded(st: Stack) {
    && st.status.lastUpdate.Some?
    && st.status.lastUpdate.value.state == SucceededState && !OutOfTouch(st, st.status.lastUpdate.value)
  }

  predicate FailedTimes(st: Stack, few: bool) {
    && st.status.lastUpdate.Some?
    && st.status.lastUpdate.value.state == FailedState && !OutOfTouch(st, st.status.lastUpdate.value)
    && (st.status.lastUpdate.value.failures < 3 <==> few)
  }

  predicate IsPreview(st: Stack) {
    st.status.lastUpdate.Some? && st.status.lastUpdate.value.typ == PreviewType
  }

  predicate WorkspaceStalls(ws: Option<Workspace>, incompatible: bool) {
    && ws.Some? && ws.value.stalled.Some? && !WorkspaceFits(ws)
    && (ws.value.stalled.value == IncompatibleConfiguration <==> incompatible)
  }

  // What each shape that a reconcile may store gives away; `waiting` says that an Update was outstanding.
  predicate Means(shape: Shape, st: Stack, ws: Option<Workspace>, i: Input, waiting: bool) {
    match shape
    case ShapeReady => !HasWork(st) || (Succeeded(st) && (!st.deleted && st.spec.reclaimDelete ==> ws.None?))
    case ShapeReconciling(StackProcessing) => waiting || MayLaunch(st, i)
    case ShapeReconciling(PrerequisiteNotSatisfied) => !st.deleted && i.prereq == Unsatisfied && i.setup == SetupDone
    case ShapeReconciling(RetryingAfterFailure) => FailedTimes(st, true) && !IsPreview(st)
    case ShapeReconciling(PreviewFailed) => FailedTimes(st, true) && IsPreview(st)
    case ShapeStalled(SpecInvalid) => i.setup == SetupStalled || SourceAnswers(st, i, SourceInvalid)
    case ShapeStalled(SourceUnavailable) => SourceAnswers(st, i, SourceMissing)
    case ShapeStalled(UpdateFailed) => FailedTimes(st, false)
    case ShapeStalled(PulumiVersionTooLow) => MayLaunch(st, i) && WorkspaceStalls(ws, true)
    case ShapeStalled(WorkspaceFailed) => MayLaunch(st, i) && WorkspaceStalls(ws, false)
    case ShapeStalled(NamespaceTerminating) => st.deleted && MayLaunch(st, i) && i.apply == NamespaceIsTerminating
    case _ => false
  }

  // A synced Stack that is not being deleted: when to come back.
  predicate ComesBackAfter(st: Stack, after: int, now: int)
    requires st.status.lastUpdate.Some?
  {
    var next := NextDue(st, st.status.lastUpdate.value);
    && (next.Some? && !TracksBranch(st) ==> after == Max(SECOND, next.value - now))
    && (next.Some? && TracksBranch(st) ==> after == Max(SECOND, Min(Poll(st.spec), next.value - now)))
    && (next.None? && TracksBranch(st) ==> after == Poll(st.spec))
    && (next.None? && !TracksBranch(st) ==> after == 0)
  }

  // A Stack whose destroy failed: until the backoff has passed.
  predicate RetriesDestroyAfter(st: Stack, after: int, now: int) {
    && st.status.lastUpdate.Some?
    && var last := st.status.lastUpdate.value;
      after == Max(SECOND, last.resyncTime + RetryDelay(st.spec, last.failures) - now)
  }

  predicate WakesUp(shape: Shape, st: Stack, after: int, now: int) {
    match shape
    case ShapeStalled(SourceUnavailable) => after == 30 * SECOND
    case ShapeStalled(NamespaceTerminating) => after == 30 * SECOND
    case ShapeReady => st.status.lastUpdate.Some? && ComesBackAfter(st, after, now)
    case ShapeReconciling(RetryingAfterFailure) => Settles(st, after, now)
    case ShapeReconciling(PreviewFailed) => Settles(st, after, now)
    case ShapeStalled(UpdateFailed) => Settles(st, after, now)
    case _ => after == 0
  }

  predicate Settles(st: Stack, after: int, now: int) {
    && st.status.lastUpdate.Some?
    && if st.deleted then RetriesDestroyAfter(st, after, now) else ComesBackAfter(st, after, now)
  }

  // The status of this session was stored, but for conditions and CurrentUpdate.
  predicate Carried(s: Session, st: Stack) {
    && st == s.w.stack.(status := st.status, finalizer := st.finalizer)
    && st.status == s.status.(conditions := st.status.conditions, currentUpdate := st.status.currentUpdate)
  }

  ghost predicate Stored(s: Session, w': Cluster, i: Input, waiting: bool) {
    && Carried(s, w'.stack)
    && var shape := ShapeOf(w'.stack.status.conditions);
      HasShape(w'.stack.status.conditions, shape) && Means(shape, w'.stack, w'.workspace, i, waiting)
  }

  // A Stack marked for deletion goes with its finalizer.
  predicate Exists(st: Stack) {
    st.deleted ==> st.finalizer
  }

  // There is an Update under way, or a workspace that is getting ready, whose change wakes the Stack.
  predicate Awaits(w: Cluster) {
    || w.stack.status.currentUpdate.Some?
    || (w.workspace.Some? && !WorkspaceFits(w.workspace) && w.workspace.value.stalled.None?)
  }

  /**
   How a stage may end: the status is as it was stored before, or stored now with good reason; and if the
   reconcile is at rest, and the Stack still exists, it has been stored and says when to come back.
   */
  ghost predicate Rests(s: Session, i: Input, waiting: bool, end: (Cluster, Result)) {
    && end.0.stack == s.w.stack.(status := end.0.stack.status, finalizer := end.0.stack.finalizer)
    && (end.0.stack.status == s.w.stack.status || Stored(s, end.0, i, waiting))
    && (end.1.Requeue? && Exists(end.0.stack) ==>
          && Stored(s, end.0, i, waiting)
          && (ShapeOf(end.0.stack.status.conditions) == ShapeReconciling(StackProcessing) ==> Awaits(end.0))
          && WakesUp(ShapeOf(end.0.stack.status.conditions), end.0.stack, end.1.after, i.requeuedAt))
  }

  // A session about to be saved under this shape.
  ghost predicate Poised(s: Session, s1: Session, shape: Shape) {
    && s1 == s.(status := s1.status)
    && s1.status == s.status.(conditions := s1.status.conditions)
    && HasShape(s1.status.conditions, shape) && ShapeOf(s1.status.conditions) == shape
  }

  lemma MarksPoise(s: Session, reason: Reason)
    ensures Poised(s, Reconciling(s, reason), ShapeReconciling(reason))
    ensures Poised(s, Stalled(s, reason), ShapeStalled(reason))
    ensures Poised(s, Ready(s), ShapeReady)
  {
    MarkReconcilingShape(s.status.conditions, reason);
    MarkStalledShape(s.status.conditions, reason);
    MarkReadyShape(s.status.conditions);
    ShapeIsUnique(MarkReconciling(s.status.conditions, reason), ShapeReconciling(reason), ShapeReconciling(reason));
    ShapeIsUnique(MarkStalled(s.status.conditions, reason), ShapeStalled(reason), ShapeStalled(reason));
    ShapeIsUnique(MarkReady(s.status.conditions), ShapeReady, ShapeReady);
  }

  lemma SaveRests(s: Session, s1: Session, shape: Shape, i: Input, waiting: bool, ok: bool, after: int)
    requires Poised(s, s1, shape)
    requires var st := s.w.stack.(status := s1.status);
             Means(shape, st, s.w.workspace, i, waiting) && WakesUp(shape, st, after, i.requeuedAt)
    ensures ok ==> Stored(s, Save(s1, ok, i.releaseOk).w, i, waiting)
    ensures (shape == ShapeReconciling(StackProcessing) ==> s1.status.currentUpdate.Some?) ==>
              Rests(s, i, waiting, (Save(s1, ok, i.releaseOk).w, if ok then Requeue(after) else Retry))
    ensures Save(s1, ok, i.releaseOk).w.stack == if ok then s.w.stack.(status := s1.status) else s.w.stack
    ensures Save(s1, ok, i.releaseOk).w.workspace == s.w.workspace
  {}

  /*** The stages ***/

  lemma ResultPoises(s: Session, commit: string, now: int)
    requires s.status.lastUpdate.Some? && !Due(s.w.stack, s.status, commit, now)
    requires s.status.lastUpdate.value.state != UnknownState && HasWork(s.w.stack)
    ensures var s1 := MarkResult(s);
            var shape, st := ShapeOf(s1.status.conditions), s.w.stack.(status := s1.status);
            && Poised(s, s1, shape)
            && (forall ws: Option<Workspace>, i: Input ::
                  (shape == ShapeReady && !st.deleted && st.spec.reclaimDelete ==> ws.None?) ==>
                    Means(shape, st, ws, i, false))
            && (forall after, at ::
                  (if shape == ShapeReady then ComesBackAfter(st, after, at) else Settles(st, after, at)) ==>
                    WakesUp(shape, st, after, at))
            && (s.status.lastUpdate.value.state == SucceededState <==> shape == ShapeReady)
            && shape != ShapeReconciling(StackProcessing)
  {
    MarksPoise(s, UpdateFailed);
    MarksPoise(s, PreviewFailed);
    MarksPoise(s, RetryingAfterFailure);
  }

  lemma ReclaimRests(s: Session, s1: Session, i: Input, after: int)
    requires Poised(s, s1, ShapeReady)
    requires var st := s.w.stack.(status := s1.status);
             Means(ShapeReady, st, None, i, false) && WakesUp(ShapeReady, st, after, i.requeuedAt)
    ensures Rests(s, i, false, ReclaimStage(s1, i, after))
  {
    var released := if s1.pending.Some? then Release(s1.w, s1.pending.value) else s1.w;
    if (s1.pending.Some? ==> i.earlyReleaseOk) && i.deleteWorkspaceOk {
      var s2 := s1.(w := released.(workspace := None), pending := None);
      var s0 := s.(w := s2.w, pending := None);
      SaveRests(s0, s2, ShapeReady, i, false, i.saveOk, after);
    }
  }

  lemma DestroyFailedRests(s: Session, s1: Session, shape: Shape, i: Input)
    requires s.status.lastUpdate.Some? && s.status.lastUpdate.value.state == FailedState
    requires s.w.stack.deleted && shape != ShapeReady
    requires Poised(s, s1, shape) && shape != ShapeReconciling(StackProcessing)
    requires var st := s.w.stack.(status := s1.status);
             Means(shape, st, s.w.workspace, i, false)
             && forall after, at :: Settles(st, after, at) ==> WakesUp(shape, st, after, at)
    ensures var wait := s.status.lastUpdate.value.resyncTime + Cooldown(s.w.stack.spec, s.status.lastUpdate);
            Rests(s, i, false, SaveAndReturn(s1, i, Max(SECOND, wait - i.requeuedAt)))
  {
    var wait := s.status.lastUpdate.value.resyncTime + Cooldown(s.w.stack.spec, s.status.lastUpdate);
    SaveRests(s, s1, shape, i, false, i.saveOk, Max(SECOND, wait - i.requeuedAt));
  }

  lemma DestroyedRests(s: Session, i: Input, commit: string)
    requires s.status.lastUpdate.Some? && !Due(s.w.stack, s.status, commit, i.decidedAt)
    requires s.status.lastUpdate.value.state != UnknownState && HasWork(s.w.stack) && s.w.stack.deleted
    ensures Rests(s, i, false, SyncedStage(s, i))
  {
    var s1 := MarkResult(s);
    ResultPoises(s, commit, i.decidedAt);
    if s.status.lastUpdate.value.state == FailedState {
      DestroyFailedRests(s, s1, ShapeOf(s1.status.conditions), i);
    }
  }

  lemma SyncedRests(s: Session, i: Input, commit: string)
    requires s.status.lastUpdate.Some? && !Due(s.w.stack, s.status, commit, i.decidedAt)
    requires s.status.lastUpdate.value.state != UnknownState && HasWork(s.w.stack)
    ensures Rests(s, i, false, SyncedStage(s, i))
  {
    var st, last := s.w.stack, s.status.lastUpdate.value;
    var s1 := MarkResult(s);
    var shape := ShapeOf(s1.status.conditions);
    ResultPoises(s, commit, i.decidedAt);
    ComesBack(st, s.status, i.requeuedAt);
    var after := RequeueAfter(st, s.status, i.requeuedAt);
    if st.deleted {
      DestroyedRests(s, i, commit);
    } else if last.state != FailedState && st.spec.reclaimDelete {
      ReclaimRests(s, s1, i, after);
    } else {
      SaveRests(s, s1, shape, i, false, i.saveOk, after);
    }
  }

  lemma MarkedRests(s: Session, i: Input, reason: Reason, after: int)
    requires var st := s.w.stack.(status := s.status);
             && Means(ShapeStalled(reason), st, s.w.workspace, i, false)
             && WakesUp(ShapeStalled(reason), st, after, i.requeuedAt)
    requires reason != UpdateFailed
    ensures Rests(s, i, false, SaveAndReturn(Stalled(s, reason), i, after))
    ensures Rests(s, i, false, SaveAgain(Stalled(s, reason), i, after))
  {
    MarksPoise(s, reason);
    SaveRests(s, Stalled(s, reason), ShapeStalled(reason), i, false, i.saveOk, after);
    SaveRests(s, Stalled(s, reason), ShapeStalled(reason), i, false, i.saveAgainOk, after);
  }

  // From here on the status has been stored once.
  lemma CreateRests(s: Session, i: Input, commit: string)
    requires s.unsaved.None? && s.pending.None?
    requires MayLaunch(s.w.stack.(status := s.status), i)
    requires Stored(s, s.w, i, false) && s.w.stack.status.currentUpdate.None?
    requires s.w.stack.status == s.status && ShapeOf(s.status.conditions) == ShapeReconciling(StackProcessing)
    ensures Rests(s, i, false, CreateStage(s, i, commit))
  {
    var c := CurrentUpdate(s.w.stack.generation, s.status.observedRequest, s.w.nextName, commit);
    var status := Reconciling(s, StackProcessing).status.(currentUpdate := Some(c));
    if i.saveAgainOk {
      var s3 := Session(s.w.(nextName := s.w.nextName + 1, stack := s.w.stack.(status := status)), status, None, None);
      assert CreateStage(s, i, commit) == CreateObject(s3, c, i);
      ObjectRests(s3, c, i);
      RestsInProgress(s, i, status, CreateObject(s3, c, i));
    }
  }

  // An end at which the status is still that of an update under way.
  lemma RestsInProgress(s: Session, i: Input, status: StackStatus, end: (Cluster, Result))
    requires MayLaunch(s.w.stack.(status := s.status), i) && s.w.stack.status == s.status
    requires status.conditions == Reconciling(s, StackProcessing).status.conditions
    requires status == s.status.(conditions := status.conditions, currentUpdate := status.currentUpdate)
    requires end.0.stack == s.w.stack.(status := status.(currentUpdate := end.0.stack.status.currentUpdate))
    requires end.1.Requeue? ==> end.1.after == 0 && Awaits(end.0)
    ensures Rests(s, i, false, end)
  {
    MarksPoise(s, StackProcessing);
  }

  lemma ObjectRests(s: Session, c: CurrentUpdate, i: Input)
    requires s.unsaved.None? && s.pending.None? && s.w.stack.status == s.status
    ensures var end := CreateObject(s, c, i);
            && end.0.stack == s.w.stack.(status := end.0.stack.status)
            && end.0.stack.status == s.status.(currentUpdate := end.0.stack.status.currentUpdate)
            && (end.1.Requeue? ==> end.1.after == 0 && end.0.stack.status.currentUpdate == s.status.currentUpdate)
  {
    MeanwhileTouchesOnly(Created(s.w, c, NextType(s.w.stack)), c.name, i.meanwhile);
  }

  lemma RunRests(s: Session, i: Input, commit: string)
    requires s.unsaved.None? && s.pending.None? && s.w.workspace.Some?
    requires MayLaunch(s.w.stack.(status := s.status), i)
    requires Stored(s, s.w, i, false) && s.w.stack.status.currentUpdate.None?
    requires s.w.stack.status == s.status && ShapeOf(s.status.conditions) == ShapeReconciling(StackProcessing)
    ensures Rests(s, i, false, RunStage(s, i, commit))
  {
    if IsWorkspaceReady(s.w.workspace) {
      CreateRests(s, i, commit);
    } else if s.w.workspace.value.stalled.Some? && !(s.w.stack.deleted && s.status.lastUpdate.None?) {
      MarkedRests(s, i, StallReasonOf(s.w.workspace.value.stalled.value), 0);
    }
  }

  // A rest after a first save is a rest of the whole stage.
  lemma RestsAfter(s: Session, s1: Session, i: Input, end: (Cluster, Result))
    requires Rests(s1, i, false, end) && Stored(s, s1.w, i, false)
    requires s1.status == s1.w.stack.status && s1.w.stack == s.w.stack.(status := s1.status)
    requires ShapeOf(s1.status.conditions) == ShapeReconciling(StackProcessing) && MayLaunch(s1.w.stack, i)
    ensures Rests(s, i, false, end)
  {}

  lemma LaunchRests(s: Session, i: Input, commit: string)
    requires MayLaunch(s.w.stack.(status := s.status), i) && s.status.currentUpdate.None?
    ensures Rests(s, i, false, LaunchStage(s, i, commit))
  {
    if i.saveOk {
      var s0 := Reconciling(s, StackProcessing);
      var s1 := Save(s0, true, i.releaseOk);
      MarksPoise(s, StackProcessing);
      SaveRests(s, s0, ShapeReconciling(StackProcessing), i, false, true, 0);
      match i.apply
      case NamespaceIsTerminating => if s.w.stack.deleted { TerminatingRests(s, s1, i); }
      case ApplyBroken =>
      case Applied(changed) => AppliedRests(s, s1, i, commit, changed);
    }
  }

  // The status has been stored as that of an update under way.
  ghost predicate StoredOnce(s: Session, s1: Session, i: Input) {
    && Stored(s, s1.w, i, false) && s1.unsaved.None? && s1.pending.None?
    && s1.status == s1.w.stack.status && s1.w.stack == s.w.stack.(status := s1.status)
    && ShapeOf(s1.status.conditions) == ShapeReconciling(StackProcessing) && MayLaunch(s1.w.stack, i)
    && s1.status.currentUpdate.None?
  }

  lemma TerminatingRests(s: Session, s1: Session, i: Input)
    requires StoredOnce(s, s1, i) && s.w.stack.deleted && i.apply == NamespaceIsTerminating
    ensures Rests(s, i, false, SaveAgain(Stalled(s1, NamespaceTerminating), i, SOURCE_UNAVAILABLE_WAIT))
  {
    MarkedRests(s1, i, NamespaceTerminating, SOURCE_UNAVAILABLE_WAIT);
    RestsAfter(s, s1, i, SaveAgain(Stalled(s1, NamespaceTerminating), i, SOURCE_UNAVAILABLE_WAIT));
  }

  lemma AppliedRests(s: Session, s1: Session, i: Input, commit: string, changed: bool)
    requires StoredOnce(s, s1, i)
    ensures Rests(s, i, false, RunStage(s1.(w := ApplyWorkspace(s1.w, changed)), i, commit))
  {
    var s2 := s1.(w := ApplyWorkspace(s1.w, changed));
    RunRests(s2, i, commit);
    RestsAfter(s, s2, i, RunStage(s2, i, commit));
  }

  lemma PrerequisiteRests(s: Session, i: Input, commit: string)
    requires (NeedsNoSource(s.w.stack, s.status) || i.source.Resolved?) && i.setup == SetupDone && HasWork(s.w.stack)
    requires s.status.currentUpdate.None?
    ensures Rests(s, i, false, PrerequisiteStage(s, i, commit))
  {
    if s.w.stack.deleted || i.prereq == Satisfied {
      LaunchRests(s, i, commit);
    } else if i.prereq == Unsatisfied {
      MarksPoise(s, PrerequisiteNotSatisfied);
      var s1, shape := Reconciling(s, PrerequisiteNotSatisfied), ShapeReconciling(PrerequisiteNotSatisfied);
      SaveRests(s, s1, shape, i, false, i.saveOk, 0);
    }
  }

  // LastUpdate is never in an unknown state.
  predicate Known(status: StackStatus) {
    status.lastUpdate.Some? ==> status.lastUpdate.value.state != UnknownState
  }

  lemma SetupRests(s: Session, i: Input, commit: string)
    requires CommitFits(s.w.stack, s.status, i, commit) && HasWork(s.w.stack)
    requires s.status.currentUpdate.None? && Known(s.status)
    ensures Rests(s, i, false, SetupStage(s, i, commit))
  {
    match i.setup
    case SetupBroken =>
    case SetupStalled => MarkedRests(s, i, SpecInvalid, 0);
    case SetupDone =>
      SyncedUnlessDue(s.w.stack, s.status, commit, i.decidedAt);
      if IsSynced(s.w.stack, s.status, commit, i.decidedAt) {
        SyncedRests(s, i, commit);
      } else {
        PrerequisiteRests(s, i, commit);
      }
  }

  lemma LeaveRests(s: Session, i: Input)
    requires !HasWork(s.w.stack) && i.saveOk
    ensures Rests(s, i, false, DropFinalizer(Save(Ready(s), true, i.releaseOk).w, i))
  {
    MarksPoise(s, SpecInvalid);
  }

  lemma CleanUpRests(s: Session, i: Input)
    requires s.status.currentUpdate.None? && Known(s.status)
    ensures Rests(s, i, false, CleanUpStage(s, i))
  {
    var st := s.w.stack;
    if !HasWork(st) {
      if i.saveOk { LeaveRests(s, i); }
    } else if NeedsNoSource(st, s.status) {
      SetupRests(s, i, "");
    } else {
      match i.source
      case Resolved(commit) => SetupRests(s, i, commit);
      case SourceInvalid => MarkedRests(s, i, SpecInvalid, 0);
      case SourceMissing => MarkedRests(s, i, SourceUnavailable, SOURCE_UNAVAILABLE_WAIT);
      case SourceBroken =>
    }
  }

  /*** The whole reconcile ***/

  // What the status that a reconcile stores tells, in terms of what it read.
  ghost predicate Tells(w: Cluster, i: Input, w': Cluster) {
    var status, shape := w'.stack.status, ShapeOf(w'.stack.status.conditions);
    && status.observedGeneration == w.stack.generation && status.observedRequest == w.stack.request
    && HasShape(status.conditions, shape)
    && Means(shape, w'.stack, w'.workspace, i, w.stack.status.currentUpdate.Some?)
  }

  /**
   A reconcile either leaves the stored status as it was, or it stores one that observes the generation
   and the request it read, and whose condition tells the truth about the Stack, its last update, its
   workspace and the answers it got.  If it comes to rest, and the Stack still exists, it has stored
   such a status, and it comes back just when that status calls for it, or has something to wake it.
   */
  lemma OutcomeTells(w: Cluster, i: Input)
    requires Inv(w)
    ensures var (w', result) := Reconcile(w, i);
            && (w'.stack.status == w.stack.status || Tells(w, i, w'))
            && (result.Requeue? && Exists(w'.stack) ==>
                  && Tells(w, i, w')
                  && (ShapeOf(w'.stack.status.conditions) == ShapeReconciling(StackProcessing) ==> Awaits(w'))
                  && WakesUp(ShapeOf(w'.stack.status.conditions), w'.stack, result.after, i.requeuedAt))
  {
    var s := Observe(EnsureFinalizer(w, i), w.stack);
    if w.stack.status.lastUpdate.Some? { FoldOfLast(w); }
    AbsorbRests(s, i);
  }

  lemma AbsorbRests(s: Session, i: Input)
    requires Known(s.status)
    ensures var (end, status) := (AbsorbStage(s, i), AbsorbStage(s, i).0.stack.status);
            && end.0.stack == s.w.stack.(status := status, finalizer := end.0.stack.finalizer)
            && (status == s.w.stack.status || TellsFor(s, i, end.0))
            && (end.1.Requeue? && Exists(end.0.stack) ==>
                  && TellsFor(s, i, end.0)
                  && (ShapeOf(status.conditions) == ShapeReconciling(StackProcessing) ==> Awaits(end.0))
                  && WakesUp(ShapeOf(status.conditions), end.0.stack, end.1.after, i.requeuedAt))
  {
    match AbsorbCurrent(s, i)
    case Proceed(s') => CleanUpRests(s', i);
    case End(_, _) => WaitRests(s, i);
  }

  ghost predicate TellsFor(s: Session, i: Input, w': Cluster) {
    var status, shape := w'.stack.status, ShapeOf(w'.stack.status.conditions);
    && status.observedGeneration == s.status.observedGeneration && status.observedRequest == s.status.observedRequest
    && HasShape(status.conditions, shape)
    && Means(shape, w'.stack, w'.workspace, i, s.status.currentUpdate.Some?)
  }

  lemma WaitRests(s: Session, i: Input)
    requires AbsorbCurrent(s, i).End?
    ensures var end := AbsorbCurrent(s, i); Rests(s, i, true, (end.w, end.result))
  {
    MarksPoise(s, StackProcessing);
    SaveRests(s, Reconciling(s, StackProcessing), ShapeReconciling(StackProcessing), i, true, i.saveOk, 0);
  }

  /*** When it errs ***/

  // Nothing goes wrong: all is answered, and no write is refused.
  predicate Smooth(w: Cluster, i: Input) {
    && i.addFinalizerOk && i.planOk && i.getUpdateOk && Answered(i)
    && i.saveAgainOk && i.createOk && i.finalizeUpdateOk && i.dropFinalizerOk
    && (i.apply.Applied? || (i.apply == NamespaceIsTerminating && w.stack.deleted))
    && (HasResult(w) ==> Readable(w.updates[w.stack.status.currentUpdate.value.name], i.secret))
  }

  /** A reconcile does not err without cause. */
  lemma SmoothRests(w: Cluster, i: Input)
    requires Smooth(w, i)
    ensures Reconcile(w, i).1.Requeue?
  {
    var s := Observe(EnsureFinalizer(w, i), w.stack);
    match AbsorbCurrent(s, i)
    case Proceed(s') => SmoothGoesOn(s', i);
    case End(_, _) =>
  }

  lemma SmoothGoesOn(s: Session, i: Input)
    requires Answered(i) && i.saveAgainOk && i.createOk && i.finalizeUpdateOk && i.dropFinalizerOk
    requires i.apply.Applied? || (i.apply == NamespaceIsTerminating && s.w.stack.deleted)
    ensures CleanUpStage(s, i).1.Requeue?
  {
    var source := ResolveSource(s.w.stack, s.status, i.source);
    if source.Resolved? && i.setup == SetupDone && !IsSynced(s.w.stack, s.status, source.commit, i.decidedAt) {
      SmoothLaunches(s, i, source.commit);
    }
  }

  lemma SmoothLaunches(s: Session, i: Input, commit: string)
    requires Answered(i) && i.saveAgainOk && i.createOk && i.finalizeUpdateOk && i.dropFinalizerOk
    requires i.apply.Applied? || (i.apply == NamespaceIsTerminating && s.w.stack.deleted)
    ensures LaunchStage(s, i, commit).1.Requeue?
  {}
}
