/**
 What else a reconcile does: it takes over the result of a complete Update, lets go of it, keeps or removes
 the workspace, and lets a deleted Stack go.
 */
module Effects {
  import opened Prelude
  import opened ReadyProtocol
  import opened StackModel
  import opened Sync
  import opened DueDates
  import opened Outputs
  import opened UpdateStream
  import opened UpdateController
  import opened ClusterState
  import opened UpdateSteps
  import opened StackController
  import opened Invariants
  import opened UpdateProofs
  import opened StackProofs
  import opened Runs
  import opened Creation

  /*** The result of an Update ***/

  // The Update that CurrentUpdate names is there and complete.
  predicate HasResult(w: Cluster) {
    w.stack.status.currentUpdate.Some? && NoneOutstanding(w)
  }

  predicate SameAsk(last: LastUpdate, c: CurrentUpdate) {
    last.generation == c.generation && last.request == c.request
  }

  // The LastUpdate that a result amounts to.
  predicate Reflects(last: LastUpdate, before: Option<LastUpdate>, c: CurrentUpdate, u: Update, time: int) {
    && last.generation == c.generation && last.request == c.request && last.name == c.name && last.typ == u.typ
    && last.lastAttemptedCommit == c.commit && last.permalink == u.status.permalink && last.resyncTime == time
    && if u.status.failed == Yes then
         && last.state == FailedState && last.message == u.status.message
         && last.lastSuccessfulCommit == (if before.Some? then before.value.lastSuccessfulCommit else "")
         && last.failures == (if before.Some? && SameAsk(before.value, c) then before.value.failures + 1 else 0)
       else
         && last.state == SucceededState && last.message == ""
         && last.lastSuccessfulCommit == c.commit && last.failures == 0
  }

  // The outputs in the status, as the Secret has them.
  predicate Shows(outputs: Option<map<string, Shown>>, secret: SecretRead) {
    match secret
    case ReadError => false
    case Missing => outputs == Some(map[])
    case Found(s) =>
      && !s.annotation.Unparsable? && outputs.Some? && outputs.value.Keys == s.data.Keys
      && forall k :: k in s.data ==>
           if s.annotation.Names? && k in s.annotation.names then outputs.value[k] == Masked
           else outputs.value[k] == Plain(s.data[k])
  }

  // What the status takes from the result of the Update, and what it keeps.
  predicate TakesOver(before: StackStatus, status: StackStatus, u: Update, i: Input) {
    && before.currentUpdate.Some?
    && status.lastUpdate.Some?
    && Reflects(status.lastUpdate.value, before.lastUpdate, before.currentUpdate.value, u, i.absorbedAt)
    && status.currentUpdate != before.currentUpdate
    && (if u.status.failed != Yes && u.status.outputs then Shows(status.outputs, i.secret)
        else status.outputs == before.outputs)
    && status.projectInfo == (if u.status.failed != Yes && u.status.projectInfo.Some? then u.status.projectInfo
                              else before.projectInfo)
  }

  // A stored status keeps what is known of the last update.
  predicate KeepsResult(before: StackStatus, status: StackStatus) {
    && status.lastUpdate == before.lastUpdate
    && status.outputs == before.outputs && status.projectInfo == before.projectInfo
  }

  // The last of the absorbed Updates is this one, taken at that time.
  predicate Records(absorbed: seq<Absorption>, w: Cluster, time: int)
    requires HasResult(w)
  {
    var c := w.stack.status.currentUpdate.value;
    var u := w.updates[c.name];
    absorbed == w.absorbed + [Absorption(c, u.typ, u.status.failed == Yes, u.status.message, u.status.permalink, time)]
  }

  // A stage that starts from this session files what was absorbed, with the status, or does neither.
  ghost predicate Files(s: Session, i: Input, w': Cluster) {
    if w'.absorbed == s.w.absorbed then s.unsaved.Some? ==> w'.stack.status == s.w.stack.status
    else
      && s.unsaved.Some? && w'.absorbed == s.w.absorbed + [s.unsaved.value]
      && KeepsResult(s.status, w'.stack.status)
      && (w'.stack.status.currentUpdate.None? || w'.stack.status.currentUpdate.value.name == s.w.nextName)
      && (s.pending.Some? && i.releaseOk && i.earlyReleaseOk && s.pending.value != s.w.nextName ==>
            LetGo(w', s.pending.value))
  }

  // Nothing holds the Update any more; if it was marked for deletion, it is gone.
  predicate LetGo(w: Cluster, n: UpdateName) {
    n in w.updates ==> !w.updates[n].finalizer && !w.updates[n].deleted
  }

  lemma SaveFiles(s: Session, i: Input, ok: bool)
    requires s.status.currentUpdate.None?
    ensures Files(s, i, Save(s, ok, i.releaseOk).w)
    ensures ok ==> KeepsResult(s.status, Save(s, ok, i.releaseOk).w.stack.status)
  {}

  // Another start from which the same is filed.
  predicate SameBurden(s: Session, s1: Session) {
    && s1.w.absorbed == s.w.absorbed && s1.w.stack == s.w.stack && s1.w.nextName == s.w.nextName
    && s1.unsaved == s.unsaved && s1.pending == s.pending
    && KeepsResult(s.status, s1.status) && s1.status.currentUpdate == s.status.currentUpdate
  }

  lemma SaveMarkedFiles(s: Session, s1: Session, i: Input, ok: bool)
    requires SameBurden(s, s1) && s.status.currentUpdate.None?
    ensures Files(s, i, Save(s1, ok, i.releaseOk).w)
  {}

  // After the first save nothing more is filed.
  ghost predicate FiledBefore(w: Cluster, w': Cluster) {
    && w'.absorbed == w.absorbed
    && KeepsResult(w.stack.status, w'.stack.status)
    && (w'.stack.status.currentUpdate == w.stack.status.currentUpdate || w'.stack.status.currentUpdate.None?
        || w'.stack.status.currentUpdate.value.name == w.nextName)
    && (forall n :: n in w.executions && LetGo(w, n) ==> LetGo(w', n))
  }

  lemma ObjectFilesNothing(s: Session, c: CurrentUpdate, i: Input)
    requires s.unsaved.None? && s.pending.None? && s.status == s.w.stack.status && s.status.currentUpdate == Some(c)
    ensures var w' := CreateObject(s, c, i).0;
            && w'.absorbed == s.w.absorbed && KeepsResult(s.status, w'.stack.status)
            && (w'.stack.status.currentUpdate == Some(c) || w'.stack.status.currentUpdate.None?)
            && (forall n :: n != c.name && LetGo(s.w, n) ==> LetGo(w', n))
  {
    var w := Created(s.w, c, NextType(s.w.stack));
    MeanwhileTouchesOnly(w, c.name, i.meanwhile);
    forall n | n != c.name && LetGo(s.w, n) ensures LetGo(CreateObject(s, c, i).0, n) {
      assert SameAt(w, Meanwhile(w, c.name, i.meanwhile), n);
    }
  }

  lemma CreateFilesNothing(s: Session, i: Input, commit: string)
    requires s.unsaved.None? && s.pending.None? && s.status == s.w.stack.status && s.status.currentUpdate.None?
    requires Inv(s.w)
    ensures FiledBefore(s.w, CreateStage(s, i, commit).0)
  {
    var c := CurrentUpdate(s.w.stack.generation, s.status.observedRequest, s.w.nextName, commit);
    var status := Reconciling(s, StackProcessing).status.(currentUpdate := Some(c));
    assert NameInv(s.w, c.name);
    if i.saveAgainOk {
      var s3 := Session(s.w.(nextName := s.w.nextName + 1, stack := s.w.stack.(status := status)), status, None, None);
      assert CreateStage(s, i, commit) == CreateObject(s3, c, i);
      ObjectFilesNothing(s3, c, i);
    }
  }

  lemma RunFilesNothing(s: Session, i: Input, commit: string)
    requires s.unsaved.None? && s.pending.None? && s.status == s.w.stack.status && s.status.currentUpdate.None?
    requires s.w.workspace.Some? && Inv(s.w)
    ensures FiledBefore(s.w, RunStage(s, i, commit).0)
  {
    if IsWorkspaceReady(s.w.workspace) {
      CreateFilesNothing(s, i, commit);
    } else {
      StalledFilesNothing(s, i, commit);
    }
  }

  lemma StalledFilesNothing(s: Session, i: Input, commit: string)
    requires s.unsaved.None? && s.pending.None? && s.status == s.w.stack.status && s.status.currentUpdate.None?
    requires s.w.workspace.Some? && !IsWorkspaceReady(s.w.workspace)
    ensures FiledBefore(s.w, RunStage(s, i, commit).0)
  {}

  lemma FiledFirst(s: Session, i: Input, m: Cluster, w': Cluster)
    requires Files(s, i, m) && FiledBefore(m, w') && m.nextName == s.w.nextName && m.executions == s.w.executions
    requires s.unsaved.Some? ==> m.absorbed != s.w.absorbed && (s.pending.Some? ==> s.pending.value in s.w.executions)
    requires m.stack.status.currentUpdate.None?
    ensures Files(s, i, w')
    ensures s.unsaved.None? ==> KeepsResult(m.stack.status, w'.stack.status)
  {}

  // Filed, and the status, if stored, keeps what was taken over.
  ghost predicate Filed(s: Session, i: Input, w': Cluster) {
    && Files(s, i, w')
    && (w'.stack.status == s.w.stack.status || KeepsResult(s.status, w'.stack.status))
  }

  lemma LaunchSaves(s: Session, i: Input)
    requires s.status.currentUpdate.None?
    ensures var s1 := Save(Reconciling(s, StackProcessing), true, i.releaseOk);
            && Files(s, i, s1.w) && s1.unsaved.None? && s1.pending.None? && s1.status == s1.w.stack.status
            && s1.w.nextName == s.w.nextName && s1.w.executions == s.w.executions && s1.status.currentUpdate.None?
            && (s.unsaved.Some? ==> s1.w.absorbed != s.w.absorbed)
            && KeepsResult(s.status, s1.status)
  {}

  lemma LaunchSavesGood(s: Session, i: Input)
    requires Settled(s)
    ensures Inv(Save(Reconciling(s, StackProcessing), true, i.releaseOk).w)
  {
    MarksAreSavable(s, StackProcessing);
    SaveIsGood(Reconciling(s, StackProcessing), true, i.releaseOk);
  }

  lemma PendingIsKnown(s: Session)
    requires SessionInv(s)
    ensures s.pending.Some? ==> s.pending.value in s.w.executions
  {}

  lemma AppliedFiles(s: Session, i: Input, changed: bool, commit: string)
    requires s.unsaved.None? && s.pending.None? && s.status == s.w.stack.status && s.status.currentUpdate.None?
    requires Inv(s.w)
    ensures FiledBefore(s.w, RunStage(s.(w := ApplyWorkspace(s.w, changed)), i, commit).0)
  {
    var s2 := s.(w := ApplyWorkspace(s.w, changed));
    WorkspaceIsFree(s.w, s2.w.workspace);
    RunFilesNothing(s2, i, commit);
  }

  lemma LaunchFilesNothingMore(s: Session, i: Input, commit: string)
    requires Settled(s) && i.saveOk
    ensures FiledBefore(Save(Reconciling(s, StackProcessing), true, i.releaseOk).w, LaunchStage(s, i, commit).0)
  {
    var s1 := Save(Reconciling(s, StackProcessing), true, i.releaseOk);
    LaunchSaves(s, i);
    if i.apply.Applied? {
      LaunchSavesGood(s, i);
      AppliedFiles(s1, i, i.apply.changed, commit);
    }
  }

  lemma LaunchFiled(s: Session, i: Input, w': Cluster)
    requires s.status.currentUpdate.None? && (s.pending.Some? ==> s.pending.value in s.w.executions)
    requires FiledBefore(Save(Reconciling(s, StackProcessing), true, i.releaseOk).w, w')
    ensures Filed(s, i, w')
  {}

  lemma LaunchFiles(s: Session, i: Input, commit: string)
    requires Settled(s)
    ensures Filed(s, i, LaunchStage(s, i, commit).0)
  {
    if i.saveOk {
      LaunchFilesNothingMore(s, i, commit);
      PendingIsKnown(s);
      LaunchFiled(s, i, LaunchStage(s, i, commit).0);
    }
  }

  lemma MarkedFiles(s: Session, reason: Reason, i: Input, after: int)
    requires s.status.currentUpdate.None?
    ensures Filed(s, i, SaveAndReturn(Stalled(s, reason), i, after).0)
    ensures Filed(s, i, SaveAndReturn(Reconciling(s, reason), i, after).0)
  {}

  lemma ReclaimFiles(s: Session, s1: Session, i: Input, after: int)
    requires SameBurden(s, s1) && s.status.currentUpdate.None?
    ensures Filed(s, i, ReclaimStage(s1, i, after).0)
  {}

  lemma SyncedFiles(s: Session, i: Input)
    requires s.status.currentUpdate.None? && s.status.lastUpdate.Some?
    ensures Filed(s, i, SyncedStage(s, i).0)
  {
    var s1 := MarkResult(s);
    SaveMarkedFiles(s, s1, i, i.saveOk);
    if !s.w.stack.deleted { ReclaimFiles(s, s1, i, RequeueAfter(s.w.stack, s.status, i.requeuedAt)); }
  }

  lemma PrerequisiteFiles(s: Session, i: Input, commit: string)
    requires Settled(s)
    ensures Filed(s, i, PrerequisiteStage(s, i, commit).0)
  {
    if s.w.stack.deleted || i.prereq == Satisfied {
      LaunchFiles(s, i, commit);
    } else {
      MarkedFiles(s, PrerequisiteNotSatisfied, i, 0);
    }
  }

  lemma SetupFiles(s: Session, i: Input, commit: string)
    requires Settled(s)
    ensures Filed(s, i, SetupStage(s, i, commit).0)
  {
    match i.setup
    case SetupBroken =>
    case SetupStalled => MarkedFiles(s, SpecInvalid, i, 0);
    case SetupDone =>
      if IsSynced(s.w.stack, s.status, commit, i.decidedAt) {
        SyncedFiles(s, i);
      } else {
        PrerequisiteFiles(s, i, commit);
      }
  }

  lemma LeaveFiles(s: Session, i: Input)
    requires s.status.currentUpdate.None? && i.saveOk
    ensures Filed(s, i, DropFinalizer(Save(Ready(s), true, i.releaseOk).w, i).0)
  {}

  lemma CleanUpFiles(s: Session, i: Input)
    requires Settled(s)
    ensures Filed(s, i, CleanUpStage(s, i).0)
  {
    if s.w.stack.deleted && (!s.w.stack.spec.destroyOnFinalize || s.w.stack.spec.preview) {
      if i.saveOk { LeaveFiles(s, i); }
    } else {
      match ResolveSource(s.w.stack, s.status, i.source)
      case Resolved(commit) => SetupFiles(s, i, commit);
      case SourceInvalid => MarkedFiles(s, SpecInvalid, i, 0);
      case SourceMissing => MarkedFiles(s, SourceUnavailable, i, SOURCE_UNAVAILABLE_WAIT);
      case SourceBroken =>
    }
  }

  // What becomes of the result of the outstanding Update in a reconcile that goes on.
  predicate ResultTaken(w: Cluster, i: Input, w': Cluster) {
    && HasResult(w)
    && Records(w'.absorbed, w, i.absorbedAt)
    && TakesOver(w.stack.status, w'.stack.status, w.updates[w.stack.status.currentUpdate.value.name], i)
    && (i.releaseOk && i.earlyReleaseOk ==> LetGo(w', w.stack.status.currentUpdate.value.name))
  }

  // Nothing of a result is stored, and the Update, if any, stays the current one.
  predicate NothingTaken(w: Cluster, w': Cluster) {
    && KeepsResult(w.stack.status, w'.stack.status)
    && (w.stack.status.currentUpdate.Some? ==> w'.stack.status.currentUpdate == w.stack.status.currentUpdate)
    && (HasResult(w) ==> w'.stack.status == w.stack.status)
  }

  // The session as it is once the result, if any, has been taken over locally.
  predicate Holds(w: Cluster, i: Input, s: Session) {
    && s.w.stack.status == w.stack.status && s.w.absorbed == w.absorbed && s.w.nextName == w.nextName
    && if w.stack.status.currentUpdate.Some? then
         && HasResult(w)
         && var c := w.stack.status.currentUpdate.value;
           var u := w.updates[c.name];
           && s.unsaved == Some(Absorption(c, u.typ, u.status.failed == Yes, u.status.message, u.status.permalink,
                                           i.absorbedAt))
           && s.pending == Some(c.name) && c.name != w.nextName
           && TakesOver(w.stack.status, s.status, u, i)
       else s.unsaved.None? && KeepsResult(w.stack.status, s.status)
  }

  lemma ProceedHolds(w: Cluster, i: Input)
    requires Inv(w)
    ensures var step := AbsorbCurrent(Observe(EnsureFinalizer(w, i), w.stack), i);
            if step.Proceed? then Holds(w, i, step.s)
            else step.w.absorbed == w.absorbed && NothingTaken(w, step.w)
  {}

  lemma FiledIsTaken(w: Cluster, i: Input, s: Session, w': Cluster)
    requires Holds(w, i, s) && Filed(s, i, w')
    ensures if w'.absorbed == w.absorbed then NothingTaken(w, w') else ResultTaken(w, i, w')
  {}

  /**
   A reconcile takes over the result of the current Update if that is complete, once, and together with the
   status: the history grows by just this result, with the time at which it was taken; LastUpdate,
   outputs and project info say what the Update does, and the Update is let go of.  Or it stores nothing
   of it, and then the Update stays the current one.
   */
  lemma ResultIsTakenOver(w: Cluster, i: Input)
    requires Inv(w)
    ensures var w' := Reconcile(w, i).0;
            if w'.absorbed == w.absorbed then NothingTaken(w, w') else ResultTaken(w, i, w')
  {
    var s := Observe(EnsureFinalizer(w, i), w.stack);
    if (w.stack.finalizer || (!w.stack.deleted && i.addFinalizerOk)) && i.planOk {
      if !w.stack.deleted { FinalizerKeepsInv(w, i); }
      AbsorbIsGood(s, i);
      ProceedHolds(w, i);
      match AbsorbCurrent(s, i)
      case Proceed(s') =>
        CleanUpFiles(s', i);
        FiledIsTaken(w, i, s', CleanUpStage(s', i).0);
      case End(_, _) =>
    }
  }

  // Every question is answered, though perhaps in the negative, and the writes are accepted.
  predicate Answered(i: Input) {
    && i.source != SourceBroken && i.setup != SetupBroken && i.prereq != PrereqBroken
    && i.saveOk && i.earlyReleaseOk && i.deleteWorkspaceOk
  }

  lemma SaveStores(s: Session, i: Input)
    requires s.unsaved.Some? && i.saveOk
    ensures Save(s, i.saveOk, i.releaseOk).w.absorbed != s.w.absorbed
  {}

  lemma SyncedStores(s: Session, i: Input)
    requires s.status.lastUpdate.Some? && s.unsaved.Some? && Answered(i)
    ensures SyncedStage(s, i).0.absorbed != s.w.absorbed
  {
    var s1 := MarkResult(s);
    SaveStores(s1, i);
    var released := if s1.pending.Some? then Release(s1.w, s1.pending.value) else s1.w;
    SaveStores(s1.(w := released.(workspace := None), pending := None), i);
  }

  lemma LaunchStores(s: Session, i: Input, commit: string)
    requires Settled(s) && s.unsaved.Some? && Answered(i)
    ensures LaunchStage(s, i, commit).0.absorbed != s.w.absorbed
  {
    LaunchSaves(s, i);
    LaunchFilesNothingMore(s, i, commit);
  }

  lemma CleanUpStores(s: Session, i: Input)
    requires Settled(s) && s.unsaved.Some? && Answered(i)
    ensures CleanUpStage(s, i).0.absorbed != s.w.absorbed
  {
    var source := ResolveSource(s.w.stack, s.status, i.source);
    SaveStores(Ready(s), i);
    SaveStores(Stalled(s, SpecInvalid), i);
    SaveStores(Stalled(s, SourceUnavailable), i);
    if source.Resolved? && i.setup == SetupDone {
      if IsSynced(s.w.stack, s.status, source.commit, i.decidedAt) {
        SyncedStores(s, i);
      } else {
        SaveStores(Reconciling(s, PrerequisiteNotSatisfied), i);
        LaunchStores(s, i, source.commit);
      }
    }
  }

  // The outputs of the Update can be shown, if there are any to show.
  predicate Readable(u: Update, secret: SecretRead) {
    u.status.failed != Yes && u.status.outputs ==>
      secret != ReadError && (secret.Found? ==> !secret.secret.annotation.Unparsable?)
  }

  /**
   A result does not wait for long: the first reconcile that can read it, and whose questions are answered and
   writes accepted, takes it over, whatever else comes of it.
   */
  lemma ResultIsNotLeft(w: Cluster, i: Input)
    requires Inv(w) && HasResult(w) && Answered(i) && i.planOk && i.getUpdateOk
    requires w.stack.finalizer && Readable(w.updates[w.stack.status.currentUpdate.value.name], i.secret)
    ensures ResultTaken(w, i, Reconcile(w, i).0)
  {
    var s := Observe(w, w.stack);
    AbsorbIsGood(s, i);
    assert AbsorbCurrent(s, i).Proceed?;
    CleanUpStores(AbsorbCurrent(s, i).s, i);
    ResultIsTakenOver(w, i);
  }

  /*** The workspace ***/

  // The last update, as the session knows it, succeeded, and its workspace is to go then.
  predicate MayReclaim(st: Stack, status: StackStatus) {
    && !st.deleted && st.spec.reclaimDelete
    && status.lastUpdate.Some? && status.lastUpdate.value.state != FailedState
  }

  predicate WorkspaceFate(s: Session, i: Input, w': Cluster) {
    || w'.workspace == s.w.workspace
    || (w'.workspace.None? && MayReclaim(s.w.stack, s.status) && i.deleteWorkspaceOk
        && (s.pending.Some? ==> LetGo(w', s.pending.value)))
    || (i.apply.Applied? && i.setup == SetupDone && (s.w.stack.deleted || i.prereq == Satisfied) && i.saveOk
        && Applies(s.w.workspace, w'.workspace, i.apply.changed))
  }

  lemma SaveKeepsWorkspace(s: Session, ok: bool, releaseOk: bool)
    ensures Save(s, ok, releaseOk).w.workspace == s.w.workspace
  {}

  lemma CreateKeepsWorkspace(s: Session, i: Input, commit: string)
    requires s.unsaved.None? && s.pending.None?
    ensures CreateStage(s, i, commit).0.workspace == s.w.workspace
  {
    var c := CurrentUpdate(s.w.stack.generation, s.status.observedRequest, s.w.nextName, commit);
    var status := Reconciling(s, StackProcessing).status.(currentUpdate := Some(c));
    if i.saveAgainOk {
      var s3 := Session(s.w.(nextName := s.w.nextName + 1, stack := s.w.stack.(status := status)), status, None, None);
      assert CreateStage(s, i, commit) == CreateObject(s3, c, i);
      MeanwhileTouchesOnly(Created(s3.w, c, NextType(s3.w.stack)), c.name, i.meanwhile);
    }
  }

  lemma LaunchFate(s: Session, i: Input, commit: string)
    requires i.setup == SetupDone && (s.w.stack.deleted || i.prereq == Satisfied)
    ensures WorkspaceFate(s, i, LaunchStage(s, i, commit).0)
  {
    if i.saveOk && i.apply.Applied? {
      var s1 := Save(Reconciling(s, StackProcessing), true, i.releaseOk);
      SaveKeepsWorkspace(Reconciling(s, StackProcessing), true, i.releaseOk);
      RunKeepsWorkspace(s1.(w := ApplyWorkspace(s1.w, i.apply.changed)), i, commit);
    }
  }

  lemma RunKeepsWorkspace(s: Session, i: Input, commit: string)
    requires s.unsaved.None? && s.pending.None? && s.w.workspace.Some?
    ensures RunStage(s, i, commit).0.workspace == s.w.workspace
  {
    if IsWorkspaceReady(s.w.workspace) { CreateKeepsWorkspace(s, i, commit); }
  }

  lemma SyncedFate(s: Session, i: Input)
    requires s.status.lastUpdate.Some?
    ensures WorkspaceFate(s, i, SyncedStage(s, i).0)
  {
    SaveKeepsWorkspace(MarkResult(s), i.saveOk, i.releaseOk);
    ReclaimLetsGo(MarkResult(s), i, RequeueAfter(s.w.stack, s.status, i.requeuedAt));
  }

  lemma ReclaimLetsGo(s: Session, i: Input, after: int)
    ensures var w' := ReclaimStage(s, i, after).0;
            || w'.workspace == s.w.workspace
            || (w'.workspace.None? && i.deleteWorkspaceOk && (s.pending.Some? ==> LetGo(w', s.pending.value)))
  {}

  lemma SetupFate(s: Session, i: Input, commit: string)
    ensures WorkspaceFate(s, i, SetupStage(s, i, commit).0)
  {
    if i.setup == SetupDone {
      if IsSynced(s.w.stack, s.status, commit, i.decidedAt) {
        SyncedFate(s, i);
      } else if s.w.stack.deleted || i.prereq == Satisfied {
        LaunchFate(s, i, commit);
      }
    }
  }

  lemma CleanUpFate(s: Session, i: Input)
    ensures WorkspaceFate(s, i, CleanUpStage(s, i).0)
  {
    var source := ResolveSource(s.w.stack, s.status, i.source);
    if source.Resolved? { SetupFate(s, i, source.commit); }
  }

  // The last update succeeded, by the status or by the result that waits to be taken over.
  predicate LastSucceeded(w: Cluster) {
    if HasResult(w) then w.updates[w.stack.status.currentUpdate.value.name].status.failed != Yes
    else w.stack.status.lastUpdate.Some? && w.stack.status.lastUpdate.value.state != FailedState
  }

  // Its finalizer can no longer hold the Update whose result waits to be taken over.
  predicate ResultLetGo(w: Cluster, w': Cluster) {
    HasResult(w) ==> LetGo(w', w.stack.status.currentUpdate.value.name)
  }

  /**
   The workspace goes only after a success of a Stack that is not being deleted and reclaims it, and not before
   the Update that succeeded has been let go of; it is created or updated only where an update is on its
   way; else a reconcile leaves it alone.
   */
  lemma WorkspaceGoesOnlyIfReclaimed(w: Cluster, i: Input)
    ensures var w' := Reconcile(w, i).0;
            || w'.workspace == w.workspace
            || (w'.workspace.None? && !w.stack.deleted && w.stack.spec.reclaimDelete && LastSucceeded(w)
                && i.deleteWorkspaceOk && ResultLetGo(w, w'))
            || (i.apply.Applied? && i.setup == SetupDone && (w.stack.deleted || i.prereq == Satisfied) && i.saveOk
                && Applies(w.workspace, w'.workspace, i.apply.changed))
  {
    var s := Observe(EnsureFinalizer(w, i), w.stack);
    match AbsorbCurrent(s, i)
    case Proceed(s') => CleanUpFate(s', i);
    case End(_, _) =>
  }

  /*** Letting the Stack go ***/

  // Its last update was the destroy that is asked for.
  predicate IsDestroyed(w: Cluster) {
    && w.stack.status.lastUpdate.Some?
    && var last := w.stack.status.lastUpdate.value;
      last.typ == DestroyType && last.state == SucceededState && !OutOfTouch(w.stack, last)
  }

  /**
   A deleted Stack does get away: once it has nothing to destroy, or its destroy has succeeded, the next
   reconcile whose writes are not refused takes its finalizer off.
   */
  lemma DoneIsReleased(w: Cluster, i: Input)
    requires w.stack.deleted && w.stack.finalizer && w.stack.status.currentUpdate.None? && i.planOk && i.dropFinalizerOk
    requires || (!HasWork(w.stack) && i.saveOk)
             || (HasWork(w.stack) && IsDestroyed(w) && i.setup == SetupDone
                 && (NeedsNoSource(w.stack, w.stack.status) || i.source.Resolved?))
    ensures !Reconcile(w, i).0.stack.finalizer && Reconcile(w, i).1 == Requeue(0)
  {}

  /** So does one for which no update was ever recorded, if its workspace is stalled. */
  lemma UntriedIsReleased(w: Cluster, i: Input)
    requires w.stack.deleted && w.stack.finalizer && HasWork(w.stack)
    requires w.stack.status.currentUpdate.None? && w.stack.status.lastUpdate.None?
    requires i.planOk && i.setup == SetupDone && i.saveOk && i.dropFinalizerOk && i.apply == Applied(false)
    requires NeedsNoSource(w.stack, w.stack.status) || i.source.Resolved?
    requires w.workspace.Some? && w.workspace.value.stalled.Some? && !WorkspaceFits(w.workspace)
    ensures !Reconcile(w, i).0.stack.finalizer && Reconcile(w, i).1 == Requeue(0)
  {}
}
