/**
 When a reconcile creates an Update, and what kind of Update: said of the stored objects and of the
 answers the reconcile got.
 */
module Creation {
  import opened Prelude
  import opened ReadyProtocol
  import opened StackModel
  import opened Sync
  import opened DueDates
  import opened Outputs
  import opened UpdateStream
  import opened UpdateController
  import opened ClusterState
  import opened UpdateSteps
  import opened StackController
  import opened Invariants
  import opened UpdateProofs
  import opened StackProofs
  import opened Runs

  // A destroy for a Stack being deleted, a preview for one that only previews, else an up.
  predicate TypeFits(st: Stack, typ: UpdateType) {
    && (typ == DestroyType <==> st.deleted)
    && (typ == PreviewType <==> !st.deleted && st.spec.preview)
    && (typ == UpType <==> !st.deleted && !st.spec.preview)
  }

  predicate WorkspaceFits(ws: Option<Workspace>) {
    ws.Some? && !ws.value.deleted && ws.value.ready && ws.value.generation == ws.value.observedGeneration
  }

  // Creating or updating the workspace: a new one is not ready, a changed one has a new generation.
  predicate Applies(ws: Option<Workspace>, ws': Option<Workspace>, changed: bool) {
    && ws'.Some?
    && match ws
       case None => ws'.value == Workspace(1, 0, false, false, None)
       case Some(was) => ws'.value == was.(generation := was.generation + if changed then 1 else 0)
  }

  // A Stack without a source, or one to be destroyed whose project is known, needs no source.
  predicate NeedsNoSource(st: Stack, status: StackStatus) {
    || st.spec.source.NoSource?
    || (st.deleted && st.spec.destroyOnFinalize && !st.spec.preview && !st.spec.runProgram && status.projectInfo.Some?)
  }

  // The commit an update is made for.
  predicate CommitFits(st: Stack, status: StackStatus, i: Input, commit: string) {
    if NeedsNoSource(st, status) then commit == "" else i.source == Resolved(commit)
  }

  // Nothing to destroy is left to its finalizer.
  predicate HasWork(st: Stack) {
    st.deleted ==> st.spec.destroyOnFinalize && !st.spec.preview
  }

  // Nobody has begun with the Update.
  predicate IsNew(u: Update) {
    u.generation == 1 && u.observedGeneration == 0 && u.status == FRESH && !u.deleted && !u.orphaned
  }

  // What becomes of the new Update n and of CurrentUpdate.
  predicate Recorded(w': Cluster, n: UpdateName, c: CurrentUpdate, i: Input) {
    var current := w'.stack.status.currentUpdate;
    if i.finalizeUpdateOk then
      current == Some(c) && n in w'.updates && w'.updates[n].finalizer && (i.meanwhile == [] ==> IsNew(w'.updates[n]))
    else (current == if i.saveUndoOk then None else Some(c)) && (n in w'.updates <==> !i.deleteUpdateOk)
  }

  // What is in the history was there before, or is the Update just created.
  ghost predicate AddsOnly(w: Cluster, w': Cluster, n: UpdateName) {
    forall m :: m in w'.executions ==> m in w.executions || (m == n && w'.created != w.created)
  }

  // A stage that starts from this session creates at most one Update, the right one and for good reason.
  ghost predicate CreatesWell(s: Session, i: Input, commit: string, w': Cluster) {
    && AddsOnly(s.w, w', s.w.nextName)
    && (w'.created != s.w.created ==>
      var n := s.w.nextName;
      var c := CurrentUpdate(s.w.stack.generation, s.status.observedRequest, n, commit);
      && w'.created == s.w.created + 1
      && n in w'.executions && w'.executions[n].origin == c
      && TypeFits(w'.stack, w'.executions[n].typ)
      && WorkspaceFits(w'.workspace)
      && Recorded(w', n, c, i)
      && w'.stack == s.w.stack.(status := w'.stack.status)
      && w'.stack.status.lastUpdate == s.status.lastUpdate && w'.stack.status.projectInfo == s.status.projectInfo
      && i.saveOk && i.saveAgainOk && i.createOk && i.apply.Applied?)
  }

  lemma CreatedWell(s: Session, c: CurrentUpdate, i: Input)
    requires s.pending.None? && s.unsaved.None? && s.status.currentUpdate == Some(c) && s.w.stack.status == s.status
    ensures AddsOnly(s.w, CreateObject(s, c, i).0, c.name)
    ensures var w' := CreateObject(s, c, i).0;
            if !i.createOk then w'.created == s.w.created
            else && w'.created == s.w.created + 1
                 && c.name in w'.executions && w'.executions[c.name].origin == c
                 && TypeFits(w'.stack, w'.executions[c.name].typ)
                 && Recorded(w', c.name, c, i)
                 && w'.workspace == s.w.workspace && w'.stack == s.w.stack.(status := w'.stack.status)
                 && w'.stack.status == s.status.(currentUpdate := w'.stack.status.currentUpdate)
  {
    var w := Created(s.w, c, NextType(s.w.stack));
    MeanwhileTouchesOnly(w, c.name, i.meanwhile);
    forall m | m in Meanwhile(w, c.name, i.meanwhile).executions && m != c.name ensures m in s.w.executions {
      assert SameAt(w, Meanwhile(w, c.name, i.meanwhile), m);
    }
  }

  lemma CreateStageWell(s: Session, i: Input, commit: string)
    requires s.pending.None? && s.unsaved.None? && WorkspaceFits(s.w.workspace) && i.saveOk && i.apply.Applied?
    ensures var w' := CreateStage(s, i, commit).0;
            CreatesWell(s, i, commit, w') && (w'.created != s.w.created ==> w'.workspace == s.w.workspace)
  {
    var c := CurrentUpdate(s.w.stack.generation, s.status.observedRequest, s.w.nextName, commit);
    var status := Reconciling(s, StackProcessing).status.(currentUpdate := Some(c));
    if i.saveAgainOk {
      var s3 := Session(s.w.(nextName := s.w.nextName + 1, stack := s.w.stack.(status := status)), status, None, None);
      assert CreateStage(s, i, commit) == CreateObject(s3, c, i);
      CreatedWell(s3, c, i);
    }
  }

  lemma RunStageWell(s: Session, i: Input, commit: string)
    requires s.pending.None? && s.unsaved.None? && s.w.workspace.Some? && i.saveOk && i.apply.Applied?
    ensures var w' := RunStage(s, i, commit).0;
            CreatesWell(s, i, commit, w') && (w'.created != s.w.created ==> w'.workspace == s.w.workspace)
  {
    if IsWorkspaceReady(s.w.workspace) { CreateStageWell(s, i, commit); }
  }

  lemma LaunchStageWell(s: Session, i: Input, commit: string)
    ensures CreatesWell(s, i, commit, LaunchStage(s, i, commit).0)
    ensures var w' := LaunchStage(s, i, commit).0;
            w'.created != s.w.created ==> Applies(s.w.workspace, w'.workspace, i.apply.changed)
  {
    if i.saveOk && i.apply.Applied? {
      var s1 := Save(Reconciling(s, StackProcessing), true, i.releaseOk);
      ApplyApplies(s.w, s1.w, i.apply.changed);
      RunStageWell(s1.(w := ApplyWorkspace(s1.w, i.apply.changed)), i, commit);
    }
  }

  lemma ApplyApplies(w: Cluster, w1: Cluster, changed: bool)
    requires w1.workspace == w.workspace
    ensures Applies(w.workspace, ApplyWorkspace(w1, changed).workspace, changed)
  {}

  // Where a reconcile starts from once the outstanding Update, if any, has been absorbed.
  ghost predicate Started(s: Session, i: Input, w': Cluster) {
    && AddsOnly(s.w, w', s.w.nextName)
    && (w'.created != s.w.created ==> exists commit :: StartedFor(s, i, w', commit))
  }

  ghost predicate StartedFor(s: Session, i: Input, w': Cluster, commit: string) {
    && CommitFits(s.w.stack, s.status, i, commit)
    && CreatesWell(s, i, commit, w')
    && i.apply.Applied? && Applies(s.w.workspace, w'.workspace, i.apply.changed)
    && Due(s.w.stack, s.status, commit, i.decidedAt)
    && HasWork(s.w.stack) && i.setup == SetupDone
    && (s.w.stack.deleted || i.prereq == Satisfied)
  }

  lemma SyncedCreatesNone(s: Session, i: Input)
    requires s.status.lastUpdate.Some?
    ensures SyncedStage(s, i).0.created == s.w.created && SyncedStage(s, i).0.executions == s.w.executions
  {
    var s1 := MarkResult(s);
    SaveCreatesNone(s1, i.saveOk, i.releaseOk);
    ReclaimCreatesNone(s1, i, RequeueAfter(s.w.stack, s.status, i.requeuedAt));
  }

  lemma SaveCreatesNone(s: Session, ok: bool, releaseOk: bool)
    ensures Save(s, ok, releaseOk).w.created == s.w.created && Save(s, ok, releaseOk).w.executions == s.w.executions
  {}

  lemma ReclaimCreatesNone(s: Session, i: Input, after: int)
    ensures var w' := ReclaimStage(s, i, after).0; w'.created == s.w.created && w'.executions == s.w.executions
  {}

  lemma SetupStageWell(s: Session, i: Input, commit: string)
    requires CommitFits(s.w.stack, s.status, i, commit) && HasWork(s.w.stack)
    ensures Started(s, i, SetupStage(s, i, commit).0)
  {
    SyncedUnlessDue(s.w.stack, s.status, commit, i.decidedAt);
    if IsSynced(s.w.stack, s.status, commit, i.decidedAt) {
      SyncedCreatesNone(s, i);
    } else if i.setup == SetupDone && (s.w.stack.deleted || i.prereq == Satisfied) {
      LaunchStageWell(s, i, commit);
      var w' := LaunchStage(s, i, commit).0;
      assert StartedFor(s, i, w', commit) || w'.created == s.w.created;
    }
  }

  lemma CleanUpStageWell(s: Session, i: Input)
    ensures Started(s, i, CleanUpStage(s, i).0)
  {
    var source := ResolveSource(s.w.stack, s.status, i.source);
    if source.Resolved? && HasWork(s.w.stack) { SetupStageWell(s, i, source.commit); }
  }

  // The outstanding Update, if there is one, is complete.
  predicate NoneOutstanding(w: Cluster) {
    var c := w.stack.status.currentUpdate;
    c.None? || (c.value.name in w.updates
                && w.updates[c.value.name].status.complete == Yes
                && w.updates[c.value.name].generation == w.updates[c.value.name].observedGeneration)
  }

  // Why, and what, a reconcile may create.
  predicate CreationFits(w: Cluster, i: Input, w': Cluster) {
    && w'.created == w.created + 1
    && NoneOutstanding(w) && w'.stack.finalizer && HasWork(w'.stack)
    && i.planOk && i.setup == SetupDone && i.saveOk && i.saveAgainOk && i.createOk && i.apply.Applied?
    && (w.stack.deleted || i.prereq == Satisfied)
    && WorkspaceFits(w'.workspace) && Applies(w.workspace, w'.workspace, i.apply.changed)
    && w.nextName in w'.executions
    && var e := w'.executions[w.nextName];
      && TypeFits(w'.stack, e.typ)
      && e.origin.generation == w'.stack.generation && e.origin.request == w.stack.request
      && e.origin.name == w.nextName
      && CommitFits(w'.stack, w'.stack.status, i, e.origin.commit)
      && Due(w'.stack, w'.stack.status, e.origin.commit, i.decidedAt)
      && Recorded(w', w.nextName, e.origin, i)
  }

  /**
   If a reconcile creates an Update, then just one, and only because one is due: none is outstanding, the
   Stack has its finalizer and still something to do, its prerequisites are satisfied, and its workspace
   is up to date and ready at its present generation.  The Update is of the type that the Stack asks for, it is made for
   the present generation and request and the commit of the source, and CurrentUpdate records it.
   */
  lemma CreationIsDue(w: Cluster, i: Input)
    ensures Reconcile(w, i).0.created != w.created ==> CreationFits(w, i, Reconcile(w, i).0)
    ensures AddsOnly(w, Reconcile(w, i).0, w.nextName)
  {
    var s := Observe(EnsureFinalizer(w, i), w.stack);
    match AbsorbCurrent(s, i)
    case Proceed(s') =>
      CleanUpStageWell(s', i);
      if i.planOk && (w.stack.finalizer || (!w.stack.deleted && i.addFinalizerOk)) {
        StartFits(w, i, s', CleanUpStage(s', i).0);
      }
    case End(_, _) =>
  }

  lemma StartFits(w: Cluster, i: Input, s: Session, w': Cluster)
    requires Started(s, i, w') && i.planOk && s.w == EnsureFinalizer(w, i) && s.w.stack.finalizer
    requires s.status.observedRequest == w.stack.request && NoneOutstanding(w)
    ensures w'.created != w.created ==> CreationFits(w, i, w')
    ensures AddsOnly(w, w', w.nextName)
  {}

  /*** A Stack that only previews ***/

  ghost predicate AllPreviews(w: Cluster) {
    forall n :: n in w.executions ==> w.executions[n].typ == PreviewType
  }

  lemma ReconcilePreviews(w: Cluster, i: Input)
    requires Inv(w) && w.stack.spec.preview && AllPreviews(w)
    ensures AllPreviews(Reconcile(w, i).0)
  {
    CreationIsDue(w, i);
    ReconcileIsGood(w, i);
    OldOrPreview(w, i, Reconcile(w, i).0);
  }

  lemma OldOrPreview(w: Cluster, i: Input, w': Cluster)
    requires w.stack.spec.preview && AllPreviews(w) && GoodReconcile(w, w') && AddsOnly(w, w', w.nextName)
    requires w'.created != w.created ==> CreationFits(w, i, w')
    ensures AllPreviews(w')
  {
    forall n | n in w'.executions ensures w'.executions[n].typ == PreviewType { assert Untouched(w, w', n); }
  }

  lemma OthersKeepTypes(w: Cluster, e: Event)
    requires !e.StackReconcile? && AllPreviews(w)
    ensures AllPreviews(Next(w, e))
  {}

  lemma StepPreviews(w: Cluster, w': Cluster)
    requires Inv(w) && LeadsTo(w, w') && w.stack.spec.preview && AllPreviews(w)
    ensures AllPreviews(w')
  {
    var e :| w' == Next(w, e);
    if e.StackReconcile? { ReconcilePreviews(w, e.i); } else { OthersKeepTypes(w, e); }
  }

  /** As long as a Stack only previews, none of its Updates is of any other type, however the run goes. */
  lemma {:induction false} PreviewsOnly(t: seq<Cluster>, k: nat)
    requires IsRun(t) && k < |t|
    requires forall j :: 0 <= j < k ==> t[j].stack.spec.preview
    ensures AllPreviews(t[k])
  {
    if k > 0 {
      PreviewsOnly(t, k - 1);
      RunInv(t, k - 1);
      assert StepAt(t, k - 1);
      StepPreviews(t[k - 1], t[k]);
    }
  }

  /*** The other way: what is due is done ***/

  // Everything a reconcile needs is there, and no write is refused.
  predicate Unhindered(w: Cluster, i: Input, commit: string) {
    && w.stack.finalizer && w.stack.status.currentUpdate.None? && HasWork(w.stack)
    && CommitFits(w.stack, w.stack.status, i, commit)
    && i.planOk && i.setup == SetupDone && (w.stack.deleted || i.prereq == Satisfied)
    && WorkspaceFits(w.workspace) && i.apply == Applied(false)
    && i.saveOk && i.saveAgainOk && i.createOk
  }

  /** If nothing hinders it, a reconcile creates an Update exactly when one is due. */
  lemma CreatesWhenDue(w: Cluster, i: Input, commit: string)
    requires Unhindered(w, i, commit)
    ensures Reconcile(w, i).0.created == w.created + 1 <==> Due(w.stack, w.stack.status, commit, i.decidedAt)
    ensures Reconcile(w, i).0.created == w.created <==> !Due(w.stack, w.stack.status, commit, i.decidedAt)
  {
    var s := Observe(w, w.stack);
    SyncedUnlessDue(w.stack, s.status, commit, i.decidedAt);
    assert Reconcile(w, i) == SetupStage(s, i, commit);
    if Due(w.stack, s.status, commit, i.decidedAt) {
      assert SetupStage(s, i, commit) == LaunchStage(s, i, commit);
      LaunchCreates(s, i, commit);
    } else {
      SyncedCreatesNone(s, i);
    }
  }

  lemma LaunchCreates(s: Session, i: Input, commit: string)
    requires s.unsaved.None? && s.pending.None? && WorkspaceFits(s.w.workspace) && i.apply == Applied(false)
    requires i.saveOk && i.saveAgainOk && i.createOk
    ensures LaunchStage(s, i, commit).0.created == s.w.created + 1
  {
    var s1 := Save(Reconciling(s, StackProcessing), true, i.releaseOk);
    assert LaunchStage(s, i, commit) == CreateStage(s1, i, commit);
    var c := CurrentUpdate(s1.w.stack.generation, s1.status.observedRequest, s1.w.nextName, commit);
    var status := Reconciling(s1, StackProcessing).status.(currentUpdate := Some(c));
    var s3 := Session(s1.w.(nextName := s1.w.nextName + 1, stack := s1.w.stack.(status := status)), status, None, None);
    assert CreateStage(s1, i, commit) == CreateObject(s3, c, i);
    CreatedWell(s3, c, i);
  }

  /*** Announcements ***/

  // The commit that the reconcile works with.
  function CommitOf(st: Stack, status: StackStatus, i: Input): string {
    if NeedsNoSource(st, status) then "" else if i.source.Resolved? then i.source.commit else ""
  }

  // A CurrentUpdate was stored that was not there before.
  predicate Announces(w: Cluster, w': Cluster) {
    w'.stack.status.currentUpdate.Some? && w'.stack.status.currentUpdate != w.stack.status.currentUpdate
  }

  predicate AnnouncesOnly(s: Session, w': Cluster) {
    Announces(s.w, w') ==>
      && w'.stack == s.w.stack.(status := w'.stack.status)
      && w'.stack.status.lastUpdate == s.status.lastUpdate && w'.stack.status.projectInfo == s.status.projectInfo
  }

  lemma CreateAnnounces(s: Session, i: Input, commit: string)
    requires s.pending.None? && s.unsaved.None? && s.status == s.w.stack.status
    ensures AnnouncesOnly(s, CreateStage(s, i, commit).0)
  {
    var c := CurrentUpdate(s.w.stack.generation, s.status.observedRequest, s.w.nextName, commit);
    var status := Reconciling(s, StackProcessing).status.(currentUpdate := Some(c));
    if i.saveAgainOk {
      var s3 := Session(s.w.(nextName := s.w.nextName + 1, stack := s.w.stack.(status := status)), status, None, None);
      assert CreateStage(s, i, commit) == CreateObject(s3, c, i);
      CreatedWell(s3, c, i);
    }
  }

  lemma LaunchAnnounces(s: Session, i: Input, commit: string)
    requires s.status.currentUpdate.None?
    ensures AnnouncesOnly(s, LaunchStage(s, i, commit).0)
  {
    if i.saveOk && i.apply.Applied? {
      var s1 := Save(Reconciling(s, StackProcessing), true, i.releaseOk);
      var s2 := s1.(w := ApplyWorkspace(s1.w, i.apply.changed));
      SaveAnnouncesNone(Reconciling(s, StackProcessing), true, i.releaseOk);
      RunAnnounces(s2, i, commit);
    } else if i.saveOk {
      var s1 := Save(Reconciling(s, StackProcessing), true, i.releaseOk);
      SaveAnnouncesNone(Reconciling(s, StackProcessing), true, i.releaseOk);
      SaveAnnouncesNone(Stalled(s1, NamespaceTerminating), i.saveAgainOk, i.releaseOk);
    }
  }

  lemma RunAnnounces(s: Session, i: Input, commit: string)
    requires s.pending.None? && s.unsaved.None? && s.status == s.w.stack.status
    requires s.w.workspace.Some? && s.status.currentUpdate.None?
    ensures AnnouncesOnly(s, RunStage(s, i, commit).0)
  {
    if IsWorkspaceReady(s.w.workspace) {
      CreateAnnounces(s, i, commit);
    } else if s.w.workspace.value.stalled.Some? {
      SaveAnnouncesNone(Stalled(s, StallReasonOf(s.w.workspace.value.stalled.value)), i.saveAgainOk, i.releaseOk);
    }
  }

  lemma SyncedAnnouncesNone(s: Session, i: Input)
    requires s.status.lastUpdate.Some? && s.status.currentUpdate.None?
    ensures !Announces(s.w, SyncedStage(s, i).0)
  {
    var s1 := MarkResult(s);
    SaveAnnouncesNone(s1, i.saveOk, i.releaseOk);
    ReclaimAnnouncesNone(s1, i, RequeueAfter(s.w.stack, s.status, i.requeuedAt));
  }

  lemma ReclaimAnnouncesNone(s: Session, i: Input, after: int)
    requires s.status.currentUpdate.None?
    ensures !Announces(s.w, ReclaimStage(s, i, after).0)
  {}

  lemma SaveAnnouncesNone(s: Session, ok: bool, releaseOk: bool)
    requires s.status.currentUpdate.None?
    ensures !Announces(s.w, Save(s, ok, releaseOk).w)
  {}

  lemma SetupAnnounces(s: Session, i: Input)
    requires s.status.currentUpdate.None? && HasWork(s.w.stack)
    ensures var commit, w' := CommitOf(s.w.stack, s.status, i), SetupStage(s, i, CommitOf(s.w.stack, s.status, i)).0;
            Announces(s.w, w') ==> AnnouncesOnly(s, w') && Due(s.w.stack, s.status, commit, i.decidedAt)
  {
    var commit := CommitOf(s.w.stack, s.status, i);
    SyncedUnlessDue(s.w.stack, s.status, commit, i.decidedAt);
    SaveAnnouncesNone(Stalled(s, SpecInvalid), i.saveOk, i.releaseOk);
    if i.setup == SetupDone {
      if IsSynced(s.w.stack, s.status, commit, i.decidedAt) {
        SyncedAnnouncesNone(s, i);
      } else {
        SaveAnnouncesNone(Reconciling(s, PrerequisiteNotSatisfied), i.saveOk, i.releaseOk);
        LaunchAnnounces(s, i, commit);
      }
    }
  }

  lemma CleanUpAnnounces(s: Session, i: Input)
    requires s.status.currentUpdate.None?
    ensures var w' := CleanUpStage(s, i).0;
            Announces(s.w, w') ==>
              && AnnouncesOnly(s, w')
              && (NeedsNoSource(s.w.stack, s.status) || i.source.Resolved?)
              && Due(s.w.stack, s.status, CommitOf(s.w.stack, s.status, i), i.decidedAt)
  {
    if HasWork(s.w.stack) && (NeedsNoSource(s.w.stack, s.status) || i.source.Resolved?) {
      SetupAnnounces(s, i);
    } else {
      SaveAnnouncesNone(Ready(s), true, i.releaseOk);
      SaveAnnouncesNone(Stalled(s, SpecInvalid), i.saveOk, i.releaseOk);
      SaveAnnouncesNone(Stalled(s, SourceUnavailable), i.saveOk, i.releaseOk);
    }
  }

  /** Nor is an Update announced in CurrentUpdate, created or not, unless it is due. */
  lemma AnnouncementIsDue(w: Cluster, i: Input)
    requires Announces(w, Reconcile(w, i).0)
    ensures var st := Reconcile(w, i).0.stack;
            && NoneOutstanding(w)
            && (NeedsNoSource(st, st.status) || i.source.Resolved?)
            && Due(st, st.status, CommitOf(st, st.status, i), i.decidedAt)
  {
    var s := Observe(EnsureFinalizer(w, i), w.stack);
    match AbsorbCurrent(s, i)
    case Proceed(s') => CleanUpAnnounces(s', i);
    case End(_, _) =>
  }
}
