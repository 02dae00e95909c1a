/**
 The Stack reconciler (stack_controller.go): one reconcile as a function of the cluster and of what
 the outside answers, and the method that performs it step by step.

 Every write carries its outcome in `Input`.  A crash after some write is the input in which every
 later write is refused: nothing but writes outlives the process.
 */
module StackController {
  import opened Prelude
  import opened ReadyProtocol
  import opened StackModel
  import opened Sync
  import opened Outputs
  import opened UpdateStream
  import opened UpdateController
  import opened ClusterState
  import opened UpdateSteps

  const SOURCE_UNAVAILABLE_WAIT: int := 30 * SECOND

  datatype SourceAnswer = Resolved(commit: string) | SourceInvalid | SourceMissing | SourceBroken

  datatype SetupAnswer = SetupDone | SetupStalled | SetupBroken

  datatype PrereqAnswer = Satisfied | Unsatisfied | PrereqBroken

  datatype ApplyAnswer = Applied(changed: bool) | NamespaceIsTerminating | ApplyBroken

  datatype Input = Input(
    addFinalizerOk: bool, finalizerBumps: bool, planOk: bool, getUpdateOk: bool, secret: SecretRead,
    absorbedAt: int, source: SourceAnswer, setup: SetupAnswer, decidedAt: int, requeuedAt: int,
    prereq: PrereqAnswer, apply: ApplyAnswer,
    saveOk: bool, saveAgainOk: bool, saveUndoOk: bool,   // the first, second and third status write
    releaseOk: bool, earlyReleaseOk: bool, deleteWorkspaceOk: bool, dropFinalizerOk: bool,
    createOk: bool, finalizeUpdateOk: bool, deleteUpdateOk: bool,
    meanwhile: seq<UpdateStep>)   // what the Update reconciler does between the creation and what follows it

  datatype Result = Requeue(after: int) | Retry

  // The reconcile in progress: the store, the local copy of the status, and what the next
  // successful status write will make permanent.
  datatype Session = Session(w: Cluster, status: StackStatus, unsaved: Option<Absorption>, pending: Option<UpdateName>)

  // saveStatus: one write of the whole status, then the best-effort release of the absorbed Update.
  function Save(s: Session, ok: bool, releaseOk: bool): Session {
    if !ok then s
    else
      var w := s.w.(stack := s.w.stack.(status := s.status),
                    absorbed := if s.unsaved.Some? then s.w.absorbed + [s.unsaved.value] else s.w.absorbed);
      Session(if s.pending.Some? && releaseOk then Release(w, s.pending.value) else w, s.status, None, None)
  }

  function Reconciling(s: Session, reason: Reason): Session {
    s.(status := s.status.(conditions := MarkReconciling(s.status.conditions, reason)))
  }

  function Stalled(s: Session, reason: Reason): Session {
    s.(status := s.status.(conditions := MarkStalled(s.status.conditions, reason)))
  }

  function Ready(s: Session): Session {
    s.(status := s.status.(conditions := MarkReady(s.status.conditions)))
  }

  // "return reconcile.Result{RequeueAfter: after}, saveStatus()"
  function SaveAndReturn(s: Session, i: Input, after: int): (Cluster, Result) {
    (Save(s, i.saveOk, i.releaseOk).w, if i.saveOk then Requeue(after) else Retry)
  }

  function DropFinalizer(w: Cluster, i: Input): (Cluster, Result) {
    if i.dropFinalizerOk then (w.(stack := w.stack.(finalizer := false)), Requeue(0)) else (w, Retry)
  }

  function Reconcile(w: Cluster, i: Input): (Cluster, Result) {
    var st := w.stack;
    if st.deleted && !st.finalizer then (w, Requeue(0))
    else if !st.finalizer && !i.addFinalizerOk then (w, Retry)
    else
      var w1 := EnsureFinalizer(w, i);
      if !i.planOk then (w1, Retry)
      else AbsorbStage(Observe(w1, st), i)
  }

  function EnsureFinalizer(w: Cluster, i: Input): Cluster {
    if w.stack.finalizer then w
    else w.(stack := w.stack.(finalizer := true, generation := w.stack.generation + if i.finalizerBumps then 1 else 0))
  }

  // The local status observes what was read, before the finalizer was added.
  function Observe(w: Cluster, read: Stack): Session {
    Session(w, read.status.(observedGeneration := read.generation, observedRequest := read.request), None, None)
  }

  // Either the reconcile goes on with a session, or it ends.
  datatype Step = Proceed(s: Session) | End(w: Cluster, result: Result)

  function AbsorbStage(s: Session, i: Input): (Cluster, Result) {
    match AbsorbCurrent(s, i)
    case Proceed(s') => CleanUpStage(s', i)
    case End(w, result) => (w, result)
  }

  // Wait for the outstanding Update, or absorb its result into the local status.
  function AbsorbCurrent(s: Session, i: Input): Step {
    if s.status.currentUpdate.None? then Proceed(s)
    else if !i.getUpdateOk then End(s.w, Retry)
    else
      var c := s.status.currentUpdate.value;
      if c.name !in s.w.updates || !IsUpdateComplete(s.w.updates[c.name]) then
        var (w, result) := SaveAndReturn(Reconciling(s, StackProcessing), i, 0);
        End(w, result)
      else
        var u := s.w.updates[c.name];
        var shown := ShownOutputs(i.secret);
        if u.status.failed != Yes && u.status.outputs && shown.None? then End(s.w, Retry)
        else Proceed(Absorbed(s, c, u, shown, i.absorbedAt))
  }

  function AbsorptionOf(c: CurrentUpdate, u: Update, time: int): Absorption {
    Absorption(c, u.typ, u.status.failed == Yes, u.status.message, u.status.permalink, time)
  }

  function Absorbed(s: Session, c: CurrentUpdate, u: Update, shown: Option<map<string, Shown>>, time: int): Session
    requires u.status.failed != Yes && u.status.outputs ==> shown.Some?
  {
    var a := AbsorptionOf(c, u, time);
    var status := s.status.(lastUpdate := Some(Absorb(s.status.lastUpdate, a)), currentUpdate := None);
    var status' :=
      if a.failed then status
      else status.(outputs := if u.status.outputs then Some(shown.value) else status.outputs,
                   projectInfo := if u.status.projectInfo.Some? then u.status.projectInfo else status.projectInfo);
    Session(s.w, status', Some(a), Some(c.name))
  }

  // A deleted Stack with nothing to destroy leaves here.
  function CleanUpStage(s: Session, i: Input): (Cluster, Result) {
    var st := s.w.stack;
    if st.deleted && (!st.spec.destroyOnFinalize || st.spec.preview) then
      if i.saveOk then DropFinalizer(Save(Ready(s), true, i.releaseOk).w, i) else (s.w, Retry)
    else
      match ResolveSource(st, s.status, i.source)
      case Resolved(commit) => SetupStage(s, i, commit)
      case SourceInvalid => SaveAndReturn(Stalled(s, SpecInvalid), i, 0)
      case SourceMissing => SaveAndReturn(Stalled(s, SourceUnavailable), i, SOURCE_UNAVAILABLE_WAIT)
      case SourceBroken => (s.w, Retry)
  }

  predicate UsesProjectInfo(st: Stack, status: StackStatus) {
    st.deleted && st.spec.destroyOnFinalize && !st.spec.preview && !st.spec.runProgram && status.projectInfo.Some?
  }

  function ResolveSource(st: Stack, status: StackStatus, answer: SourceAnswer): SourceAnswer {
    if UsesProjectInfo(st, status) || st.spec.source.NoSource? then Resolved("") else answer
  }

  function SetupStage(s: Session, i: Input, commit: string): (Cluster, Result) {
    match i.setup
    case SetupStalled => SaveAndReturn(Stalled(s, SpecInvalid), i, 0)
    case SetupBroken => (s.w, Retry)
    case SetupDone =>
      if IsSynced(s.w.stack, s.status, commit, i.decidedAt) then SyncedStage(s, i)
      else PrerequisiteStage(s, i, commit)
  }

  // markStackResult
  function MarkResult(s: Session): Session
    requires s.status.lastUpdate.Some?
  {
    var last := s.status.lastUpdate.value;
    if last.state == SucceededState then Ready(s)
    else if last.failures >= MAX_UPDATE_FAILURES then Stalled(s, UpdateFailed)
    else if last.typ == PreviewType then Reconciling(s, PreviewFailed)
    else Reconciling(s, RetryingAfterFailure)
  }

  function SyncedStage(s: Session, i: Input): (Cluster, Result)
    requires s.status.lastUpdate.Some?
  {
    var st, last := s.w.stack, s.status.lastUpdate.value;
    var s1 := MarkResult(s);
    if st.deleted then
      if last.state != SucceededState then
        SaveAndReturn(s1, i, Max(SECOND, last.resyncTime + Cooldown(st.spec, s.status.lastUpdate) - i.requeuedAt))
      else DropFinalizer(Save(s1, i.saveOk, i.releaseOk).w, i)
    else
      var after := RequeueAfter(st, s.status, i.requeuedAt);
      if last.state != FailedState && st.spec.reclaimDelete then ReclaimStage(s1, i, after)
      else SaveAndReturn(s1, i, after)
  }

  // Delete the workspace; the Update must lose its finalizer first, or it would be stuck.
  function ReclaimStage(s: Session, i: Input, after: int): (Cluster, Result) {
    if s.pending.Some? && !i.earlyReleaseOk then (s.w, Retry)
    else
      var released := if s.pending.Some? then Release(s.w, s.pending.value) else s.w;
      if !i.deleteWorkspaceOk then (released, Retry)
      else SaveAndReturn(s.(w := released.(workspace := None), pending := None), i, after)
  }

  function PrerequisiteStage(s: Session, i: Input, commit: string): (Cluster, Result) {
    if s.w.stack.deleted then LaunchStage(s, i, commit)
    else match i.prereq
      case Satisfied => LaunchStage(s, i, commit)
      case Unsatisfied => SaveAndReturn(Reconciling(s, PrerequisiteNotSatisfied), i, 0)
      case PrereqBroken => (s.w, Retry)
  }

  // Whether this reconcile gets as far as looking at the prerequisites.
  predicate ChecksPrerequisites(w: Cluster, i: Input) {
    && !w.stack.deleted && (w.stack.finalizer || i.addFinalizerOk) && i.planOk
    && var step := AbsorbCurrent(Observe(EnsureFinalizer(w, i), w.stack), i);
      && step.Proceed?
      && var source := ResolveSource(step.s.w.stack, step.s.status, i.source);
        && source.Resolved? && i.setup == SetupDone
        && !IsSynced(step.s.w.stack, step.s.status, source.commit, i.decidedAt)
  }

  function ApplyWorkspace(w: Cluster, changed: bool): Cluster {
    w.(workspace :=
         if w.workspace.None? then Some(Workspace(1, 0, false, false, None))
         else if changed then Some(w.workspace.value.(generation := w.workspace.value.generation + 1))
         else w.workspace)
  }

  // Create or update the workspace, and see whether it can take an Update.
  function LaunchStage(s: Session, i: Input, commit: string): (Cluster, Result) {
    if !i.saveOk then (s.w, Retry)
    else
      var s1 := Save(Reconciling(s, StackProcessing), true, i.releaseOk);
      var deleted := s.w.stack.deleted;
      match i.apply
      case NamespaceIsTerminating =>
        if deleted then SaveAgain(Stalled(s1, NamespaceTerminating), i, SOURCE_UNAVAILABLE_WAIT) else (s1.w, Retry)
      case ApplyBroken => (s1.w, Retry)
      case Applied(changed) => RunStage(s1.(w := ApplyWorkspace(s1.w, changed)), i, commit)
  }

  // Start an Update if the workspace is ready for it.
  function RunStage(s: Session, i: Input, commit: string): (Cluster, Result)
    requires s.w.workspace.Some?
  {
    if IsWorkspaceReady(s.w.workspace) then CreateStage(s, i, commit)
    else if s.w.workspace.value.stalled.Some? then
      if s.w.stack.deleted && s.status.lastUpdate.None? then DropFinalizer(s.w, i)
      else SaveAgain(Stalled(s, StallReasonOf(s.w.workspace.value.stalled.value)), i, 0)
    else (s.w, Requeue(0))
  }

  function StallReasonOf(r: StallReason): Reason {
    if r.IncompatibleConfiguration? then PulumiVersionTooLow else WorkspaceFailed
  }

  function SaveAgain(s: Session, i: Input, after: int): (Cluster, Result) {
    (Save(s, i.saveAgainOk, i.releaseOk).w, if i.saveAgainOk then Requeue(after) else Retry)
  }

  function NextType(st: Stack): UpdateType {
    if st.deleted then DestroyType else if st.spec.preview then PreviewType else UpType
  }

  // Record the Update to come before creating it.
  function CreateStage(s: Session, i: Input, commit: string): (Cluster, Result) {
    var current := CurrentUpdate(s.w.stack.generation, s.status.observedRequest, s.w.nextName, commit);
    var s1 := Reconciling(s, StackProcessing);
    var s2 := s1.(w := s1.w.(nextName := s1.w.nextName + 1), status := s1.status.(currentUpdate := Some(current)));
    if !i.saveAgainOk then (s2.w, Retry)
    else CreateObject(Save(s2, true, i.releaseOk), current, i)
  }

  // Create the Update and put a finalizer on it; forget CurrentUpdate if either fails.  From its creation
  // on the Update is open to the Update reconciler.
  function CreateObject(s: Session, current: CurrentUpdate, i: Input): (Cluster, Result) {
    var undo := s.(status := s.status.(currentUpdate := None));
    if !i.createOk then (Save(undo, i.saveUndoOk, i.releaseOk).w, Retry)
    else
      var w := Meanwhile(Created(s.w, current, NextType(s.w.stack)), current.name, i.meanwhile);
      if i.finalizeUpdateOk then (Finalized(w, current.name), Requeue(0))
      else
        var faulty := undo.(w := Faulty(w, current.name, i.deleteUpdateOk, i.saveUndoOk));
        (Save(faulty, i.saveUndoOk, i.releaseOk).w, Retry)
  }

  function Created(w: Cluster, c: CurrentUpdate, typ: UpdateType): Cluster {
    w.(updates := w.updates[c.name := NewUpdate(typ)],
       executions := w.executions[c.name := Execution(c, typ, [], None)],
       created := w.created + 1)
  }

  // addUpdateFinalizer
  function Finalized(w: Cluster, n: UpdateName): Cluster {
    if n in w.updates then w.(updates := w.updates[n := w.updates[n].(finalizer := true)]) else w
  }

  // An Update without its finalizer is deleted, if that works; what the operator has begun with it goes on.
  function Faulty(w: Cluster, n: UpdateName, deleteOk: bool, undone: bool): Cluster {
    w.(updates := if deleteOk then w.updates - {n} else w.updates,
       faults := w.faults + 1,
       leaked := if undone && (!deleteOk || Begun(w, n)) then w.leaked + {n} else w.leaked)
  }
}
