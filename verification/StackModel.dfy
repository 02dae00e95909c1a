/** The entities of the operator: Stacks, Workspaces and Updates as the API server stores them. */
module StackModel {
  import opened Prelude
  import opened ReadyProtocol

  // Update objects are identified by the order in which their names were generated.
  type UpdateName = nat

  // The value of the reconcile-request annotation: what a user wrote (the empty text when absent),
  // or the "after-<update>" value with which a dependent asks for a resync.
  datatype Request = Manual(text: string) | After(update: UpdateName)

  datatype UpdateType = PreviewType | UpType | RefreshType | DestroyType

  datatype StateMessage = SucceededState | FailedState | UnknownState

  datatype ProjectInfo = ProjectInfo(name: string, runtime: string)

  datatype CurrentUpdate = CurrentUpdate(generation: int, request: Request, name: UpdateName, commit: string)

  datatype LastUpdate = LastUpdate(
    generation: int, request: Request, name: UpdateName, typ: UpdateType, state: StateMessage, message: string,
    lastAttemptedCommit: string, lastSuccessfulCommit: string, permalink: string, resyncTime: int, failures: nat)

  // An output as it is shown in the Stack's status.
  datatype Shown = Masked | Plain(json: string)

  datatype StackStatus = StackStatus(
    outputs: Option<map<string, Shown>>, lastUpdate: Option<LastUpdate>,
    observedGeneration: int, observedRequest: Request, conditions: Conditions,
    currentUpdate: Option<CurrentUpdate>, projectInfo: Option<ProjectInfo>)

  const EMPTY_STATUS := StackStatus(None, None, 0, Manual(""), [], None, None)

  datatype SourceKind = GitSource(trackBranch: bool) | FluxSource | ProgramSource | NoSource

  datatype Prerequisite = Prerequisite(name: string, succeededWithin: Option<int>)

  datatype StackSpec = StackSpec(
    source: SourceKind, destroyOnFinalize: bool, preview: bool, runProgram: bool,
    continueResyncOnCommitMatch: bool, resyncFrequencySeconds: int, retryMaxBackoffSeconds: int,
    reclaimDelete: bool, prerequisites: seq<Prerequisite>)

  datatype Stack = Stack(
    spec: StackSpec, generation: int, request: Request, deleted: bool, finalizer: bool, status: StackStatus)

  datatype StallReason = IncompatibleConfiguration | OtherStall(reason: string)

  datatype Workspace = Workspace(
    generation: int, observedGeneration: int, deleted: bool, ready: bool, stalled: Option<StallReason>)

  predicate IsWorkspaceReady(ws: Option<Workspace>) {
    ws.Some? && !ws.value.deleted && ws.value.generation == ws.value.observedGeneration && ws.value.ready
  }

  // isStackReady, the test behind stackReadyPredicate.
  predicate IsStackReady(s: Stack) {
    && s.generation == s.status.observedGeneration
    && s.request == s.status.observedRequest
    && IsTrue(s.status.conditions, ReadyCondition)
  }
}
