# A model of the Pulumi Kubernetes Operator, with proofs

The operator is a chain of Kubernetes controllers that hand work to one another through stored
objects. A Stack asks for a Workspace and, when that is ready, for one Update after another; the
Update reconciler runs the operation over a message stream and records a verdict; the Stack
reconciler absorbs the verdict and decides whether to try again, to wait, or, when the Stack is being
deleted, to let it go. Every reconcile may be refused a write or be cut short anywhere, and runs
again.

This project models those controllers as transition systems over the stored objects, together with
the class methods that perform the steps, and proves what holds in every state and every step of
every run.

| file | what it models |
|---|---|
| `ReadyProtocol.dfy` | the three mutators of the condition list of a Stack |
| `StackModel.dfy`, `Cluster.dfy` | the stored objects, and the history the theorems speak about |
| `Sync.dfy`, `Due.dfy` | isSynced, cooldown, the requeue timers; and what they come to, in seconds |
| `UpdateStream.dfy`, `UpdateController.dfy`, `UpdateSteps.dfy`, `UpdateOutcomes.dfy` | the stream reader and the Update reconciler; what each phase does to the stored Update |
| `Outputs.dfy` | outputs on their way from an Update to the Stack's status |
| `StackController.dfy`, `StackReconciler.dfy` | the Stack reconciler: as a function, and step by step |
| `Invariants.dfy`, `UpdateProofs.dfy`, `StackProofs.dfy`, `Runs.dfy` | what both controllers together keep, over all runs |
| `Creation.dfy`, `Effects.dfy`, `History.dfy`, `Outcomes.dfy` | what a reconcile of a Stack does, in terms of stored objects: why it creates an Update and which, what it takes over, when it retries, what the stored conditions mean |
| `Safety.dfy`, `Retries.dfy`, `Stuck.dfy`, `Leak.dfy` | the main theorems about one Stack, and runs that show their limits |
| `Prerequisites.dfy`, `Requests.dfy`, `Fleet.dfy`, `FleetProofs.dfy`, `Asks.dfy`, `Looks.dfy`, `Thrash.dfy` | many Stacks that wait for one another, with the work queue |
| `ConfigGate.dfy`, `AgentConfig.dfy` | configuration, the version gate, and the agent's SetAllConfig |
| `WorkspaceController.dfy`, `WorkspaceProofs.dfy`, `WorkspaceOutcomes.dfy` | the Workspace reconciler and the initialisation of its pod |
| `TokenCache.dfy`, `TokenThreads.dfy` | the agent client's token cache, alone and under concurrent callers |
| `Watches.dfy` | one watch per kind of Flux source, under concurrent callers |

## What turned out not to hold

The model follows the code where that differs from what its comments suggest. Each of these has a
concrete input or a concrete reachable state, and beside it the theorem that says exactly when the
property holds.

- An error from the stream that carries no gRPC status completes the Update without setting Failed, so
  it is absorbed as a success (`UpdateStream.ForeignErrorReadsAsSuccess`; `UpdateStream.VerdictIsExact`
  says exactly which streams end so). A gRPC client stream that no interceptor wraps returns none but
  status errors and the end of the stream, so no stream that the operator opens today ends like that;
  `Safety.VerdictsAreSound` states the verdicts without that case too.
- If the finalizer of a new Update cannot be added but CurrentUpdate can be cleared, and the Update
  either cannot be deleted or has begun before it is, it is left behind: it may run beside the next one
  (`Leak.TwoUpdatesInFlight`, `Leak.TwoOperationsUnderWay`), and a later delete may release the Stack with
  no destroy (`Leak.ReleasedWithoutDestroy`). `Safety.LeaksExactly` gives the answers under which a
  reconcile leaves its Update behind, `Safety.LeavingStep` shows that no other step does, and
  `Safety.SingleFlightExactly` that single flight holds exactly while those left behind are complete.
- A Stack may wait for ever for its current Update (`Stuck.StuckExactly`): exactly if that is gone, or is
  complete but its generation moved on before its status was written. The first comes about by a crash
  between saving CurrentUpdate and creating the object (`Leak.StuckByCrash`), or if the object was deleted
  for want of its finalizer and CurrentUpdate could not be cleared (`Leak.StuckByFinalizer`), and
  `Stuck.CreatingGetsStuck` says which answers do so; the second if the Update is marked for deletion while
  its operation runs, or once it has completed (`Leak.StuckByDeletion`).
- Dependents ask a prerequisite for at most one resync per completed Update only as long as no user
  writes back the request that the last update served (`Thrash.ThrashingIsReachable`;
  `FleetProofs.AsksAgainExactly` says when a request is repeated).
- The two routes of the agent's SetAllConfig do not agree on all plain items: the JSON route ignores
  `path` and escaped keys, and the other one turns null into the text `<nil>`
  (`AgentConfig.RouteMatters` says exactly when they agree).
- A nil return of maybeWatchFluxSourceKind does not mean that there is a watch (`Watches.NilWithoutWatch`);
  `Watches.NilMeansWatch` and `Watches.OwnInstallStands` say when it does.

## Model

Paths are relative to the repository's root. In the states column, "a run" is any interleaving of the
events of the model: reconciles with any answers and any refused writes, crashes, edits, deletes.

| member | source | states |
|---|---|---|
| ReadyProtocol.MarkReconcilingShape | operator/api/pulumi/v1/stack_types.go:116-133 | from any list, Ready=False and Reconciling=True with the reason, no Stalled; types stay distinct, other conditions stay as they were |
| ReadyProtocol.MarkStalledShape | operator/api/pulumi/v1/stack_types.go:136-153 | from any list, Ready=False and Stalled=True with the reason, no Reconciling; types stay distinct, other conditions stay as they were |
| ReadyProtocol.MarkReadyShape | operator/api/pulumi/v1/stack_types.go:155-165 | from any list, Ready=True alone; types stay distinct, other conditions stay as they were |
| ReadyProtocol.ShapeIsUnique | operator/api/pulumi/v1/stack_types.go:57-66 | the three shapes of the ready protocol exclude one another, and Ready=True is the first |
| ReadyProtocol.StackStatusConditions.MarkReconcilingCondition | operator/api/pulumi/v1/stack_types.go:116-133 | the in-place mutator leaves the list that the shape lemma describes |
| ReadyProtocol.StackStatusConditions.MarkStalledCondition | operator/api/pulumi/v1/stack_types.go:136-153 | the in-place mutator leaves the list that the shape lemma describes |
| ReadyProtocol.StackStatusConditions.MarkReadyCondition | operator/api/pulumi/v1/stack_types.go:155-165 | the in-place mutator leaves the list that the shape lemma describes |
| Sync.ComputeCooldown | operator/internal/controller/pulumi/stack_controller.go:1371-1394 | the loop over the stepping backoff computes the closed form 10s, min(10s·3^n, cap), and takes about log3(cap/10s) turns however many failures there were |
| Sync.BackoffBoundedAndMonotone | operator/internal/controller/pulumi/stack_controller.go:1366-1394 | the backoff is at most max(10s, cap), never less than 10s and monotone in the failures if the cap is at least 10s, and equal to the cap if that is smaller |
| Sync.TimerAgreesWithDecision | operator/internal/controller/pulumi/stack_controller.go:835-863 | for a synced Stack with a deadline, isSynced holds at exactly the times before the deadline, and the requeue interval is at least 1s and at most max(1s, time to the deadline), also with branch polling |
| Sync.DueUpdateIsReached | operator/internal/controller/pulumi/stack_controller.go:1271-1304 | a Stack can be woken and found synced only so many times: each wake-up but the last takes a second off the time to the deadline |
| DueDates.SyncedUnlessDue | operator/internal/controller/pulumi/stack_controller.go:1230-1310 | isSynced holds iff no update is due: none yet, another generation or request, a success that was no destroy of a deleted Stack, a new commit, a resync after its frequency (at least 60s), a new commit or fewer than 3 retries and 10s, 30s, 90s ... (capped) after a failure |
| DueDates.ComesBack | operator/internal/controller/pulumi/stack_controller.go:835-863 | a synced Stack comes back when its next update is due, in a second at the soonest; one that tracks a branch after the poll interval at the latest, also if nothing is due; else not at all |
| UpdateStream.StreamReader.ReadResult | operator/internal/controller/auto/update_controller.go:771-830 | whatever events come first, the conditions and the status block are those that the first decisive item implies |
| UpdateStream.StreamReader.SetStatusBlockFromGRPCErr | operator/internal/controller/auto/update_controller.go:834-867 | default message, then the status's message, then the structured one; Failed only for gRPC status errors |
| UpdateStream.DecisiveStandsFirst | operator/internal/controller/auto/update_controller.go:776-793 | what decides is an item of the stream with nothing but events before it |
| UpdateStream.FirstNonEventDecides | operator/internal/controller/auto/update_controller.go:776-793 | the first item that is no event decides, whatever follows |
| UpdateStream.VerdictIsExact | operator/internal/controller/auto/update_controller.go:771-867 | from an Update in flight: still in flight iff the stream ended undecided; done and succeeded iff the first decisive item is a result without summary or with "succeeded", or an error that is no gRPC status; else done and failed |
| UpdateStream.ForeignErrorReadsAsSuccess | operator/internal/controller/auto/update_controller.go:842-845 | a concrete stream with no result that leaves the Update recorded as succeeded |
| UpdateController.UpdateReconciler.BeginReconcile | operator/internal/controller/auto/update_controller.go:116-177 | completed: nothing but expiry; was progressing: failed as aborted; deleted or orphaned: canceled; else Progressing=True is stored before anything is started |
| UpdateController.UpdateReconciler.DialWorkspace | operator/internal/controller/auto/update_controller.go:179-251 | workspace missing or not ready, connection failed or unreachable: back to a retryable status; other errors leave the stored status in flight (the function it equals is pinned down by UpdateOutcomes.RetriesExactly) |
| UpdateController.UpdateReconciler.FinishStream | operator/internal/controller/auto/update_controller.go:475-524 | stores the verdict of the stream, unless the output secret of an up could not be created |
| UpdateOutcomes.StartsExactly | operator/internal/controller/auto/update_controller.go:116-177 | an Update starts iff it is not complete, not in flight, neither deleted nor orphaned, and Progressing=True could be stored; in flight it fails as Aborted, deleted or orphaned as Canceled, complete it is left alone but for its expiry |
| UpdateOutcomes.RetriesExactly | operator/internal/controller/auto/update_controller.go:179-251 | the stored status becomes retryable iff the workspace could be read and is absent or not ready, the connection failed, or the open request found it unreachable, and the write was accepted; a stream is opened iff the workspace is ready and opens it; else the status stays in flight |
| UpdateOutcomes.UnreachableIsHarmless | operator/internal/controller/auto/update_controller.go:349-370 | after such an attempt the next reconcile puts the Update in flight again, unless it is deleted or orphaned; after any other answer but the stream it fails it as Aborted |
| UpdateOutcomes.ResultIsStored | operator/internal/controller/auto/update_controller.go:475-524 | after a result that nothing but events precedes: the verdict, reason, message, permalink and project info of the result are stored, and that an up has outputs; nothing if their Secret could not be made |
| UpdateOutcomes.ErrorIsStored | operator/internal/controller/auto/update_controller.go:834-867 | a gRPC status error fails the Update with the structured message and reason if there is one, else with its own |
| UpdateOutcomes.ForeignErrorIsStored | operator/internal/controller/auto/update_controller.go:842-845 | an error that is no gRPC status completes the Update and leaves Failed as it was |
| UpdateOutcomes.UndecidedIsAborted | operator/internal/controller/auto/update_controller.go:146-153 | a stream that ends undecided leaves the Update in flight, and the next reconcile fails it as Aborted |
| Outputs.OutputsToSecret | operator/internal/controller/auto/update_controller.go:701-734 | for every order of the map: the keys are exactly the sanitised names, each holds the value of some output of that name, and the annotation lists exactly those of secret outputs |
| Outputs.CollectOutputs | operator/internal/controller/pulumi/stack_controller.go:1148-1169 | a missing Secret gives no outputs, a read error or unreadable annotation none at all, else every key is shown, masked iff the annotation lists it |
| Outputs.MaskingSurvives | operator/internal/controller/pulumi/stack_controller.go:1148-1169 | through both controllers, with colliding names: exactly the sanitised names are shown, and a key is in the clear iff no secret output sanitises to it |
| StackReconcilerMethods.StackReconciler.SaveStatus | operator/internal/controller/pulumi/stack_controller.go:570-618 | one write of the whole status, then the best-effort release of the absorbed Update; nothing if the write is refused |
| StackReconcilerMethods.StackReconciler.MarkStackFailed | operator/internal/controller/pulumi/stack_controller.go:1120-1144 | LastUpdate becomes the fold of the old one and the failed Update, at the time of absorption (what the fold holds is said by Effects.ResultIsTakenOver and History.LastUpdateSumsUp) |
| StackReconcilerMethods.StackReconciler.MarkStackSucceeded | operator/internal/controller/pulumi/stack_controller.go:1146-1189 | LastUpdate becomes the fold of the old one and the succeeded Update, with the outputs and the project info; nothing changes if the outputs cannot be read |
| StackReconcilerMethods.StackReconciler.AbsorbCurrentUpdate | operator/internal/controller/pulumi/stack_controller.go:620-657 | waits while the current Update is missing or incomplete, else absorbs it and clears CurrentUpdate, locally |
| StackReconcilerMethods.StackReconciler.MarkStackResult | operator/internal/controller/pulumi/stack_controller.go:1096-1117 | Ready only after a success, Stalled once the retries are used up, else Reconciling with the reason; nothing but conditions changes |
| StackReconcilerMethods.StackReconciler.ReconcileSynced | operator/internal/controller/pulumi/stack_controller.go:805-889 | keeps the finalizer and retries after a failed destroy, releases after a successful one; the requeue intervals; workspace reclaim after the Update's release |
| StackReconcilerMethods.StackReconciler.CreateUpdate | operator/internal/controller/pulumi/stack_controller.go:1027-1080 | records the Update to come in the status before creating it, and forgets it if creating it or adding its finalizer fails (which Update, and why, is said by Creation.CreationIsDue) |
| StackReconcilerMethods.StackReconciler.ReconcileStack | operator/internal/controller/pulumi/stack_controller.go:523-1081 | one reconcile, performed step by step on the stored objects and the local status, does what the function does that every theorem below is about |
| Creation.CreationIsDue | operator/internal/controller/pulumi/stack_controller.go:1027-1080 | if a reconcile creates an Update then just one, of type destroy iff the Stack is deleted, else preview iff the spec says so, else up, for the present generation and request and the commit of the source, recorded in CurrentUpdate; and only if one is due, none is outstanding, the finalizer is there, the prerequisites are satisfied and the workspace is ready at its generation |
| Creation.PreviewsOnly | operator/internal/controller/pulumi/stack_controller.go:1037-1041 | in every run in which spec.preview always holds, every Update is a preview |
| Creation.CreatesWhenDue | operator/internal/controller/pulumi/stack_controller.go:786-1080 | if nothing hinders it, a reconcile creates an Update iff one is due |
| Creation.AnnouncementIsDue | operator/internal/controller/pulumi/stack_controller.go:1045-1058 | no Update is recorded in CurrentUpdate, created or not, unless it is due and none is outstanding |
| Effects.ResultIsTakenOver | operator/internal/controller/pulumi/stack_controller.go:620-657 | a reconcile takes over the result of a complete current Update once and together with the status: LastUpdate field by field, with the time of absorption, the outputs as the Secret has them, the project info; and removes its finalizer; or it stores nothing of it and the Update stays the current one |
| Effects.ResultIsNotLeft | operator/internal/controller/pulumi/stack_controller.go:620-657 | the first reconcile that can read the result, whose questions are answered and whose writes are accepted, takes it over, whatever else comes of it |
| Effects.WorkspaceGoesOnlyIfReclaimed | operator/internal/controller/pulumi/stack_controller.go:865-889 | the workspace is removed only after a success of a Stack that is not deleted and reclaims it, with that Update let go of, and changed only where an update is on its way |
| Effects.DoneIsReleased | operator/internal/controller/pulumi/stack_controller.go:812-833 | a deleted Stack with nothing to destroy, or whose destroy has succeeded, loses its finalizer in the next reconcile whose writes are accepted |
| Effects.UntriedIsReleased | operator/internal/controller/pulumi/stack_controller.go:1003-1011 | and so does one that was never updated and whose workspace is stalled |
| Outcomes.OutcomeTells | operator/internal/controller/pulumi/stack_controller.go:570-1081 | every condition that a reconcile stores means what it says of the last update, the workspace, the source, the prerequisites; the status observes the generation and request read; and a reconcile that comes to rest has stored such a status, and comes back after the time that goes with it or awaits an Update or a workspace under way |
| Outcomes.SmoothRests | operator/internal/controller/pulumi/stack_controller.go:523-1081 | a reconcile does not err unless some answer is missing, a write is refused, or the namespace of a Stack that is not deleted is going away |
| History.LastUpdateSumsUp | operator/internal/controller/pulumi/stack_controller.go:1120-1189 | in every reachable state resyncTime is the time at which the last Update was absorbed, failures counts the failures in a row at its generation and request, and lastSuccessfulCommit is that of the last success |
| History.FailureStartsDelay | operator/internal/controller/pulumi/stack_controller.go:1120-1144 | the reconcile that absorbs a failure as asked for leaves the Stack cooling down from that very time |
| History.NoRetryTooEarly | operator/internal/controller/pulumi/stack_controller.go:1291-1304 | in every run with unchanged inputs, no reconcile that decides before the delay for the failure has passed creates an Update, nor any after the third retry |
| History.FirstRetryIsLate | operator/internal/controller/pulumi/stack_controller.go:1291-1304 | so with a clock that does not go back, the first Update after a failure is created no earlier than the delay after its absorption, and only if fewer than 3 failures count |
| StackProofs.SaveIsGood | operator/internal/controller/pulumi/stack_controller.go:570-618 | a status write of a well-formed status keeps every invariant and moves the unsaved absorption into the store, refused or not |
| StackProofs.ReconcileIsGood | operator/internal/controller/pulumi/stack_controller.go:523-1081 | any one reconcile, with any answers and refused writes, keeps the invariants, touches nothing of an existing Update but its finalizer, and drops the Stack's finalizer only when justified |
| Runs.NextKeepsInv | operator/internal/controller/pulumi/stack_controller.go:523-1081 | every event of either controller or of its environment keeps the invariants |
| Runs.UpdateEventTouchesUpdatesOnly | operator/internal/controller/auto/update_controller.go:96-251 | a step of the Update reconciler leaves the Stack alone, and so a completed status and an Update's finalizer |
| Safety.AtMostOnceExecution | operator/internal/controller/auto/update_controller.go:146-177 | in every run one Update opens at most one operation stream, and once it has its stored status is not one from which it can start |
| Safety.VerdictsAreSound | operator/internal/controller/auto/update_controller.go:116-205 | in every reachable state the stored triple is one of the five legal ones, and "succeeded" means that the single stream delivered it, or broke with an error that is no gRPC status |
| Safety.CompleteIsAbsorbing | operator/internal/controller/auto/update_controller.go:116-139 | in every run, from the moment it is complete an Update keeps its status to the letter, until it is gone for good |
| Safety.ExactlyOnceAbsorption | operator/internal/controller/pulumi/stack_controller.go:620-657 | in every reachable state LastUpdate is the fold of the absorbed Updates, absorbed in creation order, each once, with the verdict, message and permalink with which it was stored as complete |
| Safety.LastUpdateTellsTheTruth | operator/internal/controller/pulumi/stack_controller.go:1120-1189 | in every reachable state LastUpdate failed or succeeded as its Update did when it completed, with its message, permalink and type, and names the commit, generation and request it was created for |
| Safety.FinalizerOutlastsAbsorption | operator/internal/controller/pulumi/stack_controller.go:604-617 | in every run under policy Retain, an Update that got its finalizer has it in every later state until a saved status has absorbed it |
| Safety.AbsorptionIsPermanent | operator/internal/controller/pulumi/stack_controller.go:570-618 | in every run the absorbed history only grows |
| Safety.SingleFlightHolds | operator/internal/controller/pulumi/stack_controller.go:1051-1080 | in every reachable state at most one Update that was not left behind is incomplete, and CurrentUpdate names it |
| Safety.OneOperationAtATime | operator/internal/controller/pulumi/stack_controller.go:1051-1080 | the same of operations under way, even where the object is gone |
| Safety.SingleFlightExactly | operator/internal/controller/pulumi/stack_controller.go:1070-1077 | in every reachable state single flight holds iff every Update left behind and still stored is complete |
| Safety.LeaksExactly | operator/internal/controller/pulumi/stack_controller.go:1057-1077 | a reconcile leaves behind the Update it creates iff the finalizer is refused, CurrentUpdate is cleared, and the deletion fails or comes after the operation began; and never another |
| Safety.LeavingStep | operator/internal/controller/pulumi/stack_controller.go:1057-1077 | in every run, only such a reconcile leaves an Update behind |
| Safety.DestroyBeforeRelease | operator/internal/controller/pulumi/stack_controller.go:812-833 | in every step of every run, the finalizer leaves only a deleted Stack, and if a destroy is asked for only after a destroy at its generation and request was delivered, or with no recorded update and a stalled workspace, in which case nothing was ever run iff nothing was for an Update left behind |
| Safety.ReleasedStaysReleased | operator/internal/controller/pulumi/stack_controller.go:541-545 | in every run, once the finalizer has left a deleted Stack it never comes back, and no Update is created or absorbed and no status written for it any more |
| Safety.ReadyIsSound | operator/internal/controller/pulumi/stack_controller.go:1096-1117 | every stored status obeys the ready protocol, and unless the Stack is being deleted Ready=True means a succeeded update at the observed generation and request |
| Stuck.StuckForEver | operator/internal/controller/pulumi/stack_controller.go:620-643 | a Stack whose current Update is gone, or complete with a generation that moved on, keeps its finalizer and creates and absorbs nothing, through any run |
| Stuck.StuckExactly | operator/internal/controller/pulumi/stack_controller.go:620-643 | from a reachable state of a Stack that still exists, no run ever absorbs another Update iff the Stack is stuck like that; from any other state there is a run that does |
| Stuck.CreatingGetsStuck | operator/internal/controller/pulumi/stack_controller.go:1051-1077 | a reconcile that comes to create an Update gets the Stack stuck iff CurrentUpdate was saved and cannot be cleared, and the Update was not created, or deleted for want of its finalizer |
| Leak.TwoUpdatesInFlight | operator/internal/controller/pulumi/stack_controller.go:1070-1077 | a concrete run with two incomplete Updates of one Stack |
| Leak.ReleasedWithoutDestroy | operator/internal/controller/pulumi/stack_controller.go:1003-1011 | a concrete run that releases a Stack which asked for a destroy, after an operation and without one |
| Leak.TwoOperationsUnderWay | operator/internal/controller/pulumi/stack_controller.go:1070-1077 | a concrete run with two operations at once, although the deletion of the first Update worked |
| Leak.StuckByCrash | operator/internal/controller/pulumi/stack_controller.go:1051-1067 | a concrete run into the endless wait, by a crash |
| Leak.StuckByFinalizer | operator/internal/controller/pulumi/stack_controller.go:1070-1077 | a concrete run into the endless wait, by a refused finalizer |
| Leak.StuckByDeletion | operator/internal/controller/pulumi/stack_controller.go:636-643 | a concrete run into the endless wait, by a deletion during the operation, which succeeds |
| Retries.FrozenStep | operator/internal/controller/pulumi/stack_controller.go:1230-1310 | with unchanged inputs every event pays for the Updates it creates from a budget of retries, whatever the verdicts |
| Retries.BoundedRetries | operator/internal/controller/pulumi/stack_controller.go:1091-1091 | from any reachable state, with unchanged inputs and no periodic resync, at most maxUpdateFailures + 1 more Updates are created, besides those whose finalizer could not be added |
| Retries.NothingLeftMeansSynced | operator/internal/controller/pulumi/stack_controller.go:1230-1310 | no retry is left iff isSynced holds at every time |
| Retries.Quiescence | operator/internal/controller/pulumi/stack_controller.go:1230-1310 | once the budget is spent no run creates another Update, and without an outstanding one the Stack stays in sync for ever |
| Prerequisites.ReadyMeetsRequirement | operator/internal/controller/pulumi/stack_controller.go:297-318 | isStackReady implies isRequirementSatisfied(nil) for a Stack that is not being deleted; with a duration only the age can be held against it |
| Prerequisites.VerdictsMean | operator/internal/controller/pulumi/stack_controller.go:297-318 | met iff LastUpdate is at the generation and request, succeeded, and is no older than asked for; each of the three errors iff the first of these that fails |
| Prerequisites.AllMetExactly | operator/internal/controller/pulumi/stack_controller.go:905-954 | no prerequisite is found wanting iff each is there and its LastUpdate succeeded as asked; exactly those whose success is too old are asked to run again |
| Prerequisites.PrerequisiteChecker.Check | operator/internal/controller/pulumi/stack_controller.go:905-954 | the loop finds none wanting iff each prerequisite is there and its LastUpdate succeeded at its generation and request, no older than asked for; it ends with exactly the names of those wanting, has asked every stale one, and no other, to run again, and breaks off only where one cannot be read or asked |
| Looks.UndisturbedLooks | operator/internal/controller/pulumi/stack_controller.go:905-954 | the looks of a reconcile in the fleet, if not disturbed, meet the contract of that loop |
| Requests.ReconcileEndsWell | operator/internal/controller/pulumi/stack_controller.go:523-1081 | a reconcile records only the request it observed, absorbs at most the current Update, and comes to rest with no claim to be waiting unless it looked at prerequisites |
| Requests.ReconcileAroundPrerequisites | operator/internal/controller/pulumi/stack_controller.go:898-970 | a reconcile can be cut where it begins to look at the prerequisites |
| FleetProofs.NeverServesItself | operator/internal/controller/pulumi/stack_controller.go:933-936 | no update serves the request to run again after itself |
| FleetProofs.PutKeepsFleet | operator/internal/controller/pulumi/stack_controller.go:364-390 | whatever change of a Stack the watches see, who waits is either woken or has reason to wait on |
| FleetProofs.NextKeepsFleet | operator/internal/controller/pulumi/stack_controller.go:109-166 | every event of any Stack, look by look, keeps the fleet's invariant |
| FleetProofs.NoLostWakeUp | operator/internal/controller/pulumi/stack_controller.go:905-970 | in every reachable state a Stack that says it waits, and is neither queued nor being reconciled, waits for a prerequisite that is not ready, missing or being deleted, whatever the durations and the interleaving |
| FleetProofs.AwakeningReachesDependents | operator/internal/controller/pulumi/stack_controller.go:147-166 | the event that makes a Stack ready, or removes it, puts every dependent into the work queue |
| FleetProofs.LaunchesOnSatisfied | operator/internal/controller/pulumi/stack_controller.go:905-970 | in every run, an Update of a Stack that is not deleted is created only by a reconcile that looked at every prerequisite in its spec and each time found a LastUpdate that succeeded at its generation and request, no older than asked for |
| FleetProofs.LookSees | operator/internal/controller/pulumi/stack_controller.go:907-917 | what a look has seen is the prerequisite as it was stored at that instant |
| Asks.NoRequestOverlooked | operator/internal/controller/pulumi/stack_controller.go:109-146 | in every reachable state of a fleet, a Stack that is neither queued nor being reconciled has observed the request that stands, a user's or a dependent's, and one being reconciled works on it or is queued again |
| FleetProofs.NoThrashing | operator/internal/controller/pulumi/stack_controller.go:928-954 | the requests dependents write follow ever later completed Updates, at most one each, unless a user restored a served request |
| FleetProofs.AsksAgainExactly | operator/internal/controller/pulumi/stack_controller.go:928-954 | in every reachable state a dependent repeats a request written before iff the last one written was taken back unserved, which takes a user who restored the served request |
| FleetProofs.RestoringThrashes | operator/internal/controller/pulumi/stack_controller.go:928-954 | from any state, after such a write a dependent that finds the prerequisite stale writes the same request again |
| Thrash.ThrashingIsReachable | operator/internal/controller/pulumi/stack_controller.go:928-954 | a concrete run of three Stacks in which the same request is written twice |
| ConfigGate.HasJsonConfigInWorkspace | operator/internal/controller/auto/workspace_controller.go:1095-1113 | true iff some item of some stack has a value that does not begin with a quote, or a source marked as JSON |
| ConfigGate.MarshalConfigItem | operator/internal/controller/auto/utils.go:35-80 | a source overrides a value, invalid JSON is refused, a path with a structured value is refused |
| ConfigGate.MessageSays | operator/internal/controller/auto/utils.go:35-80 | a message has the key, path and secret flags of its item; its source if the item has one, an environment variable before a path, else the decoded value |
| ConfigGate.RefusedExactly | operator/internal/controller/auto/utils.go:48-55 | an item is refused iff its value is no JSON, or it is a path whose value is structured |
| ConfigGate.MarshalAllEach | operator/internal/controller/auto/workspace_controller.go:371-381 | a list is marshalled item by item, and refused iff one of them is |
| ConfigGate.ChooseRoute | agent/pkg/server/server.go:325-332 | the agent takes the JSON route iff some message holds or asks for JSON |
| ConfigGate.ItemGate | operator/internal/controller/auto/workspace_controller.go:1095-1113 | an item that the agent will find to be JSON has forced the operator's check |
| ConfigGate.GateIsSound | operator/internal/controller/auto/workspace_controller.go:285-320 | if the agent takes the JSON route for some stack, the operator had forced the version check, for every decoder that tells strings by their quote |
| ConfigGate.GateExcess | operator/internal/controller/auto/workspace_controller.go:1095-1113 | exactly which items force the check without need |
| AgentConfig.UnmarshalConfigItems | agent/pkg/server/server.go:381-422 | fails iff some message does; else the last message for each key decides, and no key is lost or made up |
| AgentConfig.UnmarshalConfigItemsJson | agent/pkg/server/server.go:447-541 | fails iff some message does; else the last message for each key decides, and no key is lost or made up |
| AgentConfig.SetAllConfig | agent/pkg/server/server.go:314-372 | which route is taken; every key is set as the last message for it says, secret iff that message carries secret, structured iff it is JSON, and the key of every message is set; rejected iff some message is unfit for the route |
| AgentConfig.EntriesFit | agent/pkg/server/server.go:381-541 | on both routes, a message is set as what fits it and nothing else: its key within the project, escaped among paths unless it is one, its own text or what its source yields, secret iff the message says so, structured iff it is JSON |
| AgentConfig.UnfitHasNoSetting | agent/pkg/server/server.go:381-541 | a message is refused iff nothing fits it |
| AgentConfig.SecretsStaySecret | agent/pkg/server/server.go:1065-1094 | from the Workspace to the CLI, by either route: a key is set as secret iff the last item for it is marked secret |
| AgentConfig.RouteMatters | agent/pkg/server/server.go:381-541 | both routes set the same value under the same verbatim key iff the item is not null and its key neither is a path nor looks escaped |
| AgentConfig.OperatorRefusesPathsFirst | operator/internal/controller/auto/utils.go:48-55 | of the items the operator sends on, the agent refuses a path for being JSON iff its source is marked as JSON; a path with a plain value it accepts |
| WorkspaceController.WorkspaceReconciler.InitializeStacks | operator/internal/controller/auto/workspace_controller.go:357-417 | the loop over the stacks, stopping at the first failure |
| WorkspaceController.WorkspaceReconciler.Reconcile | operator/internal/controller/auto/workspace_controller.go:91-434 | one reconcile of the Workspace, performed step by step |
| WorkspaceController.FailureStands | operator/internal/controller/auto/workspace_controller.go:357-417 | once a call has failed no later stack is touched |
| WorkspaceOutcomes.NothingToInitialize | operator/internal/controller/auto/workspace_controller.go:132-246 | deleted, rolling, waiting for replicas, unconnected, or initialised already: just Ready is stored, with that reason, for the present generation; else nothing |
| WorkspaceOutcomes.ReconcileTells | operator/internal/controller/auto/workspace_controller.go:246-434 | a pod that is not initialised: an attempt is made iff the version is known and, if some item needs JSON, is 3.202.0 or later; it succeeds iff every item can be sent and the agent answers every planned call; then, and only then, the pod is annotated and Ready=True stored; else the Workspace is stalled with the reason for which it failed |
| WorkspaceOutcomes.VersionTells | operator/internal/controller/auto/workspace_controller.go:285-320 | in every run, a Workspace that is ready at its present generation with configuration that needs JSON shows a version of 3.202.0 or later, and one stalled as incompatible shows one that is not |
| WorkspaceProofs.InitStacksFollow | operator/internal/controller/auto/workspace_controller.go:357-417 | the calls made are a first part of select, config, environments for every stack in order, and all of them iff none failed |
| WorkspaceProofs.ReconcileKeepsInv | operator/internal/controller/auto/workspace_controller.go:246-434 | any reconcile keeps the invariant that ties the annotation, the status and the calls made in the pod |
| WorkspaceProofs.ReadyMeansInitialized | operator/internal/controller/auto/workspace_controller.go:246-434 | in every reachable state Ready=True excludes Stalled and has behind it a pod of the observed generation in which one reconcile made every planned call before annotating it |
| WorkspaceProofs.JsonOnlyWhereSupported | operator/internal/controller/auto/workspace_controller.go:285-320 | in every run the agent is asked for the JSON route only where the CLI had reported version 3.202.0 or later |
| WorkspaceProofs.InitializedOnce | operator/internal/controller/auto/workspace_controller.go:246-251 | an annotated pod is not initialised again, and is annotated only by a reconcile that completed the plan |
| TokenCache.CachingTokenSource.Token | agent/pkg/client/credentials.go:156-189 | a cached token that outlasts the given time by more than 5 minutes, else the base source's, which is cached with its time, else the stale one; no token iff none is cached and the base source fails |
| TokenCache.CachingTokenSource.ResetTokenOlderThan | agent/pkg/client/credentials.go:191-201 | the token is dropped iff it was stored before the given time |
| TokenCache.ServiceAccount.TokenSource | agent/pkg/client/credentials.go:74-94 | everyone asking for an audience gets the same source until it is pruned |
| TokenCache.ServiceAccount.Prune | agent/pkg/client/credentials.go:96-109 | in any order of the map, exactly the entries last used before the given time go, and their number is returned |
| TokenThreads.BaseIsCalledAlone | agent/pkg/client/credentials.go:170-188 | under any interleaving the base source is at work for one caller at most, with nobody else holding the lock |
| TokenThreads.OneRefreshServesAll | agent/pkg/client/credentials.go:170-188 | after a refresh the base source is not called for any caller whose captured time lies more than 5 minutes before the new expiry, unless the token was reset or replaced |
| TokenThreads.ReturnedWasCached | agent/pkg/client/credentials.go:156-189 | what a call returns was the cached token at some instant of that call, and outlasts its captured time by more than 5 minutes if it was found in the cache; none only if the base source failed |
| TokenThreads.ResetSparesTheNew | agent/pkg/client/credentials.go:191-201 | a reset drops the cached token iff that was stored before the limit, so never one stored for a caller who began at the limit or later |
| TokenThreads.AloneIsTokenCall | agent/pkg/client/credentials.go:156-189 | the steps of an undisturbed caller amount to the sequential method |
| Watches.FluxWatcher.MaybeWatchFluxSourceKind | operator/internal/controller/pulumi/stack_controller.go:258-292 | a kind is marked before its watch is installed, and unmarked after that failed; a marked kind is left alone |
| Watches.OneWatchPerKind | operator/internal/controller/pulumi/stack_controller.go:252-292 | under any interleaving each kind has at most one watch, and is marked iff it has one or exactly one caller is at work on it, never both |
| Watches.WatchStays | operator/internal/controller/pulumi/stack_controller.go:252-292 | an installed watch and its mark are never taken back |
| Watches.OwnInstallStands | operator/internal/controller/pulumi/stack_controller.go:271-291 | a caller that installed the watch itself has one in every later state |
| Watches.NilMeansWatch | operator/internal/controller/pulumi/stack_controller.go:262-291 | a caller that finds the kind marked returns nil with a watch behind it, then and ever after, iff no other caller is at work on the kind |
| Watches.NilWithoutWatch | operator/internal/controller/pulumi/stack_controller.go:264-289 | a concrete run in which a caller gets nil and there is no watch |

## Left out

Assumptions of the model:

- Reconciles of one object are serial, and what they read is the latest store; informer caches that lag behind are not modelled.
- Nothing but the reconcile itself changes a Stack during its reconcile, except that in the fleet its request annotation may change while the prerequisites are looked at. The Update reconciler may take any steps on a new Update between its creation and its finalizer or deletion.
- A crash is a reconcile all of whose later writes are refused; a write either happens or does not, and its caller learns which.
- Names of Updates are fresh, and identified by the order in which they were made; the Stack's own finalizer is added and removed by the operator only; users do not edit Updates; no UpdateTemplate or WorkspaceTemplate is set.
- A deleted object without the operator's finalizer is gone; other finalizers are not modelled. Adding the finalizer may or may not change the generation.
- A pod is replaced only between reconciles of its Workspace, and carries the revision of the generation it was made from: the source hash is taken to tell generations apart.
- Listing the dependents of a Stack does not fail, and every change that a watch passes is delivered.

Not modelled:

- Messages of conditions, transition times, events, logs, metrics, and the start and end times of operations.
- Times and durations are integers: no float64 or int64 overflow. The stepping backoff of the client library is written out as a class.
- The TTL of a completed Update is one bit, whether it has expired, chosen freely each time.
- Resolving a source (git, Flux, Program), setting up the workspace spec and reading the environment are answers: found, invalid, missing or broken.
- Server-side apply, strategic merge patches and field ownership, beyond "an omitted status field is cleared".
- When a Workspace or an Update reconcile comes back after it ends: either may run again at any time.
- The Workspace's conditions are two optional fields rather than a list; the order of the calls to the agent is history.
- JSON is known by its first character only; keys of configuration and their quoting are library functions of which nothing is assumed but that a quoted text is longer.
- The output Secret is created and found by name without further checks; its annotation is taken to survive its JSON encoding.
- Safety.DestroyBeforeRelease: "delivered" includes a stream that broke with an error that is no gRPC status, which the code records as a success; where no stream breaks like that it means that the stream delivered a result that did not fail.
- Retries.BoundedRetries: an Update whose finalizer could not be added is not counted, because no verdict of it is ever absorbed.
- FleetProofs.NoLostWakeUp: says that a dependent is in the queue when it should be, not that the queue is served in time; and users are taken not to write the "after-" values with which dependents ask for a resync.
- FleetProofs.NeverServesItself: rests on the same assumption about what users write.
- tokenCredentials.GetRequestMetadata, the program and webhook code, authentication of agent calls, and generated code: plumbing without a hard property.
