/** Concrete runs in which things go wrong: an Update is left behind, or a Stack comes to wait for ever. */
module Leak {
  import opened Prelude
  import opened ReadyProtocol
  import opened StackModel
  import opened Sync
  import opened Outputs
  import opened UpdateStream
  import opened UpdateController
  import opened ClusterState
  import opened UpdateSteps
  import opened StackController
  import opened Invariants
  import opened StackProofs
  import opened Runs
  import opened Safety
  import opened Stuck

  const NO_FINALIZER_NO_DELETE := SMOOTH.(finalizeUpdateOk := false, deleteUpdateOk := false)

  const STALLED_WORKSPACE := Workspace(1, 1, false, false, Some(OtherStall("InstallationFailed")))

  lemma ReachableNext(w: Cluster, e: Event)
    requires Reachable(w)
    ensures Reachable(Next(w, e))
  {
    var t :| IsRun(t) && w == t[|t| - 1];
    var longer := t + [Next(w, e)];
    assert longer[|t| - 1] == w && longer[|t|] == Next(w, e);
    NextLeads(w, e);
    forall k | 0 <= k < |longer| - 1 ensures StepAt(longer, k) { assert k < |t| - 1 ==> StepAt(t, k); }
    assert IsRun(longer);
  }

  lemma InitialIsReachable(spec: StackSpec)
    ensures Reachable(Initial(spec))
  {
    assert IsRun([Initial(spec)]);
  }

  // A Stack that has its finalizer, was never updated, and is not being deleted.
  predicate Pristine(w: Cluster) {
    && w.stack.spec == SPEC && w.stack.finalizer && !w.stack.deleted
    && w.stack.status.lastUpdate.None? && w.stack.status.currentUpdate.None?
    && w.workspace == Some(READY_WORKSPACE) && w.nextName == 0
    && w.updates == map[] && w.running == map[] && w.executions == map[]
  }

  // An Update that no one waits for.
  predicate Abandoned(w: Cluster) {
    && w.stack.spec == SPEC && w.stack.finalizer && !w.stack.deleted && 0 in w.leaked
    && w.stack.status.lastUpdate.None? && w.stack.status.currentUpdate.None?
    && w.workspace == Some(READY_WORKSPACE) && w.nextName == 1
    && w.updates == map[0 := NewUpdate(UpType)] && w.running == map[]
    && 0 in w.executions && w.executions[0].typ == UpType && w.executions[0].streams == []
  }

  lemma PristineIsReachable() returns (w: Cluster)
    ensures Reachable(w) && Pristine(w)
  {
    var w0 := Initial(SPEC);
    InitialIsReachable(SPEC);
    ReachableNext(w0, StackReconcile(SMOOTH));
    var w1 := Next(w0, StackReconcile(SMOOTH));
    ReachableNext(w1, WorkspaceChange(Some(READY_WORKSPACE)));
    w := Next(w1, WorkspaceChange(Some(READY_WORKSPACE)));
  }

  lemma AbandonedIsReachable() returns (w: Cluster)
    ensures Reachable(w) && Abandoned(w)
  {
    var w0 := PristineIsReachable();
    ReachableNext(w0, StackReconcile(NO_FINALIZER_NO_DELETE));
    w := Next(w0, StackReconcile(NO_FINALIZER_NO_DELETE));
  }

  /** Single flight fails: two incomplete Updates of one Stack at the same time. */
  lemma TwoUpdatesInFlight() returns (w: Cluster)
    ensures Reachable(w)
    ensures 0 in w.updates && w.updates[0].status.complete != Yes
    ensures 1 in w.updates && w.updates[1].status.complete != Yes
  {
    var w0 := AbandonedIsReachable();
    ReachableNext(w0, StackReconcile(SMOOTH));
    w := Next(w0, StackReconcile(SMOOTH));
  }

  // An operation that goes on although its Update was deleted at once and no one waits for it.
  predicate Runaway(w: Cluster) {
    && w.stack.spec == SPEC && w.stack.finalizer && !w.stack.deleted
    && w.stack.status.lastUpdate.None? && w.stack.status.currentUpdate.None?
    && w.workspace == Some(READY_WORKSPACE) && w.nextName == 1
    && w.updates == map[] && 0 in w.running && 1 !in w.running
  }

  const BEGUN_AT_ONCE := SMOOTH.(finalizeUpdateOk := false, meanwhile := [BeginStep(true)])

  // The Update begins before its finalizer is refused, and the deletion comes too late.
  lemma BegunAtOnce(s: Session, c: CurrentUpdate)
    requires s.pending.None? && s.unsaved.None? && c.name == 0 && s.w.updates == map[] && s.w.running == map[]
    ensures var w' := CreateObject(s, c, BEGUN_AT_ONCE).0;
            && w'.updates == map[] && 0 in w'.running && 1 !in w'.running
            && w'.stack == s.w.stack.(status := s.status.(currentUpdate := None))
            && w'.workspace == s.w.workspace && w'.nextName == s.w.nextName
  {
    var w := Created(s.w, c, NextType(s.w.stack));
    var steps := BEGUN_AT_ONCE.meanwhile;
    assert steps[..0] == [];
    assert Meanwhile(w, 0, steps) == StepUpdate(w, 0, BeginStep(true));
  }

  lemma RunawayIsReachable() returns (w: Cluster)
    ensures Reachable(w) && Runaway(w)
  {
    var w0 := PristineIsReachable();
    ReachableNext(w0, StackReconcile(BEGUN_AT_ONCE));
    w := Next(w0, StackReconcile(BEGUN_AT_ONCE));
    var s := Observe(w0, w0.stack);
    var s1 := Save(Reconciling(s, StackProcessing), true, true);
    assert Reconcile(w0, BEGUN_AT_ONCE) == CreateStage(s1, BEGUN_AT_ONCE, "");
    var c := CurrentUpdate(s1.w.stack.generation, s1.status.observedRequest, 0, "");
    var s2 := Reconciling(s1, StackProcessing);
    var s3 := s2.(w := s2.w.(nextName := 1), status := s2.status.(currentUpdate := Some(c)));
    assert CreateStage(s1, BEGUN_AT_ONCE, "") == CreateObject(Save(s3, true, true), c, BEGUN_AT_ONCE);
    BegunAtOnce(Save(s3, true, true), c);
  }

  lemma AfterRunaway(w: Cluster) returns (w': Cluster)
    requires Reachable(w) && Runaway(w)
    ensures Reachable(w') && IsCurrent(w', 1) && 0 in w'.running && 1 !in w'.running && 0 !in w'.updates
    ensures 1 in w'.updates && w'.updates[1].status == FRESH && !w'.updates[1].deleted && !w'.updates[1].orphaned
    ensures 1 in w'.executions
  {
    ReachableNext(w, StackReconcile(SMOOTH));
    w' := Next(w, StackReconcile(SMOOTH));
  }

  /** Two operations at once, though the deletion of the first Update worked: it had begun before. */
  lemma TwoOperationsUnderWay() returns (w: Cluster)
    ensures Reachable(w) && 0 in w.running && 1 in w.running && 0 !in w.updates && IsCurrent(w, 1)
  {
    var w0 := RunawayIsReachable();
    var w1 := AfterRunaway(w0);
    ReachableNext(w1, UpdateBegin(1, false, true, true));
    w := Next(w1, UpdateBegin(1, false, true, true));
  }

  const DELIVERS: Script := [UpdateStream.Result(OpResult(None, "", None, false))]

  /*** Stacks that wait for ever ***/

  /** The operator crashed after it had saved CurrentUpdate, before it created the object. */
  lemma StuckByCrash() returns (w: Cluster)
    ensures Reachable(w) && IsStuck(w) && !w.stack.deleted && w.updates == map[]
  {
    var w0 := PristineIsReachable();
    var e := StackReconcile(SMOOTH.(createOk := false, saveUndoOk := false));
    ReachableNext(w0, e);
    w := Next(w0, e);
  }

  /** The Update was deleted for want of its finalizer, but CurrentUpdate could not be cleared. */
  lemma StuckByFinalizer() returns (w: Cluster)
    ensures Reachable(w) && IsStuck(w) && !w.stack.deleted && 0 !in w.updates && 0 in w.executions
  {
    var w0 := PristineIsReachable();
    var e := StackReconcile(SMOOTH.(finalizeUpdateOk := false, saveUndoOk := false));
    ReachableNext(w0, e);
    w := Next(w0, e);
  }

  // An Update is under way, and its Stack waits for it.
  predicate Waiting(w: Cluster) {
    && w.stack.finalizer && !w.stack.deleted && IsCurrent(w, 0) && w.workspace == Some(READY_WORKSPACE)
    && 0 in w.updates && w.updates[0].generation == 1 && w.updates[0].finalizer && !w.updates[0].deleted
    && 0 in w.executions
    && 0 in w.running && w.running[0].Starting? && w.running[0].generation == 1 && InFlight(w.running[0].status)
  }

  lemma WaitingIsReachable() returns (w: Cluster)
    ensures Reachable(w) && Waiting(w)
  {
    var w0 := PristineIsReachable();
    ReachableNext(w0, StackReconcile(SMOOTH));
    var w1 := Next(w0, StackReconcile(SMOOTH));
    ReachableNext(w1, UpdateBegin(0, false, true, true));
    w := Next(w1, UpdateBegin(0, false, true, true));
  }

  /** The Update was marked for deletion while its operation ran, and then it succeeded. */
  lemma StuckByDeletion() returns (w: Cluster)
    ensures Reachable(w) && IsStuck(w) && !w.stack.deleted
    ensures 0 in w.updates && DoneSucceeded(w.updates[0].status)
  {
    var w0 := WaitingIsReachable();
    var delete, dial, finish := DeleteUpdate(0), UpdateDial(0, Opened(DELIVERS), true), UpdateFinish(0, true, true);
    var w1 := Next(w0, delete);
    var w2 := Next(w1, dial);
    ReachableNext(w0, delete);
    ReachableNext(w1, dial);
    ReachableNext(w2, finish);
    w := Next(w2, finish);
  }

  /*** Destroy before release ***/

  // Deleted with a stalled workspace, after an operation that LastUpdate never heard of.
  predicate Forsaken(w: Cluster) {
    && w.stack.spec == SPEC && w.stack.finalizer && w.stack.deleted
    && w.stack.status.lastUpdate.None? && w.stack.status.currentUpdate.None?
    && w.workspace == Some(STALLED_WORKSPACE)
    && w.executions.Keys == {0} && w.executions[0].typ == UpType && w.executions[0].streams == [DELIVERS]
  }

  lemma StreamIsReachable() returns (w: Cluster)
    ensures Reachable(w) && w.stack.spec == SPEC && w.stack.finalizer && !w.stack.deleted
    ensures w.stack.status.lastUpdate.None? && w.stack.status.currentUpdate.None?
    ensures w.executions.Keys == {0} && w.executions[0].typ == UpType && w.executions[0].streams == [DELIVERS]
  {
    var w0 := AbandonedIsReachable();
    ReachableInv(w0);
    forall n | n in w0.executions ensures n == 0 { assert NameInv(w0, n); }
    var begin := UpdateBegin(0, false, true, true);
    ReachableNext(w0, begin);
    var w1 := Next(w0, begin);
    assert 0 in w1.running && w1.running[0].Starting? && w1.executions == w0.executions;
    var dial := UpdateDial(0, Opened(DELIVERS), true);
    ReachableNext(w1, dial);
    w := Next(w1, dial);
    assert w.executions[0].streams == [] + [DELIVERS];
  }

  lemma ForsakenIsReachable() returns (w: Cluster)
    ensures Reachable(w) && Forsaken(w)
  {
    var w0 := StreamIsReachable();
    ReachableNext(w0, DeleteStack);
    w := StalledIsReachable(Next(w0, DeleteStack));
  }

  lemma StalledIsReachable(w: Cluster) returns (w': Cluster)
    requires Reachable(w)
    ensures Reachable(w') && w' == w.(workspace := Some(STALLED_WORKSPACE))
  {
    ReachableNext(w, WorkspaceChange(Some(STALLED_WORKSPACE)));
    w' := Next(w, WorkspaceChange(Some(STALLED_WORKSPACE)));
  }

  /**
   Destroy before release fails: an update ran and delivered its result, yet a later delete takes the
   finalizer off a Stack that asks for a destroy, without one, because LastUpdate never heard of it.
   */
  lemma ReleasedWithoutDestroy() returns (w: Cluster, w': Cluster)
    ensures Reachable(w) && LeadsTo(w, w') && w.stack.finalizer && !w'.stack.finalizer
    ensures w.stack.spec.destroyOnFinalize && !w.stack.spec.preview
    ensures 0 in w.executions && w.executions[0].typ == UpType && w.executions[0].streams == [DELIVERS]
    ensures forall n :: n in w.executions ==> w.executions[n].typ != DestroyType
  {
    w := ForsakenIsReachable();
    NextLeads(w, StackReconcile(SMOOTH));
    w' := Next(w, StackReconcile(SMOOTH));
  }
}
