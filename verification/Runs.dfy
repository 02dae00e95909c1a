/**
 Runs: any interleaving of Stack reconciles, the phases of Update reconciles, crashes, user edits and
 whatever else may happen to the objects; and what holds in every state and every step of every run.
 */
module Runs {
  import opened Prelude
  import opened ReadyProtocol
  import opened StackModel
  import opened Sync
  import opened UpdateStream
  import opened UpdateController
  import opened ClusterState
  import opened UpdateSteps
  import opened StackController
  import opened Invariants
  import opened UpdateProofs
  import opened StackProofs

  datatype Event =
    | StackReconcile(i: Input)
    | UpdateBegin(n: UpdateName, ttlExpired: bool, deleteOk: bool, writeOk: bool)
    | UpdateDial(n: UpdateName, d: Dialled, writeOk: bool)
    | UpdateFinish(n: UpdateName, secretCreated: bool, writeOk: bool)
    | Crash                                  // the operator's memory is lost
    | EditSpec(spec: StackSpec)
    | DeleteStack
    | Annotate(request: Request)             // by a user, or by a dependent asking for a resync
    | WorkspaceChange(ws: Option<Workspace>)
    | DeleteUpdate(n: UpdateName)
    | OrphanUpdate(n: UpdateName)

  function Next(w: Cluster, e: Event): Cluster {
    match e
    case StackReconcile(i) => Reconcile(w, i).0
    case UpdateBegin(n, ttlExpired, deleteOk, writeOk) => BeginUpdate(w, n, ttlExpired, deleteOk, writeOk)
    case UpdateDial(n, d, writeOk) => DialUpdate(w, n, d, writeOk)
    case UpdateFinish(n, secretCreated, writeOk) => FinishUpdate(w, n, secretCreated, writeOk)
    case Crash => w.(running := map[])
    case EditSpec(spec) => w.(stack := w.stack.(spec := spec, generation := w.stack.generation + 1))
    case DeleteStack =>
      if w.stack.deleted then w else w.(stack := w.stack.(deleted := true, generation := w.stack.generation + 1))
    case Annotate(request) => w.(stack := w.stack.(request := request))
    case WorkspaceChange(ws) => w.(workspace := ws)
    case DeleteUpdate(n) => MarkUpdateDeleted(w, n)
    case OrphanUpdate(n) =>
      if n in w.updates then w.(updates := w.updates[n := w.updates[n].(orphaned := true)]) else w
  }

  ghost predicate LeadsTo(w: Cluster, w': Cluster) {
    exists e :: w' == Next(w, e)
  }

  ghost predicate StepAt(t: seq<Cluster>, k: nat)
    requires k + 1 < |t|
  {
    LeadsTo(t[k], t[k + 1])
  }

  // The states of a run, one after another.
  ghost predicate Continues(t: seq<Cluster>) {
    |t| > 0 && forall k :: 0 <= k < |t| - 1 ==> StepAt(t, k)
  }

  ghost predicate IsRun(t: seq<Cluster>) {
    Continues(t) && exists spec :: t[0] == Initial(spec)
  }

  ghost predicate Reachable(w: Cluster) {
    exists t :: IsRun(t) && w == t[|t| - 1]
  }

  /*** Every event keeps the invariants ***/

  lemma StackChangeKeepsInv(w: Cluster, stack: Stack)
    requires Inv(w) && stack.status == w.stack.status && stack.finalizer == w.stack.finalizer
    requires stack.generation > w.stack.generation
             || (stack.generation == w.stack.generation && stack.deleted == w.stack.deleted)
    requires w.stack.deleted ==> stack.deleted
    ensures Inv(w.(stack := stack))
  {
    var w' := w.(stack := stack);
    forall n ensures NameInv(w', n) { assert NameInv(w, n); }
    forall a | a in w.absorbed ensures AbsorptionInv(w', a) { assert AbsorptionInv(w, a); }
  }

  lemma CrashKeepsInv(w: Cluster)
    requires Inv(w)
    ensures Inv(w.(running := map[]))
  {
    var w' := w.(running := map[]);
    forall n ensures NameInv(w', n) { assert NameInv(w, n); }
    forall a | a in w.absorbed ensures AbsorptionInv(w', a) { assert AbsorptionInv(w, a); }
  }

  lemma NextKeepsInv(w: Cluster, e: Event)
    requires Inv(w)
    ensures Inv(Next(w, e))
  {
    match e
    case StackReconcile(i) => ReconcileIsGood(w, i);
    case UpdateBegin(n, ttlExpired, deleteOk, writeOk) => BeginKeepsInv(w, n, ttlExpired, deleteOk, writeOk);
    case UpdateDial(n, d, writeOk) => DialKeepsInv(w, n, d, writeOk);
    case UpdateFinish(n, secretCreated, writeOk) => FinishKeepsInv(w, n, secretCreated, writeOk);
    case Crash => CrashKeepsInv(w);
    case WorkspaceChange(ws) => WorkspaceIsFree(w, ws);
    case DeleteUpdate(n) => MarkDeletedKeepsInv(w, n);
    case _ => OutsideEventKeepsInv(w, e);
  }

  lemma OutsideEventKeepsInv(w: Cluster, e: Event)
    requires Inv(w) && (e.EditSpec? || e.DeleteStack? || e.Annotate? || e.OrphanUpdate?)
    ensures Inv(Next(w, e))
  {
    if e.OrphanUpdate? {
      FewerUpdatesKeepInv(w, Next(w, e).updates);
      assert Next(w, e) == w.(updates := Next(w, e).updates);
    } else {
      StackChangeKeepsInv(w, Next(w, e).stack);
      assert Next(w, e) == w.(stack := Next(w, e).stack);
    }
  }

  // What any one event may do.
  ghost predicate GoodStep(w: Cluster, w': Cluster) {
    && w.absorbed <= w'.absorbed
    && Keeps(w, w')
    && (forall n :: CompleteKept(w, w', n) && GoneKept(w, w', n))
    && (w.stack.finalizer && !w'.stack.finalizer ==> Justified(w, w'))
  }

  // An Update that is gone does not come back.
  predicate GoneKept(w: Cluster, w': Cluster, n: UpdateName) {
    n in w.executions ==> n in w'.executions && (n !in w.updates ==> n !in w'.updates)
  }

  lemma ReconcileIsGoodStep(w: Cluster, w': Cluster)
    requires Inv(w) && GoodReconcile(w, w')
    ensures GoodStep(w, w')
  {
    forall n ensures CompleteKept(w, w', n) && GoneKept(w, w', n) { assert NameInv(w, n) && Untouched(w, w', n); }
  }

  predicate IsUpdateEvent(e: Event) {
    e.UpdateBegin? || e.UpdateDial? || e.UpdateFinish? || e.DeleteUpdate? || e.OrphanUpdate?
  }

  lemma UpdateEventTouchesUpdatesOnly(w: Cluster, e: Event)
    requires Inv(w) && IsUpdateEvent(e)
    ensures UpdatesOnly(w, Next(w, e))
  {
    match e
    case UpdateBegin(n, ttlExpired, deleteOk, writeOk) => BeginTouchesUpdatesOnly(w, n, ttlExpired, deleteOk, writeOk);
    case UpdateDial(n, d, writeOk) => DialTouchesUpdatesOnly(w, n, d, writeOk);
    case UpdateFinish(n, secretCreated, writeOk) => FinishTouchesUpdatesOnly(w, n, secretCreated, writeOk);
    case DeleteUpdate(n) => MarkDeletedTouchesUpdatesOnly(w, n);
    case OrphanUpdate(n) => assert UpdatesOnly(w, Next(w, e));
  }

  lemma OtherEventIsGoodStep(w: Cluster, e: Event)
    requires Inv(w) && !e.StackReconcile?
    ensures GoodStep(w, Next(w, e))
  {
    if IsUpdateEvent(e) { UpdateEventTouchesUpdatesOnly(w, e); }
  }

  lemma NextIsGoodStep(w: Cluster, e: Event)
    requires Inv(w)
    ensures GoodStep(w, Next(w, e)) && Inv(Next(w, e))
  {
    NextKeepsInv(w, e);
    if e.StackReconcile? {
      ReconcileIsGood(w, e.i);
      ReconcileIsGoodStep(w, Reconcile(w, e.i).0);
    } else {
      OtherEventIsGoodStep(w, e);
    }
  }

  lemma InitialInv(spec: StackSpec)
    ensures Inv(Initial(spec))
  {}

  lemma {:induction false} RunKeepsInv(t: seq<Cluster>, k: nat)
    requires Continues(t) && Inv(t[0]) && k < |t|
    ensures Inv(t[k])
  {
    if k > 0 {
      RunKeepsInv(t, k - 1);
      assert StepAt(t, k - 1);
      LeadKeepsInv(t[k - 1], t[k]);
    }
  }

  lemma LeadKeepsInv(w: Cluster, w': Cluster)
    requires LeadsTo(w, w') && Inv(w)
    ensures Inv(w')
  {
    var e :| w' == Next(w, e);
    NextKeepsInv(w, e);
  }

  lemma RunInv(t: seq<Cluster>, k: nat)
    requires IsRun(t) && k < |t|
    ensures Inv(t[k])
  {
    var spec :| t[0] == Initial(spec);
    InitialInv(spec);
    RunKeepsInv(t, k);
  }

  lemma ReachableInv(w: Cluster)
    requires Reachable(w)
    ensures Inv(w)
  {
    var t :| IsRun(t) && w == t[|t| - 1];
    RunInv(t, |t| - 1);
  }

  // Every step of every run is a good one.
  lemma RunIsGood(t: seq<Cluster>, k: nat)
    requires IsRun(t) && k + 1 < |t|
    ensures Inv(t[k]) && Inv(t[k + 1]) && GoodStep(t[k], t[k + 1])
  {
    RunInv(t, k);
    assert StepAt(t, k);
    var e :| t[k + 1] == Next(t[k], e);
    NextIsGoodStep(t[k], e);
  }
}
