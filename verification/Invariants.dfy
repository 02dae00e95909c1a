/** What holds of a Stack, its Updates and its history in every reachable state. */
module Invariants {
  import opened Prelude
  import opened ReadyProtocol
  import opened StackModel
  import opened UpdateStream
  import opened UpdateController
  import opened ClusterState

  // Every stored status obeys the ready protocol, and Ready=True means what it says.
  ghost predicate StatusInv(st: Stack) {
    && (st.status.conditions == [] || WellFormed(st.status.conditions))
    && (!st.deleted && IsTrue(st.status.conditions, ReadyCondition) ==> SucceededAsObserved(st.status))
    && (!st.deleted && !st.finalizer ==> st.status.lastUpdate.None? && st.status.currentUpdate.None?)
    && st.status.observedGeneration <= st.generation
  }

  // The last update succeeded, at the observed generation and request.
  predicate SucceededAsObserved(status: StackStatus) {
    && status.lastUpdate.Some?
    && status.lastUpdate.value.state == SucceededState
    && status.lastUpdate.value.generation == status.observedGeneration
    && status.lastUpdate.value.request == status.observedRequest
  }

  // One stream at most, and its end is what the Update's conditions tell.
  ghost predicate UpdateInv(u: Update, e: Execution) {
    && u.typ == e.typ
    && LegalTriple(u.status)
    && (e.streams != [] ==> !Unstarted(u.status) && !Retryable(u.status))
    && (DoneSucceeded(u.status) ==> Delivered(e))
    && e.end == (if u.status.complete == Yes then Some(u.status) else None)
    && u.observedGeneration <= u.generation
  }

  // The one stream that was opened delivered a result that did not fail, or broke with a foreign error.
  ghost predicate Delivered(e: Execution) {
    |e.streams| == 1 && (DeliversSuccess(e.streams[0]) || BreaksForeign(e.streams[0]))
  }

  ghost predicate RunningInv(r: Running, e: Execution) {
    && InFlight(r.status)
    && (r.Starting? ==> e.streams == [])
    && (r.Streaming? ==> e.streams == [r.script])
    && e.end.None?
  }

  // The status with which an Update ended is a verdict, and a success was delivered.
  ghost predicate EndInv(e: Execution) {
    e.end.Some? ==>
      && (DoneFailed(e.end.value) || DoneSucceeded(e.end.value))
      && (DoneSucceeded(e.end.value) ==> Delivered(e))
  }

  // A destroy is the only kind of Update a deleted Stack starts.
  ghost predicate ExecutionInv(w: Cluster, n: UpdateName, e: Execution) {
    && n < w.nextName
    && |e.streams| <= 1
    && e.origin.name == n
    && EndInv(e)
    && e.origin.generation <= w.stack.generation
    && (w.stack.deleted && e.origin.generation == w.stack.generation ==> e.typ == DestroyType)
  }

  predicate IsCurrent(w: Cluster, n: UpdateName) {
    w.stack.status.currentUpdate.Some? && w.stack.status.currentUpdate.value.name == n
  }

  // Single flight: an Update that is not complete is the one CurrentUpdate names.
  ghost predicate SingleFlight(w: Cluster, n: UpdateName) {
    n in w.updates && w.updates[n].status.complete != Yes ==> IsCurrent(w, n)
  }

  // No operation is forgotten: a stream was opened only for an absorbed Update or the current one.
  ghost predicate Accounted(w: Cluster, n: UpdateName) {
    n in w.executions ==>
      || n in AbsorbedNames(w.absorbed)
      || IsCurrent(w, n)
      || (n !in w.updates && n !in w.running && w.executions[n].streams == [])
  }

  // Everything about the Update of one name.
  ghost predicate NameInv(w: Cluster, n: UpdateName) {
    && (n in w.executions ==> ExecutionInv(w, n, w.executions[n]))
    && (n in w.updates ==> n in w.executions && UpdateInv(w.updates[n], w.executions[n]))
    && (n in w.running ==> n in w.executions && RunningInv(w.running[n], w.executions[n]))
    && (n in w.running && n in w.updates ==>
         InFlight(w.updates[n].status) && w.running[n].generation <= w.updates[n].generation)
    && (if n in w.leaked then n in w.executions && !IsCurrent(w, n) && n !in AbsorbedNames(w.absorbed)
        else SingleFlight(w, n) && Accounted(w, n))
  }

  // An absorption says of its Update just what that was stored with when it completed.
  predicate TellsTheTruth(a: Absorption, e: Execution) {
    && e.end.Some?
    && a.current == e.origin
    && a.typ == e.typ
    && a.failed == (e.end.value.failed == Yes)
    && a.message == e.end.value.message
    && a.permalink == e.end.value.permalink
  }

  // An absorption tells the truth about its Update, which is over and done with.
  ghost predicate AbsorptionInv(w: Cluster, a: Absorption) {
    var n := a.current.name;
    && n in w.executions
    && TellsTheTruth(a, w.executions[n])
    && (!a.failed ==> Delivered(w.executions[n]))
    && (n in w.updates ==> w.updates[n].status.complete == Yes)
    && n !in w.running
  }

  // Each Update is absorbed at most once, in creation order.
  ghost predicate InOrder(absorbed: seq<Absorption>) {
    forall j, k :: 0 <= j < k < |absorbed| ==> absorbed[j].current.name < absorbed[k].current.name
  }

  // CurrentUpdate is newer than everything absorbed, and records why its Update was created.
  ghost predicate CurrentInv(w: Cluster, c: CurrentUpdate) {
    && c.name < w.nextName
    && c.generation <= w.stack.generation
    && (c.name in w.executions ==> w.executions[c.name].origin == c)
    && (forall a :: a in w.absorbed ==> a.current.name < c.name)
  }

  ghost predicate Inv(w: Cluster) {
    && StatusInv(w.stack)
    && w.stack.status.lastUpdate == Fold(w.absorbed)
    && InOrder(w.absorbed)
    && (w.stack.status.currentUpdate.Some? ==> CurrentInv(w, w.stack.status.currentUpdate.value))
    && (forall n :: NameInv(w, n))
    && (forall a :: a in w.absorbed ==> AbsorptionInv(w, a))
  }

  /** What the fold says about the last absorption. */
  lemma FoldOfLast(w: Cluster)
    requires Inv(w) && w.stack.status.lastUpdate.Some?
    ensures var last := w.stack.status.lastUpdate.value;
            && w.absorbed != []
            && var a := w.absorbed[|w.absorbed| - 1];
              && last == Absorb(Fold(w.absorbed[..|w.absorbed| - 1]), a)
              && last.name == a.current.name && last.generation == a.current.generation
              && last.request == a.current.request && last.typ == a.typ
              && last.generation <= w.stack.generation
              && last.state == (if a.failed then FailedState else SucceededState)
              && AbsorptionInv(w, a)
  {
    var a := w.absorbed[|w.absorbed| - 1];
    assert AbsorptionInv(w, a) && NameInv(w, a.current.name);
  }
}
