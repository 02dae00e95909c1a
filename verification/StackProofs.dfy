/** One Stack reconcile keeps the invariants, whatever is refused and wherever it is cut short. */
module StackProofs {
  import opened Prelude
  import opened ReadyProtocol
  import opened StackModel
  import opened Sync
  import opened Outputs
  import opened UpdateStream
  import opened UpdateController
  import opened ClusterState
  import opened UpdateSteps
  import opened StackController
  import opened Invariants
  import opened UpdateProofs

  // How the local status of a reconcile relates to the store.
  ghost predicate SessionInv(s: Session) {
    var stored := s.w.stack.status;
    && Inv(s.w)
    && s.w.stack.finalizer
    && Distinct(s.status.conditions)
    && (s.w.stack.deleted ==> s.status.observedRequest == s.w.stack.request)
    && s.status.observedGeneration <= s.w.stack.generation
    && (s.status.observedGeneration == s.w.stack.generation
         || (s.status.lastUpdate.None? && s.status.currentUpdate.None?))
    && match s.unsaved
      case None => s.status.lastUpdate == stored.lastUpdate && s.status.currentUpdate == stored.currentUpdate
          && s.pending.None?
      case Some(a) =>
        && AbsorptionInv(s.w, a)
        && stored.currentUpdate == Some(a.current)
        && s.status.lastUpdate == Some(Absorb(stored.lastUpdate, a))
        && s.status.currentUpdate.None?
        && (s.pending.None? || s.pending == Some(a.current.name))
  }

  // The annotation has not changed since the reconcile read the Stack.
  predicate RequestStands(s: Session) {
    s.status.observedRequest == s.w.stack.request
  }

  // What a reconcile may do to the cluster.
  ghost predicate Good(w: Cluster, w': Cluster) {
    && Inv(w')
    && Frame(w, w')
    && Keeps(w, w')
    && (w.stack.finalizer && !w'.stack.finalizer ==> Justified(w, w'))
  }

  ghost predicate Frame(w: Cluster, w': Cluster) {
    && w'.stack.spec == w.stack.spec && w'.stack.deleted == w.stack.deleted && w'.stack.request == w.stack.request
    && w'.stack.generation == w.stack.generation
    && w.absorbed <= w'.absorbed
    && (forall n :: Untouched(w, w', n))
  }

  // The Stack reconciler changes nothing about an existing Update but its finalizer.
  predicate Untouched(w: Cluster, w': Cluster, n: UpdateName) {
    n in w.executions ==>
      && n in w'.executions && w'.executions[n] == w.executions[n]
      && (n in w'.updates ==> n in w.updates && w'.updates[n] == w.updates[n].(finalizer := w'.updates[n].finalizer))
      && (n in w'.running <==> n in w.running) && (n in w.running ==> w'.running[n] == w.running[n])
  }

  // Unless the workspace is reclaimed, an Update holding its finalizer keeps it until it is absorbed in the store.
  ghost predicate Keeps(w: Cluster, w': Cluster) {
    forall n :: n in w.updates && w.updates[n].finalizer ==>
                  || (n in w'.updates && w'.updates[n].finalizer)
                  || n in AbsorbedNames(w'.absorbed)
                  || w.stack.spec.reclaimDelete
  }

  // Some destroy at the current generation and request was executed and delivered, and the status knows it.
  ghost predicate Destroyed(w: Cluster) {
    exists n :: n in w.executions && DestroyedBy(w, n)
  }

  ghost predicate DestroyedBy(w: Cluster, n: UpdateName)
    requires n in w.executions
  {
    var e := w.executions[n];
    && e.typ == DestroyType
    && e.origin.generation == w.stack.generation && e.origin.request == w.stack.request
    && Delivered(e)
    && (IsCurrent(w, n) || (w.stack.status.lastUpdate.Some? && w.stack.status.lastUpdate.value.name == n))
  }

  predicate NothingHappened(w: Cluster) {
    && w.stack.status.lastUpdate.None? && w.stack.status.currentUpdate.None?
    && w.workspace.Some? && w.workspace.value.stalled.Some?
  }

  // Why the finalizer may leave.
  ghost predicate Justified(w: Cluster, w': Cluster) {
    && w.stack.deleted
    && (!w.stack.spec.destroyOnFinalize || w.stack.spec.preview || Destroyed(w) || NothingHappened(w'))
  }

  /*** The building blocks ***/

  lemma NamesGrow(absorbed: seq<Absorption>, a: Absorption)
    ensures AbsorbedNames(absorbed + [a]) == AbsorbedNames(absorbed) + {a.current.name}
  {}

  lemma NamesOfPrefix(w: Cluster, w': Cluster)
    requires w.absorbed <= w'.absorbed
    ensures AbsorbedNames(w.absorbed) <= AbsorbedNames(w'.absorbed)
  {}

  lemma GoodThen(w: Cluster, m: Cluster, w': Cluster)
    requires m.stack.finalizer && w.stack.finalizer
    requires Frame(w, m) && Keeps(w, m) && Good(m, w')
    requires !w'.stack.finalizer ==> Justified(w, w')
    ensures Good(w, w')
  {
    NamesOfPrefix(m, w');
    forall n ensures Untouched(w, w', n) { assert Untouched(w, m, n) && Untouched(m, w', n); }
  }

  lemma ReleaseKeepsInv(w: Cluster, n: UpdateName)
    requires Inv(w)
    ensures var w' := Release(w, n);
            && Inv(w') && w' == w.(updates := w'.updates)
            && (forall m :: m in w.updates && m != n ==> m in w'.updates && w'.updates[m] == w.updates[m])
            && (forall m :: Untouched(w, w', m))
  {
    var w' := Release(w, n);
    assert w' == w.(updates := w'.updates);
    FewerUpdatesKeepInv(w, w'.updates);
  }

  // The store after the status write, before the release.
  function Stored(s: Session): Cluster {
    s.w.(stack := s.w.stack.(status := s.status),
         absorbed := if s.unsaved.Some? then s.w.absorbed + [s.unsaved.value] else s.w.absorbed)
  }

  ghost predicate Savable(s: Session) {
    && SessionInv(s) && WellFormed(s.status.conditions)
    && (!s.w.stack.deleted && IsTrue(s.status.conditions, ReadyCondition) ==> SucceededAsObserved(s.status))
  }

  lemma StoredHistory(s: Session)
    requires Savable(s)
    ensures InOrder(Stored(s).absorbed) && s.status.lastUpdate == Fold(Stored(s).absorbed)
    ensures AbsorbedNames(Stored(s).absorbed) ==
              if s.unsaved.Some? then AbsorbedNames(s.w.absorbed) + {s.unsaved.value.current.name}
              else AbsorbedNames(s.w.absorbed)
    ensures s.status.currentUpdate.Some? ==> CurrentInv(Stored(s), s.status.currentUpdate.value)
  {}

  lemma StoredName(s: Session, m: UpdateName)
    requires Savable(s)
    ensures NameInv(Stored(s), m)
  {
    StoredHistory(s);
    assert NameInv(s.w, m);
  }

  lemma StoredAbsorption(s: Session, a: Absorption)
    requires Savable(s) && a in Stored(s).absorbed
    ensures AbsorptionInv(Stored(s), a)
  {}

  lemma StoredKeepsInv(s: Session)
    requires Savable(s)
    ensures Inv(Stored(s))
  {
    StoredHistory(s);
    forall m ensures NameInv(Stored(s), m) { StoredName(s, m); }
    forall a | a in Stored(s).absorbed ensures AbsorptionInv(Stored(s), a) { StoredAbsorption(s, a); }
  }

  lemma SaveIsGood(s: Session, ok: bool, releaseOk: bool)
    requires Savable(s)
    ensures var s' := Save(s, ok, releaseOk);
            SessionInv(s') && Good(s.w, s'.w) && s'.status == s.status && s'.w.stack.finalizer
    ensures ok ==> Save(s, ok, releaseOk).unsaved.None? && Save(s, ok, releaseOk).w.stack.status == s.status
  {
    if ok {
      StoredKeepsInv(s);
      var w1 := Stored(s);
      assert forall n :: Untouched(s.w, w1, n);
      if s.pending.Some? {
        NamesGrow(s.w.absorbed, s.unsaved.value);
        if releaseOk {
          ReleaseKeepsInv(w1, s.pending.value);
          var w2 := Release(w1, s.pending.value);
          forall n ensures Untouched(s.w, w2, n) { assert Untouched(w1, w2, n); }
        }
      }
    }
  }

  lemma SaveAndReturnIsGood(s: Session, i: Input, after: int)
    requires Savable(s)
    ensures Good(s.w, SaveAndReturn(s, i, after).0) && Good(s.w, SaveAgain(s, i, after).0)
  {
    SaveIsGood(s, i.saveOk, i.releaseOk);
    SaveIsGood(s, i.saveAgainOk, i.releaseOk);
  }

  // Marking keeps the session invariant and makes the conditions fit to save.
  lemma MarksAreSavable(s: Session, reason: Reason)
    requires SessionInv(s)
    ensures Savable(Reconciling(s, reason)) && !IsTrue(Reconciling(s, reason).status.conditions, ReadyCondition)
    ensures Savable(Stalled(s, reason)) && !IsTrue(Stalled(s, reason).status.conditions, ReadyCondition)
    ensures s.w.stack.deleted || SucceededAsObserved(s.status) ==> Savable(Ready(s))
  {
    MarkReconcilingShape(s.status.conditions, reason);
    MarkStalledShape(s.status.conditions, reason);
    MarkReadyShape(s.status.conditions);
  }

  lemma DropIsGood(w: Cluster, i: Input, from: Cluster)
    requires Inv(w) && w.stack.finalizer && from.stack.finalizer && Inv(from)
    requires Frame(from, w) && Keeps(from, w)
    requires w.stack.deleted && Justified(from, DropFinalizer(w, i).0)
    ensures Good(from, DropFinalizer(w, i).0)
  {
    var w' := DropFinalizer(w, i).0;
    forall n ensures NameInv(w', n) && Untouched(from, w', n) { assert NameInv(w, n) && Untouched(from, w, n); }
    forall a | a in w.absorbed ensures AbsorptionInv(w', a) { assert AbsorptionInv(w, a); }
  }

  /*** The stages, last to first ***/

  // The session once the outstanding Update, if any, has been absorbed.
  ghost predicate Settled(s: Session) {
    SessionInv(s) && s.status.currentUpdate.None?
  }

  lemma ReclaimStageIsGood(s: Session, i: Input, after: int)
    requires Savable(s) && !s.w.stack.deleted && s.w.stack.spec.reclaimDelete
    ensures Good(s.w, ReclaimStage(s, i, after).0)
  {
    if s.pending.Some? ==> i.earlyReleaseOk {
      if s.pending.Some? { ReleaseKeepsInv(s.w, s.pending.value); }
      var released := if s.pending.Some? then Release(s.w, s.pending.value) else s.w;
      if i.deleteWorkspaceOk {
        WorkspaceIsFree(released, None);
        GoodThen(s.w, released, released.(workspace := None));
        var s2 := s.(w := released.(workspace := None), pending := None);
        assert s.unsaved.Some? ==> AbsorptionInv(s.w, s.unsaved.value);
        SaveAndReturnIsGood(s2, i, after);
        GoodThen(s.w, s2.w, SaveAndReturn(s2, i, after).0);
      }
    }
  }

  lemma MarkResultIsSavable(s: Session)
    requires SessionInv(s) && s.status.lastUpdate.Some?
    requires s.status.lastUpdate.value.state == SucceededState && !s.w.stack.deleted ==> SucceededAsObserved(s.status)
    ensures Savable(MarkResult(s)) && MarkResult(s) == s.(status := MarkResult(s).status)
    ensures MarkResult(s).status == s.status.(conditions := MarkResult(s).status.conditions)
  {
    var last := s.status.lastUpdate.value;
    MarksAreSavable(s, if last.failures >= MAX_UPDATE_FAILURES then UpdateFailed
                       else if last.typ == PreviewType then PreviewFailed else RetryingAfterFailure);
  }

  lemma SyncedStageIsGood(s: Session, i: Input, commit: string)
    requires Settled(s) && RequestStands(s) && IsSynced(s.w.stack, s.status, commit, i.decidedAt)
    ensures Good(s.w, SyncedStage(s, i).0)
  {
    var st, last := s.w.stack, s.status.lastUpdate.value;
    var s1 := MarkResult(s);
    MarkResultIsSavable(s);
    if st.deleted {
      if last.state == SucceededState {
        SyncedDestroyWasDelivered(s, i, commit);
        SaveIsGood(s1, i.saveOk, i.releaseOk);
        DropIsGood(Save(s1, i.saveOk, i.releaseOk).w, i, s.w);
      } else {
        var due := last.resyncTime + Cooldown(st.spec, s.status.lastUpdate);
        SaveAndReturnIsGood(s1, i, Max(SECOND, due - i.requeuedAt));
      }
    } else {
      var after := RequeueAfter(st, s.status, i.requeuedAt);
      if last.state != FailedState && st.spec.reclaimDelete {
        ReclaimStageIsGood(s1, i, after);
      } else {
        SaveAndReturnIsGood(s1, i, after);
      }
    }
  }

  lemma WorkspaceIsFree(w: Cluster, ws: Option<Workspace>)
    requires Inv(w)
    ensures Inv(w.(workspace := ws)) && Good(w, w.(workspace := ws))
  {
    var w' := w.(workspace := ws);
    forall n ensures NameInv(w', n) { assert NameInv(w, n); }
    forall a | a in w.absorbed ensures AbsorptionInv(w', a) { assert AbsorptionInv(w, a); }
  }

  lemma SyncedDestroyWasDelivered(s: Session, i: Input, commit: string)
    requires Settled(s) && IsSynced(s.w.stack, s.status, commit, i.decidedAt)
    requires s.w.stack.deleted && s.status.lastUpdate.value.state == SucceededState
    ensures Destroyed(s.w)
  {
    var n := s.status.lastUpdate.value.name;
    if s.unsaved.None? { FoldOfLast(s.w); }
    assert DestroyedBy(s.w, n);
  }

  // Writing a CurrentUpdate under a fresh name.
  lemma AnnounceKeepsInv(w: Cluster, status: StackStatus, c: CurrentUpdate)
    requires Inv(w) && w.stack.finalizer && WellFormed(status.conditions) && !IsTrue(status.conditions, ReadyCondition)
    requires status.lastUpdate == w.stack.status.lastUpdate && status.observedGeneration <= w.stack.generation
    requires w.stack.status.currentUpdate.None? && status.currentUpdate == Some(c)
    requires c.name == w.nextName && c.generation == w.stack.generation
    ensures Good(w, w.(nextName := w.nextName + 1))
    ensures Good(w, w.(nextName := w.nextName + 1, stack := w.stack.(status := status)))
    ensures c.name !in w.executions
  {
    var w1 := w.(nextName := w.nextName + 1);
    var w2 := w1.(stack := w.stack.(status := status));
    assert NameInv(w, c.name);
    forall n ensures NameInv(w1, n) && NameInv(w2, n) { assert NameInv(w, n); }
    forall a | a in w.absorbed ensures AbsorptionInv(w1, a) && AbsorptionInv(w2, a) && a.current.name < c.name {
      assert AbsorptionInv(w, a) && NameInv(w, a.current.name);
    }
  }

  // Clearing a CurrentUpdate whose object was never created.
  lemma UndoKeepsInv(w: Cluster, status: StackStatus)
    requires Inv(w) && w.stack.finalizer && w.stack.status.currentUpdate.Some?
    requires w.stack.status.currentUpdate.value.name !in w.executions
    requires status == w.stack.status.(currentUpdate := None)
    ensures Good(w, w.(stack := w.stack.(status := status)))
  {
    var w' := w.(stack := w.stack.(status := status));
    forall n ensures NameInv(w', n) { assert NameInv(w, n); }
    forall a | a in w.absorbed ensures AbsorptionInv(w', a) { assert AbsorptionInv(w, a); }
  }

  lemma CreateKeepsInv(w: Cluster, c: CurrentUpdate, typ: UpdateType)
    requires Inv(w) && w.stack.finalizer && w.stack.status.currentUpdate == Some(c) && c.name !in w.executions
    requires c.generation == w.stack.generation && (w.stack.deleted ==> typ == DestroyType)
    ensures Good(w, Created(w, c, typ)) && c.name !in w.running
  {
    var w' := Created(w, c, typ);
    assert NameInv(w, c.name);
    forall n ensures NameInv(w', n) { assert NameInv(w, n); }
    forall a | a in w.absorbed ensures AbsorptionInv(w', a) { assert AbsorptionInv(w, a); }
  }

  // The new Update, whatever the Update reconciler has done with it already.
  lemma MeanwhileIsGood(w: Cluster, c: CurrentUpdate, typ: UpdateType, steps: seq<UpdateStep>)
    requires Inv(w) && w.stack.finalizer && w.stack.status.currentUpdate == Some(c) && c.name !in w.executions
    requires c.generation == w.stack.generation && (w.stack.deleted ==> typ == DestroyType)
    ensures var w' := Meanwhile(Created(w, c, typ), c.name, steps);
            && Good(w, w') && w'.stack == w.stack && w'.leaked == w.leaked
            && c.name in w'.updates && c.name in w'.executions && !w'.updates[c.name].finalizer
  {
    var w1 := Created(w, c, typ);
    CreateKeepsInv(w, c, typ);
    MeanwhileKeepsInv(w1, c.name, steps);
    MeanwhileTouchesOnly(w1, c.name, steps);
    OnlyNewIsGood(w, w1, Meanwhile(w1, c.name, steps), c.name);
  }

  lemma OnlyNewIsGood(w: Cluster, w1: Cluster, w': Cluster, n: UpdateName)
    requires n !in w.executions && Inv(w) && Inv(w') && Good(w, w1) && TouchesOnly(w1, w', n)
    ensures Good(w, w')
  {
    assert NameInv(w, n);
    forall m ensures Untouched(w, w', m) { assert Untouched(w, w1, m) && (m != n ==> SameAt(w1, w', m)); }
    forall m | m in w.updates && w.updates[m].finalizer
      ensures || (m in w'.updates && w'.updates[m].finalizer) || m in AbsorbedNames(w'.absorbed)
              || w.stack.spec.reclaimDelete
    {
      assert m != n && SameAt(w1, w', m);
    }
  }

  // An Update that could not get its finalizer: delete it and clear CurrentUpdate, as far as that goes.
  function Cleared(w: Cluster, undone: bool): Cluster {
    if undone then w.(stack := w.stack.(status := w.stack.status.(currentUpdate := None))) else w
  }

  lemma FaultKeepsInv(w: Cluster, c: CurrentUpdate, deleteOk: bool, undone: bool)
    requires Inv(w) && w.stack.finalizer && w.stack.status.currentUpdate == Some(c)
    requires c.name in w.updates && !w.updates[c.name].finalizer && c.name in w.executions
    ensures Inv(Cleared(Faulty(w, c.name, deleteOk, undone), undone))
  {
    var w' := Cleared(Faulty(w, c.name, deleteOk, undone), undone);
    assert CurrentInv(w, c);
    forall n ensures NameInv(w', n) { assert NameInv(w, n); }
    forall a | a in w.absorbed ensures AbsorptionInv(w', a) { assert AbsorptionInv(w, a); }
  }

  // What befalls the new Update is of no concern to the others.
  lemma NewcomerIsGood(w: Cluster, w1: Cluster, w': Cluster, n: UpdateName)
    requires n !in w.executions && Inv(w) && Good(w, w1) && Inv(w') && w.stack.finalizer && w1.stack.finalizer
    requires w' == w1.(stack := w'.stack, updates := w'.updates, faults := w'.faults, leaked := w'.leaked)
    requires w'.stack == w1.stack.(status := w'.stack.status)
    requires forall m :: m != n ==>
             (m in w'.updates <==> m in w1.updates) && (m in w1.updates ==> w'.updates[m] == w1.updates[m])
    ensures Good(w, w')
  {
    assert NameInv(w, n);
    forall m ensures Untouched(w, w', m) { assert Untouched(w, w1, m); }
  }

  lemma FinalizedIsGood(w: Cluster, w1: Cluster, n: UpdateName)
    requires n !in w.executions && Inv(w) && Good(w, w1) && w.stack.finalizer && w1.stack.finalizer && n in w1.updates
    ensures Good(w, Finalized(w1, n))
  {
    FewerUpdatesKeepInv(w1, Finalized(w1, n).updates);
    NewcomerIsGood(w, w1, Finalized(w1, n), n);
  }

  lemma FaultIsGood(w: Cluster, w1: Cluster, c: CurrentUpdate, deleteOk: bool, undone: bool)
    requires c.name !in w.executions && Inv(w) && Good(w, w1) && w.stack.finalizer && w1.stack.finalizer
    requires w1.stack.status.currentUpdate == Some(c)
    requires c.name in w1.updates && !w1.updates[c.name].finalizer && c.name in w1.executions
    ensures Good(w, Cleared(Faulty(w1, c.name, deleteOk, undone), undone))
  {
    FaultKeepsInv(w1, c, deleteOk, undone);
    NewcomerIsGood(w, w1, Cleared(Faulty(w1, c.name, deleteOk, undone), undone), c.name);
  }

  lemma CreateObjectIsGood(s: Session, c: CurrentUpdate, i: Input)
    requires Inv(s.w) && s.w.stack.finalizer && s.unsaved.None? && s.pending.None?
    requires s.status == s.w.stack.status && s.status.currentUpdate == Some(c)
    requires c.name !in s.w.executions && c.generation == s.w.stack.generation
    ensures Good(s.w, CreateObject(s, c, i).0) && CreateObject(s, c, i).0.stack.finalizer
  {
    if !i.createOk {
      UndoKeepsInv(s.w, s.status.(currentUpdate := None));
      assert CreateObject(s, c, i).0 == Cleared(s.w, i.saveUndoOk);
    } else {
      var w := Meanwhile(Created(s.w, c, NextType(s.w.stack)), c.name, i.meanwhile);
      MeanwhileIsGood(s.w, c, NextType(s.w.stack), i.meanwhile);
      if i.finalizeUpdateOk {
        FinalizedIsGood(s.w, w, c.name);
      } else {
        FaultIsGood(s.w, w, c, i.deleteUpdateOk, i.saveUndoOk);
        assert CreateObject(s, c, i).0 == Cleared(Faulty(w, c.name, i.deleteUpdateOk, i.saveUndoOk), i.saveUndoOk);
      }
    }
  }

  lemma CreateStageIsGood(s: Session, i: Input, commit: string)
    requires Settled(s) && s.unsaved.None?
    ensures Good(s.w, CreateStage(s, i, commit).0) && CreateStage(s, i, commit).0.stack.finalizer
  {
    var c := CurrentUpdate(s.w.stack.generation, s.status.observedRequest, s.w.nextName, commit);
    MarksAreSavable(s, StackProcessing);
    var status := Reconciling(s, StackProcessing).status.(currentUpdate := Some(c));
    AnnounceKeepsInv(s.w, status, c);
    if i.saveAgainOk {
      var s3 := Session(s.w.(nextName := s.w.nextName + 1, stack := s.w.stack.(status := status)), status, None, None);
      assert CreateStage(s, i, commit) == CreateObject(s3, c, i);
      CreateObjectIsGood(s3, c, i);
      GoodThen(s.w, s3.w, CreateObject(s3, c, i).0);
    }
  }

  lemma RunStageIsGood(s: Session, i: Input, commit: string)
    requires Settled(s) && s.unsaved.None? && s.w.workspace.Some?
    ensures Good(s.w, RunStage(s, i, commit).0)
    ensures !RunStage(s, i, commit).0.stack.finalizer ==>
              s.w.stack.deleted && NothingHappened(RunStage(s, i, commit).0)
  {
    if IsWorkspaceReady(s.w.workspace) {
      CreateStageIsGood(s, i, commit);
    } else if s.w.workspace.value.stalled.Some? {
      if s.w.stack.deleted && s.status.lastUpdate.None? {
        DropIsGood(s.w, i, s.w);
      } else {
        var reason := StallReasonOf(s.w.workspace.value.stalled.value);
        MarksAreSavable(s, reason);
        SaveIsGood(Stalled(s, reason), i.saveAgainOk, i.releaseOk);
      }
    }
  }

  lemma AppliedIsGood(s: Session, i: Input, changed: bool, commit: string)
    requires Settled(s) && s.unsaved.None?
    ensures Good(s.w, RunStage(s.(w := ApplyWorkspace(s.w, changed)), i, commit).0)
    ensures !RunStage(s.(w := ApplyWorkspace(s.w, changed)), i, commit).0.stack.finalizer ==>
              s.w.stack.deleted && NothingHappened(RunStage(s.(w := ApplyWorkspace(s.w, changed)), i, commit).0)
  {
    var s2 := s.(w := ApplyWorkspace(s.w, changed));
    WorkspaceIsFree(s.w, s2.w.workspace);
    RunStageIsGood(s2, i, commit);
    GoodThen(s.w, s2.w, RunStage(s2, i, commit).0);
  }

  lemma NamespaceIsGood(s: Session, i: Input)
    requires Settled(s)
    ensures Good(s.w, SaveAgain(Stalled(s, NamespaceTerminating), i, SOURCE_UNAVAILABLE_WAIT).0)
    ensures SaveAgain(Stalled(s, NamespaceTerminating), i, SOURCE_UNAVAILABLE_WAIT).0.stack.finalizer
  {
    MarksAreSavable(s, NamespaceTerminating);
    SaveIsGood(Stalled(s, NamespaceTerminating), i.saveAgainOk, i.releaseOk);
  }

  lemma LaunchStageIsGood(s: Session, i: Input, commit: string)
    requires Settled(s)
    ensures Good(s.w, LaunchStage(s, i, commit).0)
  {
    if i.saveOk {
      MarksAreSavable(s, StackProcessing);
      SaveIsGood(Reconciling(s, StackProcessing), true, i.releaseOk);
      var s1 := Save(Reconciling(s, StackProcessing), true, i.releaseOk);
      if i.apply.Applied? {
        AppliedIsGood(s1, i, i.apply.changed, commit);
        GoodThen(s.w, s1.w, RunStage(s1.(w := ApplyWorkspace(s1.w, i.apply.changed)), i, commit).0);
      } else if i.apply.NamespaceIsTerminating? && s.w.stack.deleted {
        NamespaceIsGood(s1, i);
        GoodThen(s.w, s1.w, SaveAgain(Stalled(s1, NamespaceTerminating), i, SOURCE_UNAVAILABLE_WAIT).0);
      }
    }
  }

  lemma WaitIsGood(s: Session, i: Input)
    requires SessionInv(s)
    ensures Good(s.w, SaveAndReturn(Reconciling(s, StackProcessing), i, 0).0)
  {
    MarksAreSavable(s, StackProcessing);
    SaveAndReturnIsGood(Reconciling(s, StackProcessing), i, 0);
  }

  lemma AbsorbedIsSettled(s: Session, c: CurrentUpdate, shown: Option<map<string, Shown>>, time: int)
    requires SessionInv(s) && s.unsaved.None? && s.status.currentUpdate == Some(c)
    requires c.name in s.w.updates && s.w.updates[c.name].status.complete == Yes
    requires s.w.updates[c.name].status.failed != Yes && s.w.updates[c.name].status.outputs ==> shown.Some?
    ensures Settled(Absorbed(s, c, s.w.updates[c.name], shown, time))
  {
    assert NameInv(s.w, c.name) && CurrentInv(s.w, c);
    assert AbsorptionInv(s.w, AbsorptionOf(c, s.w.updates[c.name], time));
  }

  lemma AbsorbIsGood(s: Session, i: Input)
    requires SessionInv(s) && RequestStands(s) && s.unsaved.None?
    ensures match AbsorbCurrent(s, i)
            case Proceed(s') => Settled(s') && RequestStands(s') && s'.w == s.w
            case End(w', _) => Good(s.w, w')
  {
    if s.status.currentUpdate.Some? && i.getUpdateOk {
      var c := s.status.currentUpdate.value;
      if c.name !in s.w.updates || !IsUpdateComplete(s.w.updates[c.name]) {
        WaitIsGood(s, i);
      } else if AbsorbCurrent(s, i).Proceed? {
        AbsorbedIsSettled(s, c, ShownOutputs(i.secret), i.absorbedAt);
      }
    }
  }

  lemma PrerequisiteStageIsGood(s: Session, i: Input, commit: string)
    requires Settled(s)
    ensures Good(s.w, PrerequisiteStage(s, i, commit).0)
  {
    if s.w.stack.deleted || i.prereq == Satisfied {
      LaunchStageIsGood(s, i, commit);
    } else if i.prereq == Unsatisfied {
      MarksAreSavable(s, PrerequisiteNotSatisfied);
      SaveAndReturnIsGood(Reconciling(s, PrerequisiteNotSatisfied), i, 0);
    }
  }

  lemma MarkedIsGood(s: Session, reason: Reason, i: Input, after: int)
    requires Settled(s)
    ensures Good(s.w, SaveAndReturn(Stalled(s, reason), i, after).0)
  {
    MarksAreSavable(s, reason);
    SaveAndReturnIsGood(Stalled(s, reason), i, after);
  }

  lemma SetupStageIsGood(s: Session, i: Input, commit: string)
    requires Settled(s) && RequestStands(s)
    ensures Good(s.w, SetupStage(s, i, commit).0)
  {
    match i.setup
    case SetupBroken =>
    case SetupStalled => MarkedIsGood(s, SpecInvalid, i, 0);
    case SetupDone =>
      if IsSynced(s.w.stack, s.status, commit, i.decidedAt) {
        SyncedStageIsGood(s, i, commit);
      } else {
        PrerequisiteStageIsGood(s, i, commit);
      }
  }

  lemma ReadyToLeaveIsGood(s: Session, i: Input)
    requires Settled(s) && s.w.stack.deleted && (!s.w.stack.spec.destroyOnFinalize || s.w.stack.spec.preview)
    ensures Good(s.w, DropFinalizer(Save(Ready(s), true, i.releaseOk).w, i).0)
  {
    MarksAreSavable(s, SpecInvalid);
    SaveIsGood(Ready(s), true, i.releaseOk);
    DropIsGood(Save(Ready(s), true, i.releaseOk).w, i, s.w);
  }

  lemma CleanUpStageIsGood(s: Session, i: Input)
    requires Settled(s) && RequestStands(s)
    ensures Good(s.w, CleanUpStage(s, i).0)
  {
    var st := s.w.stack;
    if st.deleted && (!st.spec.destroyOnFinalize || st.spec.preview) {
      ReadyToLeaveIsGood(s, i);
    } else {
      match ResolveSource(st, s.status, i.source)
      case Resolved(commit) => SetupStageIsGood(s, i, commit);
      case SourceInvalid => MarkedIsGood(s, SpecInvalid, i, 0);
      case SourceMissing => MarkedIsGood(s, SourceUnavailable, i, SOURCE_UNAVAILABLE_WAIT);
      case SourceBroken =>
    }
  }

  lemma FinalizerKeepsInv(w: Cluster, i: Input)
    requires Inv(w) && !w.stack.deleted
    ensures var w1 := EnsureFinalizer(w, i);
            && Inv(w1) && w1.stack.finalizer && Keeps(w, w1)
            && w1 == w.(stack := w1.stack) && w1.stack.status == w.stack.status
               && w1.stack.generation >= w.stack.generation
  {
    var w1 := EnsureFinalizer(w, i);
    forall n ensures NameInv(w1, n) { assert NameInv(w, n); }
    forall a | a in w.absorbed ensures AbsorptionInv(w1, a) { assert AbsorptionInv(w, a); }
  }

  // A whole reconcile may in addition have put the finalizer on the Stack first.
  ghost predicate GoodReconcile(w: Cluster, w': Cluster) {
    && Inv(w')
    && w'.stack.spec == w.stack.spec && w'.stack.deleted == w.stack.deleted && w'.stack.request == w.stack.request
    && w'.stack.generation >= w.stack.generation
    && w.absorbed <= w'.absorbed
    && Keeps(w, w')
    && (forall n :: Untouched(w, w', n))
    && (w.stack.finalizer && !w'.stack.finalizer ==> Justified(w, w'))
  }

  lemma LiftGood(w: Cluster, w1: Cluster, w': Cluster)
    requires Inv(w) && Good(w1, w')
    requires || w1 == w
             || (&& !w.stack.finalizer && w1 == w.(stack := w1.stack) && w1.stack.spec == w.stack.spec
                 && !w.stack.deleted && !w1.stack.deleted && w1.stack.request == w.stack.request
                 && w1.stack.generation >= w.stack.generation)
    ensures GoodReconcile(w, w')
  {
    forall n ensures Untouched(w, w', n) { assert Untouched(w1, w', n); }
    forall n | n in w.updates && w.updates[n].finalizer
      ensures (n in w'.updates && w'.updates[n].finalizer) || n in AbsorbedNames(w'.absorbed)
              || w.stack.spec.reclaimDelete
    {
      assert n in w1.updates;
    }
  }

  /** Any one reconcile, with any answers and any writes refused. */
  lemma ReconcileIsGood(w: Cluster, i: Input)
    requires Inv(w)
    ensures GoodReconcile(w, Reconcile(w, i).0)
  {
    var st := w.stack;
    if (st.deleted && !st.finalizer) || (!st.finalizer && !i.addFinalizerOk) {
      assert Keeps(w, w);
    } else {
      var w1 := EnsureFinalizer(w, i);
      if !st.deleted { FinalizerKeepsInv(w, i); }
      if i.planOk {
        var s := Observe(w1, st);
        assert st.status.lastUpdate.Some? ==> st.finalizer;
        assert SessionInv(s);
        AbsorbIsGood(s, i);
        match AbsorbCurrent(s, i) {
          case Proceed(s') => CleanUpStageIsGood(s', i);
          case End(_, _) =>
        }
        assert Good(w1, Reconcile(w, i).0);
        LiftGood(w, w1, Reconcile(w, i).0);
      } else {
        assert Keeps(w, w1);
      }
    }
  }
}
