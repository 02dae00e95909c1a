/** The Stack that waits for ever: which one does, and how it comes to that. */
module Stuck {
  import opened Prelude
  import opened ReadyProtocol
  import opened StackModel
  import opened Sync
  import opened Outputs
  import opened UpdateStream
  import opened UpdateController
  import opened ClusterState
  import opened UpdateSteps
  import opened StackController
  import opened Invariants
  import opened UpdateProofs
  import opened StackProofs
  import opened Runs

  // CurrentUpdate names an Update that is gone, or one that is complete but whose generation has moved
  // on since its status was written, so that it does not count as complete.
  predicate IsStuck(w: Cluster) {
    && w.stack.finalizer && w.stack.status.currentUpdate.Some?
    && var n := w.stack.status.currentUpdate.value.name;
      n !in w.updates || (w.updates[n].status.complete == Yes && !IsUpdateComplete(w.updates[n]))
  }

  /*** There is no way out ***/

  lemma StuckReconcile(w: Cluster, i: Input)
    requires IsStuck(w)
    ensures var w' := Reconcile(w, i).0;
            w' == w.(stack := w'.stack) && w'.stack == w.stack.(status := w'.stack.status)
            && w'.stack.status.currentUpdate == w.stack.status.currentUpdate
            && w'.stack.status.lastUpdate == w.stack.status.lastUpdate
  {}

  lemma StuckStep(w: Cluster, e: Event)
    requires Inv(w) && IsStuck(w)
    ensures IsStuck(Next(w, e)) && Next(w, e).created == w.created && Next(w, e).absorbed == w.absorbed
  {
    match e
    case StackReconcile(i) => StuckReconcile(w, i);
    case UpdateBegin(n, ttlExpired, deleteOk, writeOk) => StuckBegin(w, n, ttlExpired, deleteOk, writeOk);
    case UpdateDial(n, d, writeOk) => StuckDial(w, n, d, writeOk);
    case UpdateFinish(n, secretCreated, writeOk) => StuckFinish(w, n, secretCreated, writeOk);
    case _ => StuckOutside(w, e);
  }

  lemma StuckDial(w: Cluster, n: UpdateName, d: Dialled, writeOk: bool)
    requires Inv(w) && IsStuck(w)
    ensures var w' := DialUpdate(w, n, d, writeOk);
            IsStuck(w') && w'.created == w.created && w'.absorbed == w.absorbed
  {
    assert NameInv(w, w.stack.status.currentUpdate.value.name);
  }

  lemma StuckFinish(w: Cluster, n: UpdateName, secretCreated: bool, writeOk: bool)
    requires Inv(w) && IsStuck(w)
    ensures var w' := FinishUpdate(w, n, secretCreated, writeOk);
            IsStuck(w') && w'.created == w.created && w'.absorbed == w.absorbed
  {
    assert NameInv(w, w.stack.status.currentUpdate.value.name);
  }

  lemma StuckOutside(w: Cluster, e: Event)
    requires Inv(w) && IsStuck(w) && !e.StackReconcile? && !e.UpdateBegin? && !e.UpdateDial? && !e.UpdateFinish?
    ensures IsStuck(Next(w, e)) && Next(w, e).created == w.created && Next(w, e).absorbed == w.absorbed
  {
    assert NameInv(w, w.stack.status.currentUpdate.value.name);
  }

  lemma StuckBegin(w: Cluster, n: UpdateName, ttlExpired: bool, deleteOk: bool, writeOk: bool)
    requires Inv(w) && IsStuck(w)
    ensures var w' := BeginUpdate(w, n, ttlExpired, deleteOk, writeOk);
            IsStuck(w') && w'.created == w.created && w'.absorbed == w.absorbed
  {
    assert NameInv(w, w.stack.status.currentUpdate.value.name);
  }

  /**
   The wait has no end: once stuck, a Stack creates no further Update, absorbs none, and keeps its
   finalizer, through any further run; neither edits nor a new commit nor deleting it helps.
   */
  lemma {:induction false} StuckForEver(t: seq<Cluster>, k: nat)
    requires Continues(t) && Inv(t[0]) && IsStuck(t[0]) && k < |t|
    ensures IsStuck(t[k]) && t[k].stack.finalizer && t[k].created == t[0].created && t[k].absorbed == t[0].absorbed
  {
    if k > 0 {
      StuckForEver(t, k - 1);
      RunKeepsInv(t, k - 1);
      assert StepAt(t, k - 1);
      StuckLead(t[k - 1], t[k]);
    }
  }

  lemma StuckLead(w: Cluster, w': Cluster)
    requires Inv(w) && IsStuck(w) && LeadsTo(w, w')
    ensures IsStuck(w') && w'.created == w.created && w'.absorbed == w.absorbed
  {
    var e :| w' == Next(w, e);
    StuckStep(w, e);
  }

  /*** There is a way out of every other state ***/

  ghost predicate Reaches(w: Cluster, w': Cluster) {
    exists t :: Continues(t) && t[0] == w && t[|t| - 1] == w'
  }

  // Some run from here absorbs an Update.
  ghost predicate CanAbsorb(w: Cluster) {
    exists w' :: Reaches(w, w') && w'.absorbed != w.absorbed
  }

  lemma ReachesSelf(w: Cluster)
    ensures Reaches(w, w)
  {
    assert Continues([w]);
  }

  lemma ReachesNext(w: Cluster, m: Cluster, e: Event)
    requires Reaches(w, m)
    ensures Reaches(w, Next(m, e))
  {
    var t :| Continues(t) && t[0] == w && t[|t| - 1] == m;
    var longer := t + [Next(m, e)];
    assert longer[|t| - 1] == m && longer[|t|] == Next(m, e);
    NextLeads(m, e);
    forall k | 0 <= k < |longer| - 1 ensures StepAt(longer, k) { assert k < |t| - 1 ==> StepAt(t, k); }
    assert Continues(longer);
  }

  lemma NextLeads(w: Cluster, e: Event)
    ensures LeadsTo(w, Next(w, e))
  {}

  // Everything is answered as hoped for.
  const SMOOTH := Input(true, false, true, true, Missing, 0, Resolved(""), SetupDone, 0, 0, Satisfied, Applied(false),
                        true, true, true, true, true, true, true, true, true, true, [])

  const READY_WORKSPACE := Workspace(1, 1, false, true, None)

  // The status is saved with a complaint about the spec.
  const COMPLAIN := SMOOTH.(source := SourceInvalid, setup := SetupStalled)

  lemma CompleteIsAbsorbed(w: Cluster, c: CurrentUpdate)
    requires w.stack.finalizer && w.stack.status.currentUpdate == Some(c)
    requires c.name in w.updates && IsUpdateComplete(w.updates[c.name])
    ensures |Next(w, StackReconcile(COMPLAIN)).absorbed| == |w.absorbed| + 1
  {
    var s := Observe(EnsureFinalizer(w, COMPLAIN), w.stack);
    assert AbsorbCurrent(s, COMPLAIN).Proceed?;
    AbsorbedIsSaved(AbsorbCurrent(s, COMPLAIN).s);
  }

  lemma AbsorbedIsSaved(s: Session)
    requires s.unsaved.Some?
    ensures |CleanUpStage(s, COMPLAIN).0.absorbed| == |s.w.absorbed| + 1
  {}

  // Two operator restarts abort whatever an Update is at.
  lemma RestartCompletes(w: Cluster, n: UpdateName)
    requires Inv(w) && n in w.updates && w.updates[n].status.complete != Yes
    ensures var w1 := Next(Next(w, Crash), UpdateBegin(n, false, false, true));
            var w2 := Next(Next(w1, Crash), UpdateBegin(n, false, false, true));
            && n in w2.updates && IsUpdateComplete(w2.updates[n])
            && w2.stack == w.stack && w2.absorbed == w.absorbed
  {
    assert NameInv(w, n);
    var w0 := Next(w, Crash);
    var w1 := Next(w0, UpdateBegin(n, false, false, true));
    assert n in w1.updates && (IsUpdateComplete(w1.updates[n]) || w1.updates[n].status.progressing == Yes);
  }

  // A Stack that waits for an Update, but is not stuck, can get it.
  lemma WaitingCanAbsorb(from: Cluster, w: Cluster)
    requires Reaches(from, w) && Inv(w) && w.stack.finalizer && w.stack.status.currentUpdate.Some? && !IsStuck(w)
    requires |w.absorbed| >= |from.absorbed|
    ensures CanAbsorb(from)
  {
    var c := w.stack.status.currentUpdate.value;
    var begin := UpdateBegin(c.name, false, false, true);
    if IsUpdateComplete(w.updates[c.name]) {
      CompleteIsAbsorbed(w, c);
      ReachesNext(from, w, StackReconcile(COMPLAIN));
    } else {
      var w0 := Next(w, Crash);
      var w1 := Next(w0, begin);
      var w2 := Next(w1, Crash);
      var w3 := Next(w2, begin);
      ReachesNext(from, w, Crash);
      ReachesNext(from, w0, begin);
      ReachesNext(from, w1, Crash);
      ReachesNext(from, w2, begin);
      RestartCompletes(w, c.name);
      CompleteIsAbsorbed(w3, c);
      ReachesNext(from, w3, StackReconcile(COMPLAIN));
    }
  }

  const SPEC := StackSpec(NoSource, true, false, false, false, 60, 0, false, [])

  // A Stack that waits for nothing can be given something to do.
  lemma IdleCanStart(w: Cluster)
    requires Inv(w) && w.stack.status.currentUpdate.None? && !(w.stack.deleted && !w.stack.finalizer)
    ensures var w1 := Next(Next(w, EditSpec(SPEC)), WorkspaceChange(Some(READY_WORKSPACE)));
            var w2 := Next(w1, StackReconcile(SMOOTH));
            && w2.stack.finalizer && w2.stack.status.currentUpdate.Some? && w2.absorbed == w.absorbed
            && var n := w2.stack.status.currentUpdate.value.name;
              n in w2.updates && w2.updates[n].status == FRESH
  {
    if w.stack.status.lastUpdate.Some? { FoldOfLast(w); }
    var w1 := Next(Next(w, EditSpec(SPEC)), WorkspaceChange(Some(READY_WORKSPACE)));
    var s := Observe(EnsureFinalizer(w1, SMOOTH), w1.stack);
    assert Reconcile(w1, SMOOTH) == CleanUpStage(s, SMOOTH);
    assert !IsSynced(s.w.stack, s.status, "", 0);
    assert CleanUpStage(s, SMOOTH) == LaunchStage(s, SMOOTH, "");
    LaunchStarts(s);
  }

  lemma LaunchStarts(s: Session)
    requires IsWorkspaceReady(s.w.workspace) && s.unsaved.None? && s.w.stack.finalizer
    ensures var w' := LaunchStage(s, SMOOTH, "").0;
            && w'.stack.finalizer && w'.stack.status.currentUpdate.Some? && w'.absorbed == s.w.absorbed
            && var n := w'.stack.status.currentUpdate.value.name;
              n in w'.updates && w'.updates[n].status == FRESH
  {}

  lemma IdleCanAbsorb(w: Cluster)
    requires Inv(w) && w.stack.status.currentUpdate.None? && !(w.stack.deleted && !w.stack.finalizer)
    ensures CanAbsorb(w)
  {
    var edit, change, go := EditSpec(SPEC), WorkspaceChange(Some(READY_WORKSPACE)), StackReconcile(SMOOTH);
    var w0 := Next(w, edit);
    var w1 := Next(w0, change);
    var w2 := Next(w1, go);
    IdleCanStart(w);
    ReachesSelf(w);
    ReachesNext(w, w, edit);
    ReachesNext(w, w0, change);
    ReachesNext(w, w1, go);
    NextKeepsInv(w, edit);
    NextKeepsInv(w0, change);
    NextKeepsInv(w1, go);
    WaitingCanAbsorb(w, w2);
  }

  /**
   Stuck, exactly.  From a reachable state in which the Stack still exists, no run ever absorbs another
   Update, whatever is edited, restarted or answered, if and only if CurrentUpdate names an Update
   that is gone or whose generation moved on before its status was written.
   */
  lemma StuckExactly(w: Cluster)
    requires Reachable(w) && !(w.stack.deleted && !w.stack.finalizer)
    ensures IsStuck(w) <==> !CanAbsorb(w)
  {
    ReachableInv(w);
    if IsStuck(w) {
      forall w' | Reaches(w, w') ensures w'.absorbed == w.absorbed {
        var t :| Continues(t) && t[0] == w && t[|t| - 1] == w';
        StuckForEver(t, |t| - 1);
      }
    } else if w.stack.status.currentUpdate.Some? {
      ReachesSelf(w);
      WaitingCanAbsorb(w, w);
    } else {
      IdleCanAbsorb(w);
    }
  }

  /*** How it comes to that ***/

  // The status of a new Update is written at its generation, which stays 1 as long as nobody deletes it.
  ghost predicate Observes(w: Cluster, n: UpdateName) {
    && n in w.updates
    && (n in w.running ==> w.running[n].generation == w.updates[n].generation)
    && (w.updates[n].status.complete == Yes ==> IsUpdateComplete(w.updates[n]))
  }

  lemma {:induction false} MeanwhileObserves(w: Cluster, n: UpdateName, steps: seq<UpdateStep>)
    requires Observes(w, n)
    ensures Observes(Meanwhile(w, n, steps), n)
  {
    if steps != [] {
      MeanwhileObserves(w, n, steps[..|steps| - 1]);
      StepObserves(Meanwhile(w, n, steps[..|steps| - 1]), n, steps[|steps| - 1]);
    }
  }

  lemma StepObserves(w: Cluster, n: UpdateName, step: UpdateStep)
    requires Observes(w, n)
    ensures Observes(StepUpdate(w, n, step), n)
  {}

  /**
   A reconcile that comes to create an Update gets the Stack stuck exactly if the announcement was saved
   but cannot be taken back, and the Update either was not created or was deleted for want of its finalizer.
   A crash in between looks just like that.
   */
  lemma CreatingGetsStuck(s: Session, i: Input, commit: string)
    requires Settled(s) && s.unsaved.None?
    ensures IsStuck(CreateStage(s, i, commit).0) <==>
              i.saveAgainOk && !i.saveUndoOk && (!i.createOk || (!i.finalizeUpdateOk && i.deleteUpdateOk))
  {
    var c := CurrentUpdate(s.w.stack.generation, s.status.observedRequest, s.w.nextName, commit);
    assert NameInv(s.w, c.name);
    if i.saveAgainOk {
      var status := Reconciling(s, StackProcessing).status.(currentUpdate := Some(c));
      var s3 := Session(s.w.(nextName := s.w.nextName + 1, stack := s.w.stack.(status := status)), status, None, None);
      assert CreateStage(s, i, commit) == CreateObject(s3, c, i);
      ObjectGetsStuck(s3, c, i);
    }
  }

  lemma ObjectGetsStuck(s: Session, c: CurrentUpdate, i: Input)
    requires s.w.stack.finalizer && s.unsaved.None? && s.pending.None?
    requires s.status == s.w.stack.status && s.status.currentUpdate == Some(c)
    requires c.name !in s.w.updates && c.name !in s.w.running
    ensures IsStuck(CreateObject(s, c, i).0) <==>
            !i.saveUndoOk && (!i.createOk || (!i.finalizeUpdateOk && i.deleteUpdateOk))
  {
    var w := Created(s.w, c, NextType(s.w.stack));
    MeanwhileObserves(w, c.name, i.meanwhile);
    MeanwhileTouchesOnly(w, c.name, i.meanwhile);
  }
}
