/**
 Bounded retries: with generation, request, commit and spec fixed and no periodic resync, only so
 many Updates are still created, and then the Stack stays in sync for ever.
 */
module Retries {
  import opened Prelude
  import opened ReadyProtocol
  import opened StackModel
  import opened Sync
  import opened Outputs
  import opened UpdateStream
  import opened UpdateController
  import opened ClusterState
  import opened StackController
  import opened Invariants
  import opened UpdateSteps
  import opened UpdateProofs
  import opened StackProofs
  import opened Runs

  // The retries left after so many failures.
  function Left(failures: nat): nat {
    if failures >= MAX_UPDATE_FAILURES then 0 else MAX_UPDATE_FAILURES - failures
  }

  // The commit a reconcile works with when the source resolves to `commit`.
  function Effective(st: Stack, status: StackStatus, commit: string): string {
    if UsesProjectInfo(st, status) || st.spec.source.NoSource? then "" else commit
  }

  // How many more Updates a Stack without an outstanding one may create.
  function Remaining(st: Stack, status: StackStatus, commit: string): nat {
    if status.lastUpdate.None? then MAX_UPDATE_FAILURES + 1
    else
      var last := status.lastUpdate.value;
      if last.generation != st.generation || last.request != st.request then MAX_UPDATE_FAILURES + 1
      else match last.state
        case SucceededState =>
          if st.deleted then (if last.typ == DestroyType then 0 else 1 + Left(1))
          else if last.lastSuccessfulCommit == Effective(st, status, commit) then 0 else 1 + Left(1)
        case FailedState =>
          if last.lastAttemptedCommit == Effective(st, status, commit) then Left(last.failures)
          else 1 + Left(last.failures + 1)
        case UnknownState => 0
  }

  // The status after absorbing the outstanding Update with the given verdict.
  function AfterVerdict(status: StackStatus, c: CurrentUpdate, typ: UpdateType, failed: bool): StackStatus {
    status.(lastUpdate := Some(Absorb(status.lastUpdate, Absorption(c, typ, failed, "", "", 0))), currentUpdate := None)
  }

  // How many more Updates the cluster may create, whatever the outstanding one comes to.
  function Budget(w: Cluster, commit: string): nat {
    var st, status := w.stack, w.stack.status;
    if status.currentUpdate.None? then Remaining(st, status, commit)
    else
      var c := status.currentUpdate.value;
      if c.name !in w.updates then 0
      else
        var typ := w.updates[c.name].typ;
        var failed := Remaining(st, AfterVerdict(status, c, typ, true), commit);
        var succeeded := Remaining(st, AfterVerdict(status, c, typ, false), commit);
        if failed < succeeded then succeeded else failed
  }

  lemma BudgetIsSmall(w: Cluster, commit: string)
    ensures Budget(w, commit) <= MAX_UPDATE_FAILURES + 1
  {}

  // Nothing that an update depends on changes: no edit, delete or annotation, and no other commit.
  predicate Frozen(e: Event, commit: string) {
    match e
    case StackReconcile(i) => i.source.Resolved? ==> i.source.commit == commit
    case EditSpec(_) => false
    case DeleteStack => false
    case Annotate(_) => false
    case _ => true
  }

  predicate NoPeriodicResync(st: Stack) { st.deleted || !st.spec.continueResyncOnCommitMatch }

  // From w to w' each created Update is paid for from the budget, except those that lost their finalizer.
  ghost predicate Paid(w: Cluster, w': Cluster, before: nat, commit: string) {
    && w'.created >= w.created && w'.faults >= w.faults
    && w'.created - w.created + Budget(w', commit) <= before + (w'.faults - w.faults)
    && (before == 0 ==> w'.created == w.created && w'.faults == w.faults)
  }

  /*** The stages ***/

  // Conditions and observations do not count.
  lemma RemainingDependsOn(st: Stack, st': Stack, status: StackStatus, status': StackStatus, commit: string)
    requires st'.spec == st.spec && st'.generation == st.generation && st'.request == st.request
    requires st'.deleted == st.deleted
    requires status'.lastUpdate == status.lastUpdate && status'.projectInfo == status.projectInfo
    ensures Remaining(st', status', commit) == Remaining(st, status, commit)
  {}

  // A session costs no more than the cluster it works on.
  ghost predicate Covered(s: Session, before: nat, commit: string) {
    && Remaining(s.w.stack, s.status, commit) <= before
    && Budget(s.w, commit) <= before
  }

  ghost predicate Ends(s: Session) {
    s.status.currentUpdate.None? && (s.pending.Some? ==> s.w.stack.status.currentUpdate.Some?)
  }

  lemma SavePaid(s: Session, ok: bool, releaseOk: bool, before: nat, commit: string)
    requires Covered(s, before, commit) && s.status.currentUpdate.None?
    requires s.pending.Some? ==> ok || s.w.stack.status.currentUpdate.Some?
    ensures var s' := Save(s, ok, releaseOk);
            Paid(s.w, s'.w, before, commit) && Covered(s', before, commit) && s'.status == s.status
  {
    if ok {
      var w' := Save(s, ok, releaseOk).w;
      RemainingDependsOn(s.w.stack, w'.stack, s.status, w'.stack.status, commit);
    }
  }

  lemma MarkedIsCovered(s: Session, reason: Reason, before: nat, commit: string)
    requires Covered(s, before, commit)
    ensures Covered(Reconciling(s, reason), before, commit) && Covered(Stalled(s, reason), before, commit)
            && Covered(Ready(s), before, commit)
  {}

  lemma MarkPaid(s: Session, reason: Reason, i: Input, after: int, before: nat, commit: string)
    requires Covered(s, before, commit) && Ends(s)
    ensures Paid(s.w, SaveAndReturn(Stalled(s, reason), i, after).0, before, commit)
    ensures Paid(s.w, SaveAndReturn(Reconciling(s, reason), i, after).0, before, commit)
  {
    MarkedIsCovered(s, reason, before, commit);
    SavePaid(Stalled(s, reason), i.saveOk, i.releaseOk, before, commit);
    SavePaid(Reconciling(s, reason), i.saveOk, i.releaseOk, before, commit);
  }

  // Releasing or losing Updates can only shrink the budget.
  lemma FewerUpdatesCostLess(w: Cluster, w': Cluster, commit: string)
    requires w'.stack.status == w.stack.status && w'.stack.spec == w.stack.spec && w'.stack.deleted == w.stack.deleted
    requires w'.stack.generation == w.stack.generation && w'.stack.request == w.stack.request
    requires forall n :: n in w'.updates ==> n in w.updates && w'.updates[n].typ == w.updates[n].typ
    ensures Budget(w', commit) <= Budget(w, commit)
  {}

  lemma ReclaimPaid(s: Session, i: Input, after: int, before: nat, commit: string)
    requires Covered(s, before, commit) && s.status.currentUpdate.None?
    ensures Paid(s.w, ReclaimStage(s, i, after).0, before, commit)
  {
    var released := if s.pending.Some? then Release(s.w, s.pending.value) else s.w;
    FewerUpdatesCostLess(s.w, released, commit);
    var s2 := s.(w := released.(workspace := None), pending := None);
    FewerUpdatesCostLess(s.w, s2.w, commit);
    SavePaid(s2, i.saveOk, i.releaseOk, before, commit);
  }

  lemma DropPaid(w: Cluster, i: Input, commit: string)
    ensures Budget(DropFinalizer(w, i).0, commit) == Budget(w, commit)
    ensures DropFinalizer(w, i).0.created == w.created && DropFinalizer(w, i).0.faults == w.faults
  {
    FewerUpdatesCostLess(w, DropFinalizer(w, i).0, commit);
    FewerUpdatesCostLess(DropFinalizer(w, i).0, w, commit);
  }

  lemma ResultIsCovered(s: Session, before: nat, commit: string)
    requires Covered(s, before, commit) && Ends(s) && s.status.lastUpdate.Some?
    ensures Covered(MarkResult(s), before, commit) && Ends(MarkResult(s)) && MarkResult(s).w == s.w
  {
    RemainingDependsOn(s.w.stack, s.w.stack, s.status, MarkResult(s).status, commit);
  }

  lemma SyncedPaid(s: Session, i: Input, before: nat, commit: string)
    requires Covered(s, before, commit) && Ends(s) && s.status.lastUpdate.Some?
    ensures Paid(s.w, SyncedStage(s, i).0, before, commit)
  {
    var s1 := MarkResult(s);
    ResultIsCovered(s, before, commit);
    SavePaid(s1, i.saveOk, i.releaseOk, before, commit);
    if s.w.stack.deleted {
      DropPaid(Save(s1, i.saveOk, i.releaseOk).w, i, commit);
    } else {
      ReclaimPaid(s1, i, RequeueAfter(s.w.stack, s.status, i.requeuedAt), before, commit);
    }
  }

  // A Stack that is not in sync has something left, and a further attempt uses one of it up.
  lemma AttemptUsesOneUp(st: Stack, status: StackStatus, c: CurrentUpdate, typ: UpdateType, commit: string, now: int)
    requires !IsSynced(st, status, Effective(st, status, commit), now) && NoPeriodicResync(st)
    requires c.generation == st.generation && c.request == st.request && c.commit == Effective(st, status, commit)
    requires st.deleted ==> typ == DestroyType
    ensures Remaining(st, status, commit) >= 1
    ensures Remaining(st, AfterVerdict(status, c, typ, true), commit) <= Remaining(st, status, commit) - 1
    ensures Remaining(st, AfterVerdict(status, c, typ, false), commit) <= Remaining(st, status, commit) - 1
  {}

  lemma CreateObjectPaid(s: Session, c: CurrentUpdate, i: Input, before: nat, commit: string)
    requires s.pending.None? && s.unsaved.None? && s.status == s.w.stack.status && s.status.currentUpdate == Some(c)
    requires c.name !in s.w.updates
    requires 1 <= Remaining(s.w.stack, s.status, commit) <= before
    requires var typ := NextType(s.w.stack);
             && Remaining(s.w.stack, AfterVerdict(s.status, c, typ, true), commit) <= before - 1
             && Remaining(s.w.stack, AfterVerdict(s.status, c, typ, false), commit) <= before - 1
    ensures Paid(s.w, CreateObject(s, c, i).0, before, commit)
  {
    var w' := CreateObject(s, c, i).0;
    MeanwhileTouchesOnly(Created(s.w, c, NextType(s.w.stack)), c.name, i.meanwhile);
    RemainingDependsOn(s.w.stack, w'.stack, s.status, w'.stack.status, commit);
    var typ := NextType(s.w.stack);
    assert w'.stack.status.currentUpdate.Some? ==> w'.stack == s.w.stack;
  }

  // Announcing the attempt changes nothing about what it will have used up.
  lemma AnnouncedIsCovered(s: Session, s3: Session, c: CurrentUpdate, before: nat, commit: string)
    requires 1 <= Remaining(s.w.stack, s.status, commit) <= before
    requires forall failed ::
               Remaining(s.w.stack, AfterVerdict(s.status, c, NextType(s.w.stack), failed), commit) <= before - 1
    requires s3.w.stack == s.w.stack.(status := s3.w.stack.status)
    requires s3.status.lastUpdate == s.status.lastUpdate && s3.status.projectInfo == s.status.projectInfo
    ensures 1 <= Remaining(s3.w.stack, s3.status, commit) <= before
    ensures forall failed ::
              Remaining(s3.w.stack, AfterVerdict(s3.status, c, NextType(s3.w.stack), failed), commit) <= before - 1
  {
    RemainingDependsOn(s.w.stack, s3.w.stack, s.status, s3.status, commit);
    forall failed
        ensures Remaining(s3.w.stack, AfterVerdict(s3.status, c, NextType(s3.w.stack), failed), commit) <= before - 1
    {
      RemainingDependsOn(s.w.stack, s3.w.stack, AfterVerdict(s.status, c, NextType(s.w.stack), failed),
                         AfterVerdict(s3.status, c, NextType(s.w.stack), failed), commit);
    }
  }

  lemma CreatePaid(s: Session, i: Input, before: nat, answer: string)
    requires Covered(s, before, answer) && Settled(s) && RequestStands(s) && s.unsaved.None?
    requires NoPeriodicResync(s.w.stack)
    requires !IsSynced(s.w.stack, s.status, Effective(s.w.stack, s.status, answer), i.decidedAt)
    ensures Paid(s.w, CreateStage(s, i, Effective(s.w.stack, s.status, answer)).0, before, answer)
  {
    var commit := Effective(s.w.stack, s.status, answer);
    var c := CurrentUpdate(s.w.stack.generation, s.status.observedRequest, s.w.nextName, commit);
    var status := Reconciling(s, StackProcessing).status.(currentUpdate := Some(c));
    AttemptUsesOneUp(s.w.stack, s.status, c, NextType(s.w.stack), answer, i.decidedAt);
    assert NameInv(s.w, c.name);
    if i.saveAgainOk {
      var s3 := Session(s.w.(nextName := s.w.nextName + 1, stack := s.w.stack.(status := status)), status, None, None);
      assert CreateStage(s, i, commit) == CreateObject(s3, c, i);
      AnnouncedIsCovered(s, s3, c, before, answer);
      CreateObjectPaid(s3, c, i, before, answer);
    } else {
      FewerUpdatesCostLess(s.w, CreateStage(s, i, commit).0, answer);
    }
  }

  lemma RunPaid(s: Session, i: Input, before: nat, answer: string)
    requires Covered(s, before, answer) && Settled(s) && RequestStands(s) && s.unsaved.None? && s.w.workspace.Some?
    requires NoPeriodicResync(s.w.stack)
    requires !IsSynced(s.w.stack, s.status, Effective(s.w.stack, s.status, answer), i.decidedAt)
    ensures Paid(s.w, RunStage(s, i, Effective(s.w.stack, s.status, answer)).0, before, answer)
  {
    if IsWorkspaceReady(s.w.workspace) {
      CreatePaid(s, i, before, answer);
    } else if s.w.workspace.value.stalled.Some? {
      var reason := StallReasonOf(s.w.workspace.value.stalled.value);
      MarkedIsCovered(s, reason, before, answer);
      SavePaid(Stalled(s, reason), i.saveAgainOk, i.releaseOk, before, answer);
      DropPaid(s.w, i, answer);
    }
  }

  lemma ApplyPaid(s: Session, i: Input, before: nat, answer: string)
    requires Covered(s, before, answer) && Settled(s) && RequestStands(s) && s.unsaved.None? && i.apply.Applied?
    requires NoPeriodicResync(s.w.stack)
    requires !IsSynced(s.w.stack, s.status, Effective(s.w.stack, s.status, answer), i.decidedAt)
    ensures var s' := s.(w := ApplyWorkspace(s.w, i.apply.changed));
            Paid(s.w, RunStage(s', i, Effective(s.w.stack, s.status, answer)).0, before, answer)
  {
    var s' := s.(w := ApplyWorkspace(s.w, i.apply.changed));
    WorkspaceIsFree(s.w, s'.w.workspace);
    FewerUpdatesCostLess(s.w, s'.w, answer);
    RunPaid(s', i, before, answer);
  }

  lemma LaunchSaved(s: Session, i: Input, before: nat, answer: string)
    requires Covered(s, before, answer) && Settled(s) && RequestStands(s) && Ends(s)
    ensures var s1 := Save(Reconciling(s, StackProcessing), true, i.releaseOk);
            && Paid(s.w, s1.w, before, answer) && Covered(s1, before, answer)
            && Settled(s1) && RequestStands(s1) && s1.unsaved.None? && s1.pending.None? && Frame(s.w, s1.w)
            && s1.w.created == s.w.created && s1.w.faults == s.w.faults
            && s1.status == Reconciling(s, StackProcessing).status
  {
    MarkedIsCovered(s, StackProcessing, before, answer);
    SavePaid(Reconciling(s, StackProcessing), true, i.releaseOk, before, answer);
    MarksAreSavable(s, StackProcessing);
    SaveIsGood(Reconciling(s, StackProcessing), true, i.releaseOk);
  }

  lemma LaunchPaid(s: Session, i: Input, before: nat, answer: string)
    requires Covered(s, before, answer) && Settled(s) && RequestStands(s) && Ends(s)
    requires NoPeriodicResync(s.w.stack)
    requires !IsSynced(s.w.stack, s.status, Effective(s.w.stack, s.status, answer), i.decidedAt)
    ensures Paid(s.w, LaunchStage(s, i, Effective(s.w.stack, s.status, answer)).0, before, answer)
  {
    if i.saveOk {
      LaunchSaved(s, i, before, answer);
      var s1 := Save(Reconciling(s, StackProcessing), true, i.releaseOk);
      if i.apply.Applied? {
        ApplyPaid(s1, i, before, answer);
      } else if i.apply.NamespaceIsTerminating? {
        MarkedIsCovered(s1, NamespaceTerminating, before, answer);
        SavePaid(Stalled(s1, NamespaceTerminating), i.saveAgainOk, i.releaseOk, before, answer);
      }
    }
  }

  lemma PrerequisitePaid(s: Session, i: Input, before: nat, answer: string)
    requires Covered(s, before, answer) && Settled(s) && RequestStands(s) && Ends(s)
    requires NoPeriodicResync(s.w.stack)
    requires !IsSynced(s.w.stack, s.status, Effective(s.w.stack, s.status, answer), i.decidedAt)
    ensures Paid(s.w, PrerequisiteStage(s, i, Effective(s.w.stack, s.status, answer)).0, before, answer)
  {
    if s.w.stack.deleted || i.prereq == Satisfied {
      LaunchPaid(s, i, before, answer);
    } else if i.prereq == Unsatisfied {
      MarkPaid(s, PrerequisiteNotSatisfied, i, 0, before, answer);
    }
  }

  lemma SetupPaid(s: Session, i: Input, before: nat, answer: string)
    requires Covered(s, before, answer) && Settled(s) && RequestStands(s) && Ends(s)
    requires NoPeriodicResync(s.w.stack)
    ensures Paid(s.w, SetupStage(s, i, Effective(s.w.stack, s.status, answer)).0, before, answer)
  {
    match i.setup
    case SetupBroken =>
    case SetupStalled =>
      MarkPaid(s, SpecInvalid, i, 0, before, answer);
    case SetupDone =>
      if IsSynced(s.w.stack, s.status, Effective(s.w.stack, s.status, answer), i.decidedAt) {
        SyncedPaid(s, i, before, answer);
      } else {
        PrerequisitePaid(s, i, before, answer);
      }
  }

  lemma LeavePaid(s: Session, i: Input, before: nat, answer: string)
    requires Covered(s, before, answer) && Ends(s) && i.saveOk
    ensures Paid(s.w, DropFinalizer(Save(Ready(s), true, i.releaseOk).w, i).0, before, answer)
  {
    MarkedIsCovered(s, SpecInvalid, before, answer);
    SavePaid(Ready(s), true, i.releaseOk, before, answer);
    DropPaid(Save(Ready(s), true, i.releaseOk).w, i, answer);
  }

  lemma CleanUpPaid(s: Session, i: Input, before: nat, answer: string)
    requires Covered(s, before, answer) && Settled(s) && RequestStands(s) && Ends(s)
    requires NoPeriodicResync(s.w.stack) && Frozen(StackReconcile(i), answer)
    ensures Paid(s.w, CleanUpStage(s, i).0, before, answer)
  {
    var st := s.w.stack;
    if st.deleted && (!st.spec.destroyOnFinalize || st.spec.preview) {
      if i.saveOk { LeavePaid(s, i, before, answer); }
    } else {
      match ResolveSource(st, s.status, i.source)
      case Resolved(commit) =>
        assert commit == Effective(st, s.status, answer);
        SetupPaid(s, i, before, answer);
      case SourceBroken =>
      case SourceInvalid =>
        MarkPaid(s, SpecInvalid, i, 0, before, answer);
      case SourceMissing =>
        MarkPaid(s, SourceUnavailable, i, SOURCE_UNAVAILABLE_WAIT, before, answer);
    }
  }

  // Times, messages and, after a success, the project info do not count.
  lemma VerdictIsForeseen(st: Stack, status: StackStatus, status': StackStatus, a: Absorption, commit: string)
    requires status'.lastUpdate == Some(Absorb(status.lastUpdate, a))
    requires a.failed ==> status'.projectInfo == status.projectInfo
    ensures Remaining(st, status', commit) == Remaining(st, AfterVerdict(status, a.current, a.typ, a.failed), commit)
  {}

  lemma ForeseenInBudget(w: Cluster, c: CurrentUpdate, failed: bool, commit: string)
    requires w.stack.status.currentUpdate == Some(c) && c.name in w.updates
    ensures Remaining(w.stack, AfterVerdict(w.stack.status, c, w.updates[c.name].typ, failed), commit)
            <= Budget(w, commit)
  {}

  // Whatever the outstanding Update came to, the budget had reckoned with it.
  lemma AbsorbedIsCovered(s: Session, c: CurrentUpdate, shown: Option<map<string, Shown>>, time: int, commit: string)
    requires s.status.lastUpdate == s.w.stack.status.lastUpdate && s.status.projectInfo == s.w.stack.status.projectInfo
    requires s.w.stack.status.currentUpdate == Some(c) && c.name in s.w.updates
    requires s.w.updates[c.name].status.failed != Yes && s.w.updates[c.name].status.outputs ==> shown.Some?
    ensures Covered(Absorbed(s, c, s.w.updates[c.name], shown, time), Budget(s.w, commit), commit)
  {
    var u := s.w.updates[c.name];
    var status := Absorbed(s, c, u, shown, time).status;
    VerdictIsForeseen(s.w.stack, s.w.stack.status, status, AbsorptionOf(c, u, time), commit);
    ForeseenInBudget(s.w, c, u.status.failed == Yes, commit);
  }

  lemma AbsorbPaid(s: Session, i: Input, answer: string)
    requires SessionInv(s) && RequestStands(s) && s.unsaved.None?
    requires s.status.projectInfo == s.w.stack.status.projectInfo
    requires NoPeriodicResync(s.w.stack) && Frozen(StackReconcile(i), answer)
    ensures Paid(s.w, AbsorbStage(s, i).0, Budget(s.w, answer), answer)
  {
    AbsorbIsGood(s, i);
    if s.status.currentUpdate.None? {
      RemainingDependsOn(s.w.stack, s.w.stack, s.status, s.w.stack.status, answer);
      CleanUpPaid(s, i, Budget(s.w, answer), answer);
    } else if AbsorbCurrent(s, i).Proceed? {
      var c := s.status.currentUpdate.value;
      AbsorbedIsCovered(s, c, ShownOutputs(i.secret), i.absorbedAt, answer);
      CleanUpPaid(AbsorbCurrent(s, i).s, i, Budget(s.w, answer), answer);
    } else {
      WaitPaid(s, i, answer);
    }
  }

  lemma WaitPaid(s: Session, i: Input, answer: string)
    requires SessionInv(s) && RequestStands(s) && s.unsaved.None?
    requires s.status.projectInfo == s.w.stack.status.projectInfo && s.status.currentUpdate.Some?
    ensures Budget(SaveAndReturn(Reconciling(s, StackProcessing), i, 0).0, answer) <= Budget(s.w, answer)
  {
    var w' := SaveAndReturn(Reconciling(s, StackProcessing), i, 0).0;
    var c := s.status.currentUpdate.value;
    if i.saveOk && c.name in s.w.updates {
      var typ := s.w.updates[c.name].typ;
      RemainingDependsOn(s.w.stack, w'.stack, AfterVerdict(s.w.stack.status, c, typ, true),
                         AfterVerdict(w'.stack.status, c, typ, true), answer);
      RemainingDependsOn(s.w.stack, w'.stack, AfterVerdict(s.w.stack.status, c, typ, false),
                         AfterVerdict(w'.stack.status, c, typ, false), answer);
    }
  }

  lemma ReconcilePaid(w: Cluster, i: Input, answer: string)
    requires Inv(w) && NoPeriodicResync(w.stack) && Frozen(StackReconcile(i), answer)
    ensures Paid(w, Reconcile(w, i).0, Budget(w, answer), answer)
  {
    var st := w.stack;
    if !(st.deleted && !st.finalizer) && (st.finalizer || i.addFinalizerOk) {
      var w1 := EnsureFinalizer(w, i);
      if !st.deleted { FinalizerKeepsInv(w, i); }
      assert Budget(w1, answer) == Budget(w, answer) by {
        if !st.finalizer { assert st.status.lastUpdate.None? && st.status.currentUpdate.None?; }
      }
      if i.planOk { AbsorbPaid(Observe(w1, st), i, answer); }
    }
  }

  /*** Runs ***/

  lemma FrozenStep(w: Cluster, e: Event, answer: string)
    requires Inv(w) && NoPeriodicResync(w.stack) && Frozen(e, answer)
    ensures Inv(Next(w, e)) && NoPeriodicResync(Next(w, e).stack)
    ensures Paid(w, Next(w, e), Budget(w, answer), answer)
  {
    NextKeepsInv(w, e);
    if e.StackReconcile? {
      ReconcilePaid(w, e.i, answer);
      ReconcileIsGood(w, e.i);
    } else if e.Crash? || e.WorkspaceChange? {
      FewerUpdatesCostLess(w, Next(w, e), answer);
    } else {
      UpdateEventTouchesUpdatesOnly(w, e);
      FewerUpdatesCostLess(w, Next(w, e), answer);
    }
  }

  ghost predicate LeadsFrozen(w: Cluster, w': Cluster, answer: string) {
    exists e :: Frozen(e, answer) && w' == Next(w, e)
  }

  ghost predicate FrozenAt(t: seq<Cluster>, k: nat, answer: string)
    requires k + 1 < |t|
  {
    LeadsFrozen(t[k], t[k + 1], answer)
  }

  // The states of a run in which nothing that an update depends on changes.
  ghost predicate ContinuesFrozen(t: seq<Cluster>, answer: string) {
    |t| > 0 && forall k :: 0 <= k < |t| - 1 ==> FrozenAt(t, k, answer)
  }

  lemma FrozenLead(w: Cluster, w': Cluster, answer: string)
    requires LeadsFrozen(w, w', answer) && Inv(w) && NoPeriodicResync(w.stack)
    ensures Inv(w') && NoPeriodicResync(w'.stack) && Paid(w, w', Budget(w, answer), answer)
  {
    var e :| Frozen(e, answer) && w' == Next(w, e);
    FrozenStep(w, e, answer);
  }

  // What a frozen run keeps, from its first state on.
  ghost predicate PaidSince(w: Cluster, w': Cluster, answer: string) {
    Inv(w') && NoPeriodicResync(w'.stack) && Paid(w, w', Budget(w, answer), answer)
  }

  lemma PaidSinceThen(w: Cluster, m: Cluster, w': Cluster, answer: string)
    requires PaidSince(w, m, answer) && LeadsFrozen(m, w', answer)
    ensures PaidSince(w, w', answer)
  {
    FrozenLead(m, w', answer);
    PaidThen(w, m, w', answer);
  }

  lemma PaidThen(w: Cluster, m: Cluster, w': Cluster, answer: string)
    requires Paid(w, m, Budget(w, answer), answer) && Paid(m, w', Budget(m, answer), answer)
    ensures Paid(w, w', Budget(w, answer), answer)
  {}

  lemma PaidFirst(w: Cluster, answer: string)
    requires Inv(w) && NoPeriodicResync(w.stack)
    ensures PaidSince(w, w, answer)
  {}

  lemma {:induction false} FrozenRun(t: seq<Cluster>, k: nat, answer: string)
    requires ContinuesFrozen(t, answer) && PaidSince(t[0], t[0], answer) && k < |t|
    ensures PaidSince(t[0], t[k], answer)
    decreases k
  {
    if k > 0 {
      FrozenRun(t, k - 1, answer);
      PaidSinceStep(t, k - 1, answer);
    }
  }

  lemma PaidSinceStep(t: seq<Cluster>, k: nat, answer: string)
    requires ContinuesFrozen(t, answer) && k + 1 < |t| && PaidSince(t[0], t[k], answer)
    ensures PaidSince(t[0], t[k + 1], answer)
  {
    assert FrozenAt(t, k, answer);
    PaidSinceThen(t[0], t[k], t[k + 1], answer);
  }

  /**
   Bounded retries.  From any reachable state, with generation, request, commit and spec fixed and no
   periodic resync, at most maxUpdateFailures + 1 more Updates are created, not counting those whose
   finalizer could not be added.
   */
  lemma BoundedRetries(t: seq<Cluster>, k: nat, answer: string)
    requires ContinuesFrozen(t, answer) && k < |t| && Reachable(t[0]) && NoPeriodicResync(t[0].stack)
    ensures t[k].created - t[0].created <= MAX_UPDATE_FAILURES + 1 + (t[k].faults - t[0].faults)
  {
    ReachableInv(t[0]);
    PaidFirst(t[0], answer);
    FrozenRun(t, k, answer);
    BudgetIsSmall(t[0], answer);
  }

  /** A Stack without an outstanding Update has nothing left to try just when it is in sync at every time to come. */
  lemma NothingLeftMeansSynced(st: Stack, status: StackStatus, answer: string)
    requires NoPeriodicResync(st)
    ensures Remaining(st, status, answer) == 0 <==> forall t :: IsSynced(st, status, Effective(st, status, answer), t)
  {
    if Remaining(st, status, answer) != 0 && status.lastUpdate.Some? {
      var late := status.lastUpdate.value.resyncTime + Cooldown(st.spec, status.lastUpdate);
      assert !IsSynced(st, status, Effective(st, status, answer), late);
    } else if status.lastUpdate.None? {
      assert !IsSynced(st, status, Effective(st, status, answer), 0);
    }
  }

  /**
   Quiescence.  Once the budget is spent, no run with the same inputs creates another Update, and
   whenever no Update is outstanding the Stack is in sync, now and at every later time.
   */
  lemma Quiescence(t: seq<Cluster>, k: nat, answer: string, time: int)
    requires ContinuesFrozen(t, answer) && k < |t| && Reachable(t[0]) && NoPeriodicResync(t[0].stack)
    requires Budget(t[0], answer) == 0
    ensures t[k].created == t[0].created && Budget(t[k], answer) == 0
    ensures t[k].stack.status.currentUpdate.None? ==>
              IsSynced(t[k].stack, t[k].stack.status, Effective(t[k].stack, t[k].stack.status, answer), time)
  {
    ReachableInv(t[0]);
    PaidFirst(t[0], answer);
    FrozenRun(t, k, answer);
    NothingLeftMeansSynced(t[k].stack, t[k].stack.status, answer);
  }
}
