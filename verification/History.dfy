/** What LastUpdate says of the history of a Stack, and how long a failed Stack is left alone. */
module History {
  import opened Prelude
  import opened ReadyProtocol
  import opened StackModel
  import opened Sync
  import opened DueDates
  import opened UpdateStream
  import opened UpdateController
  import opened ClusterState
  import opened UpdateSteps
  import opened StackController
  import opened Invariants
  import opened UpdateProofs
  import opened StackProofs
  import opened Runs
  import opened Creation
  import opened Effects
  import opened Retries

  /*** LastUpdate and the history ***/

  predicate SameAsk(a: Absorption, b: Absorption) {
    a.current.generation == b.current.generation && a.current.request == b.current.request
  }

  // From m on, all updates failed at one generation and request, and m is the first such.
  ghost predicate FailsSince(absorbed: seq<Absorption>, m: int) {
    && 0 <= m < |absorbed|
    && var last := absorbed[|absorbed| - 1];
      && (forall k :: m <= k < |absorbed| ==> absorbed[k].failed && SameAsk(absorbed[k], last))
      && (m == 0 || !absorbed[m - 1].failed || !SameAsk(absorbed[m - 1], last))
  }

  // How many failures count: those after the first, which counts only if it follows a success.
  function Counted(absorbed: seq<Absorption>, m: int): int
    requires 0 <= m < |absorbed|
  {
    |absorbed| - 1 - m + if m > 0 && SameAsk(absorbed[m - 1], absorbed[|absorbed| - 1]) then 1 else 0
  }

  lemma {:induction false} FailuresAreCounted(absorbed: seq<Absorption>) returns (m: int)
    requires absorbed != [] && absorbed[|absorbed| - 1].failed
    ensures FailsSince(absorbed, m) && Fold(absorbed).value.failures == Counted(absorbed, m)
  {
    var init, last := absorbed[..|absorbed| - 1], absorbed[|absorbed| - 1];
    m := |init|;
    if init != [] && init[|init| - 1].failed && SameAsk(init[|init| - 1], last) {
      m := FailuresAreCounted(init);
      forall k | m <= k < |absorbed| ensures absorbed[k].failed && SameAsk(absorbed[k], last) {
        assert k < |init| ==> init[k] == absorbed[k];
      }
    }
  }

  // The last success is the k-th absorption.
  predicate LastSuccess(absorbed: seq<Absorption>, k: int) {
    0 <= k < |absorbed| && !absorbed[k].failed && forall j :: k < j < |absorbed| ==> absorbed[j].failed
  }

  lemma {:induction false} SuccessIsRemembered(absorbed: seq<Absorption>)
    requires absorbed != []
    ensures var commit := Fold(absorbed).value.lastSuccessfulCommit;
            || (exists k :: LastSuccess(absorbed, k) && commit == absorbed[k].current.commit)
            || (commit == "" && forall k :: 0 <= k < |absorbed| ==> absorbed[k].failed)
  {
    var init, last := absorbed[..|absorbed| - 1], absorbed[|absorbed| - 1];
    if !last.failed {
      assert LastSuccess(absorbed, |absorbed| - 1);
    } else if init != [] {
      SuccessIsRemembered(init);
      if k :| LastSuccess(init, k) && Fold(init).value.lastSuccessfulCommit == init[k].current.commit {
        assert LastSuccess(absorbed, k);
      } else {
        forall k | 0 <= k < |absorbed| ensures absorbed[k].failed { assert k < |init| ==> init[k] == absorbed[k]; }
      }
    }
  }

  /**
   In every reachable state LastUpdate dates from when its Update was absorbed, counts the failures in a row
   at its generation and request (the first, at a fresh one, counting none), and remembers the commit of
   the last success there was.
   */
  lemma LastUpdateSumsUp(w: Cluster)
    requires Reachable(w) && w.stack.status.lastUpdate.Some?
    ensures var last := w.stack.status.lastUpdate.value;
            && w.absorbed != []
            && last.resyncTime == w.absorbed[|w.absorbed| - 1].time
            && last.lastAttemptedCommit == w.absorbed[|w.absorbed| - 1].current.commit
            && (last.state == SucceededState ==> last.failures == 0)
            && (last.state == FailedState ==>
                  exists m :: FailsSince(w.absorbed, m) && last.failures == Counted(w.absorbed, m))
            && (|| (exists k :: LastSuccess(w.absorbed, k) && last.lastSuccessfulCommit == w.absorbed[k].current.commit)
                || (last.lastSuccessfulCommit == "" && forall k :: 0 <= k < |w.absorbed| ==> w.absorbed[k].failed))
  {
    ReachableInv(w);
    FoldOfLast(w);
    SuccessIsRemembered(w.absorbed);
    if w.stack.status.lastUpdate.value.state == FailedState { var m := FailuresAreCounted(w.absorbed); }
  }

  /*** Backoff ***/

  // The Stack failed last, and what it is asked for has not changed.
  predicate CoolsDown(w: Cluster, last: LastUpdate, commit: string) {
    && w.stack.status.currentUpdate.None? && w.stack.status.lastUpdate == Some(last)
    && w.stack.finalizer && last.state == FailedState && !OutOfTouch(w.stack, last)
    && last.lastAttemptedCommit == (if NeedsNoSource(w.stack, w.stack.status) then "" else commit)
  }

  // The retry that this failure allows is due at that time, if at all.
  predicate TooEarly(st: Stack, last: LastUpdate, now: int) {
    last.failures >= 3 || now < last.resyncTime + RetryDelay(st.spec, last.failures)
  }

  lemma ReconcileCoolsDown(w: Cluster, i: Input, last: LastUpdate, commit: string)
    requires Inv(w) && CoolsDown(w, last, commit) && Frozen(StackReconcile(i), commit)
    requires TooEarly(w.stack, last, i.decidedAt)
    ensures var w' := Reconcile(w, i).0;
            w'.created == w.created && (w'.stack.finalizer ==> CoolsDown(w', last, commit))
  {
    var w' := Reconcile(w, i).0;
    ResultIsTakenOver(w, i);
    ReconcileIsGood(w, i);
    CreationIsDue(w, i);
    ReconcileStack(w, i);
    if Announces(w, w') { AnnouncementIsDue(w, i); }
  }

  // Of the Stack that has its finalizer, a reconcile changes nothing but that and the status.
  lemma ReconcileStack(w: Cluster, i: Input)
    requires Inv(w) && w.stack.finalizer
    ensures Reconcile(w, i).0.stack.generation == w.stack.generation
  {
    var s := Observe(EnsureFinalizer(w, i), w.stack);
    if i.planOk {
      AbsorbIsGood(s, i);
      match AbsorbCurrent(s, i)
      case Proceed(s') => CleanUpStageIsGood(s', i);
      case End(_, _) =>
    }
  }

  lemma StepCoolsDown(w: Cluster, e: Event, last: LastUpdate, commit: string)
    requires Inv(w) && Cool(w, last, commit) && Frozen(e, commit)
    requires e.StackReconcile? ==> TooEarly(w.stack, last, e.i.decidedAt)
    ensures Next(w, e).created == w.created && Cool(Next(w, e), last, commit) && Next(w, e).stack.spec == w.stack.spec
  {
    if e.StackReconcile? {
      ReconcileIsGood(w, e.i);
      if CoolsDown(w, last, commit) {
        ReconcileCoolsDown(w, e.i, last, commit);
      }
    } else if IsUpdateEvent(e) {
      UpdateEventTouchesUpdatesOnly(w, e);
    }
  }

  // The Stack is cooling down, or is gone for good.
  predicate Cool(w: Cluster, last: LastUpdate, commit: string) {
    CoolsDown(w, last, commit) || (w.stack.deleted && !w.stack.finalizer)
  }

  // The states of a run, with the events that lead from each to the next.
  ghost predicate RunsBy(t: seq<Cluster>, es: seq<Event>) {
    |t| == |es| + 1 && forall k :: 0 <= k < |es| ==> StepsBy(t, es, k)
  }

  ghost predicate StepsBy(t: seq<Cluster>, es: seq<Event>, k: nat)
    requires k < |es| && k + 1 < |t|
  {
    t[k + 1] == Next(t[k], es[k])
  }

  // Inputs do not change, and every reconcile decides too early for a retry.
  predicate KeepsCool(es: seq<Event>, st: Stack, last: LastUpdate, commit: string, k: nat)
    requires k <= |es|
  {
    forall j :: 0 <= j < k ==>
      Frozen(es[j], commit) && (es[j].StackReconcile? ==> TooEarly(st, last, es[j].i.decidedAt))
  }

  /** Backoff: with unchanged inputs, until the delay for the last failure has passed no reconcile creates an Update. */
  lemma {:induction false} NoRetryTooEarly(t: seq<Cluster>, es: seq<Event>, k: nat, last: LastUpdate, commit: string)
    requires RunsBy(t, es) && k <= |es| && Inv(t[0]) && Cool(t[0], last, commit)
    requires KeepsCool(es, t[0].stack, last, commit, k)
    ensures t[k].created == t[0].created && Cool(t[k], last, commit) && Inv(t[k]) && t[k].stack.spec == t[0].stack.spec
  {
    if k > 0 {
      NoRetryTooEarly(t, es, k - 1, last, commit);
      assert StepsBy(t, es, k - 1);
      NextKeepsInv(t[k - 1], es[k - 1]);
      StepCoolsDown(t[k - 1], es[k - 1], last, commit);
    }
  }

  // Reconciles decide in the order of their clocks.
  predicate ClockGoesOn(es: seq<Event>) {
    forall j, k :: 0 <= j < k < |es| && es[j].StackReconcile? && es[k].StackReconcile? ==>
      es[j].i.decidedAt <= es[k].i.decidedAt
  }

  /**
   So with a clock that does not go back, the first reconcile that creates an Update after a failure comes no
   earlier than 10s, 30s or 90s after that was absorbed, or what the cap makes of it; and after the third
   retry there is none.
   */
  lemma FirstRetryIsLate(t: seq<Cluster>, es: seq<Event>, k: nat, last: LastUpdate, commit: string)
    requires RunsBy(t, es) && k < |es| && Reachable(t[0]) && CoolsDown(t[0], last, commit)
    requires ClockGoesOn(es) && forall j :: 0 <= j <= k ==> Frozen(es[j], commit)
    requires es[k].StackReconcile? && t[k + 1].created != t[0].created && t[k].created == t[0].created
    ensures last.failures < 3 && es[k].i.decidedAt >= last.resyncTime + RetryDelay(t[0].stack.spec, last.failures)
    ensures t[0].absorbed != [] && last.resyncTime == t[0].absorbed[|t[0].absorbed| - 1].time
  {
    ReachableInv(t[0]);
    LastUpdateSumsUp(t[0]);
    if TooEarly(t[0].stack, last, es[k].i.decidedAt) {
      assert KeepsCool(es, t[0].stack, last, commit, k + 1);
      NoRetryTooEarly(t, es, k + 1, last, commit);
      assert false;
    }
  }

  // The result is a failure of what is asked for still.
  predicate FailsAsAsked(w: Cluster, commit: string) {
    && HasResult(w)
    && var c := w.stack.status.currentUpdate.value;
      && w.updates[c.name].status.failed == Yes
      && c.generation == w.stack.generation && c.request == w.stack.request
      && c.commit == (if NeedsNoSource(w.stack, w.stack.status) then "" else commit)
  }

  predicate DelayBegins(w': Cluster, time: int, commit: string) {
    && w'.stack.status.lastUpdate.Some?
    && CoolsDown(w', w'.stack.status.lastUpdate.value, commit)
    && w'.stack.status.lastUpdate.value.resyncTime == time
  }

  lemma TakenOverDelays(w: Cluster, i: Input, w': Cluster, commit: string)
    requires FailsAsAsked(w, commit) && ResultTaken(w, i, w') && Frozen(StackReconcile(i), commit)
    requires w'.stack == w.stack.(status := w'.stack.status) && w.stack.finalizer
    requires TooEarly(w.stack, w'.stack.status.lastUpdate.value, i.decidedAt)
    requires Announces(w, w') ==> MayAnnounce(w'.stack, i)
    ensures DelayBegins(w', i.absorbedAt, commit)
  {}

  predicate MayAnnounce(st: Stack, i: Input) {
    && (NeedsNoSource(st, st.status) || i.source.Resolved?)
    && Due(st, st.status, CommitOf(st, st.status, i), i.decidedAt)
  }

  /** And this is how the delay begins: with the reconcile that takes the failure over, at the time when it does. */
  lemma FailureStartsDelay(w: Cluster, i: Input, commit: string)
    requires Reachable(w) && w.stack.finalizer && FailsAsAsked(w, commit) && Frozen(StackReconcile(i), commit)
    requires var w' := Reconcile(w, i).0;
             && w'.absorbed != w.absorbed && w'.stack.finalizer
             && w'.stack.status.lastUpdate.Some?
             && TooEarly(w.stack, w'.stack.status.lastUpdate.value, i.decidedAt)
    ensures DelayBegins(Reconcile(w, i).0, i.absorbedAt, commit)
  {
    var w' := Reconcile(w, i).0;
    ReachableInv(w);
    ResultIsTakenOver(w, i);
    StackStays(w, i);
    if Announces(w, w') { AnnouncementIsDue(w, i); }
    TakenOverDelays(w, i, w', commit);
  }

  lemma StackStays(w: Cluster, i: Input)
    requires Inv(w) && w.stack.finalizer && Reconcile(w, i).0.stack.finalizer
    ensures Reconcile(w, i).0.stack == w.stack.(status := Reconcile(w, i).0.stack.status)
  {
    ReconcileIsGood(w, i);
    ReconcileStack(w, i);
  }
}
