/**
 When a Stack is due for an update, and when it is to be looked at again, said in terms of what its status
 and spec hold, in the numbers of the documentation.
 */
module DueDates {
  import opened Prelude
  import opened StackModel
  import opened Sync

  // A failed update is retried after 10s, 30s, 90s and so on, up to a day or the duration in the spec.
  function RetryDelay(spec: StackSpec, failures: nat): int {
    if failures == 0 then 10 * SECOND
    else
      var cap := if spec.retryMaxBackoffSeconds > 0 then spec.retryMaxBackoffSeconds else 86400;
      Min(Interval(failures), cap * SECOND)
  }

  // Sources are polled, and Stacks resynced, no more than once a minute.
  function Poll(spec: StackSpec): int {
    Max(60, spec.resyncFrequencySeconds) * SECOND
  }

  // The last update has nothing to do with what is asked for now.
  predicate OutOfTouch(st: Stack, last: LastUpdate) {
    last.generation != st.generation || last.request != st.request
  }

  predicate Due(st: Stack, status: StackStatus, commit: string, now: int) {
    || status.lastUpdate.None?
    || var last := status.lastUpdate.value;
       || OutOfTouch(st, last)
       || (last.state == SucceededState && st.deleted && last.typ != DestroyType)
       || (last.state == SucceededState && !st.deleted && last.lastSuccessfulCommit != commit)
       || (last.state == SucceededState && !st.deleted && st.spec.continueResyncOnCommitMatch
           && now >= last.resyncTime + Poll(st.spec))
       || (last.state == FailedState && last.lastAttemptedCommit != commit)
       || (last.state == FailedState && last.failures < 3
           && now >= last.resyncTime + RetryDelay(st.spec, last.failures))
  }

  /** isSynced is exactly the absence of a reason to update. */
  lemma SyncedUnlessDue(st: Stack, status: StackStatus, commit: string, now: int)
    ensures IsSynced(st, status, commit, now) <==> !Due(st, status, commit, now)
  {}

  // When the last update is to be followed by another one, if nothing else changes.
  function NextDue(st: Stack, last: LastUpdate): Option<int> {
    if last.state == FailedState && last.failures < 3 then Some(last.resyncTime + RetryDelay(st.spec, last.failures))
    else if last.state == SucceededState && st.spec.continueResyncOnCommitMatch
    then Some(last.resyncTime + Poll(st.spec))
    else None
  }

  predicate TracksBranch(st: Stack) {
    st.spec.source.GitSource? && st.spec.source.trackBranch
  }

  /**
   A synced Stack comes back when its next update is due, but at the soonest in a second; if it tracks a
   branch, whether or not an update is due, it comes back for a poll at the latest; and else never.
   */
  lemma ComesBack(st: Stack, status: StackStatus, now: int)
    requires status.lastUpdate.Some?
    ensures var after, next := RequeueAfter(st, status, now), NextDue(st, status.lastUpdate.value);
            && (next.Some? && !TracksBranch(st) ==> after == Max(SECOND, next.value - now))
            && (next.Some? && TracksBranch(st) ==> after == Max(SECOND, Min(Poll(st.spec), next.value - now)))
            && (next.None? && TracksBranch(st) ==> after == Poll(st.spec))
            && (next.None? && !TracksBranch(st) ==> after == 0)
  {}
}
