/**
 The decisions of the Stack reconciler (stack_controller.go): is the Stack in sync, how long to
 back off, and when to come back.
 */
module Sync {
  import opened Prelude
  import opened StackModel

  const MAX_UPDATE_FAILURES: nat := 3
  const MAX_INT: nat := 0x7fff_ffff_ffff_ffff
  const DAY: int := 86400 * SECOND

  // Ten seconds, tripled n times.
  function Interval(n: nat): (r: int)
    ensures r >= 10 * SECOND
  {
    if n == 0 then 10 * SECOND else 3 * Interval(n - 1)
  }

  /*** Backoff ***/

  function BackoffCap(spec: StackSpec): int {
    if spec.retryMaxBackoffSeconds > 0 then spec.retryMaxBackoffSeconds * SECOND else DAY
  }

  // The closed form of the exponential backoff.
  function BackoffAfter(failures: nat, cap: int): int {
    if failures == 0 then 10 * SECOND else Min(Interval(failures), cap)
  }

  function Cooldown(spec: StackSpec, last: Option<LastUpdate>): int {
    if last.Some? && last.value.state == FailedState then BackoffAfter(last.value.failures, BackoffCap(spec)) else 0
  }

  /** wait.Backoff with Factor 3 and no jitter. */
  class Backoff {
    var duration: int
    var cap: int
    var steps: int

    constructor(duration: int, cap: int, steps: int)
      ensures this.duration == duration && this.cap == cap && this.steps == steps
    {
      this.duration, this.cap, this.steps := duration, cap, steps;
    }

    // Returns the current interval and moves to the next one; capping ends the progression.
    method Step() returns (d: int)
      modifies this
      ensures d == old(duration) && cap == old(cap)
      ensures old(steps) < 1 ==> duration == old(duration) && steps == 0
      ensures old(steps) >= 1 ==> duration == if cap > 0 then Min(3 * old(duration), cap) else 3 * old(duration)
      ensures old(steps) >= 1 ==> steps == if cap > 0 && 3 * old(duration) > cap then 0 else old(steps) - 1
    {
      d := duration;
      if steps < 1 {
        steps := 0;
        return;
      }
      steps := steps - 1;
      var next := 3 * duration;
      if cap > 0 && next > cap {
        next := cap;
        steps := 0;
      }
      duration := next;
    }
  }

  lemma {:induction false} IntervalMonotone(a: nat, b: nat)
    requires a <= b
    ensures Interval(a) <= Interval(b)
  {
    if a < b { IntervalMonotone(a, b - 1); }
  }

  /**
   cooldown: the loop computes the closed form, and takes about log3(cap/10s) turns however many
   failures there were.  `failures` is an int64 in the source.
   */
  method ComputeCooldown(spec: StackSpec, last: Option<LastUpdate>) returns (d: int, ghost turns: nat)
    requires last.Some? ==> last.value.failures <= MAX_INT
    ensures d == Cooldown(spec, last)
    ensures last.Some? ==> turns <= last.value.failures
    ensures turns >= 2 ==> Interval(turns - 1) <= BackoffCap(spec)
  {
    d, turns := 0, 0;
    if last.None? { return; }
    if last.value.state == FailedState {
      var backoff := new Backoff(10 * SECOND, DAY, MAX_INT);
      if spec.retryMaxBackoffSeconds > 0 {
        backoff.cap := spec.retryMaxBackoffSeconds * SECOND;
      }
      var f := last.value.failures;
      while f > 0 && backoff.steps > 0
        invariant 0 <= f <= last.value.failures && turns == last.value.failures - f
        invariant backoff.cap == BackoffCap(spec)
        invariant backoff.duration == BackoffAfter(turns, backoff.cap)
        invariant turns >= 2 ==> Interval(turns - 1) <= backoff.cap
        invariant backoff.steps == MAX_INT - turns
                  || (backoff.steps == 0 && turns >= 1 && Interval(turns) > backoff.cap)
        invariant backoff.steps > 0 && turns >= 1 ==> Interval(turns) <= backoff.cap
        decreases f
      {
        var _ := backoff.Step();
        f := f - 1;
        turns := turns + 1;
      }
      if f > 0 { IntervalMonotone(turns, last.value.failures); }
      d := backoff.Step();
    }
  }

  /** Backoff never exceeds max(10s, cap), and grows with the failures when the cap is at least 10s. */
  lemma BackoffBoundedAndMonotone(failures: nat, more: nat, cap: int)
    requires failures <= more
    ensures BackoffAfter(failures, cap) <= Max(10 * SECOND, cap)
    ensures cap >= 10 * SECOND ==> 10 * SECOND <= BackoffAfter(failures, cap) <= BackoffAfter(more, cap)
    ensures cap < 10 * SECOND && failures > 0 ==> BackoffAfter(failures, cap) == cap
  {
    IntervalMonotone(failures, more);
  }

  /*** isSynced ***/

  function ResyncFreq(spec: StackSpec): int {
    var freq := spec.resyncFrequencySeconds * SECOND;
    if freq < 60 * SECOND then 60 * SECOND else freq
  }

  predicate IsSynced(s: Stack, status: StackStatus, commit: string, now: int) {
    if status.lastUpdate.None? then false
    else
      var last := status.lastUpdate.value;
      if last.generation != s.generation then false
      else if last.request != s.request then false
      else match last.state
        case SucceededState =>
          if s.deleted then last.typ == DestroyType
          else if last.lastSuccessfulCommit != commit then false
          else if !s.spec.continueResyncOnCommitMatch then true
          else now - last.resyncTime < ResyncFreq(s.spec)
        case FailedState =>
          if last.lastAttemptedCommit != commit then false
          else if last.failures >= MAX_UPDATE_FAILURES then true
          else now - last.resyncTime < Cooldown(s.spec, status.lastUpdate)
        case UnknownState => true
  }

  /*** When to come back ***/

  // The requeue interval that a synced Stack which is not being deleted asks for; zero asks for none.
  function RequeueAfter(s: Stack, status: StackStatus, now: int): int
    requires status.lastUpdate.Some?
  {
    var last := status.lastUpdate.value;
    var retry :=
      if last.state == FailedState && last.failures < MAX_UPDATE_FAILURES
      then Max(SECOND, last.resyncTime + Cooldown(s.spec, status.lastUpdate) - now) else 0;
    var resync :=
      if last.state == SucceededState && s.spec.continueResyncOnCommitMatch
      then Max(SECOND, last.resyncTime + ResyncFreq(s.spec) - now) else retry;
    if s.spec.source.GitSource? && s.spec.source.trackBranch then
      if resync > 0 then Max(SECOND, Min(ResyncFreq(s.spec), resync)) else Max(SECOND, ResyncFreq(s.spec))
    else resync
  }

  // A further update is due at a known time: a retry is left, or the Stack resyncs periodically.
  predicate HasDeadline(s: Stack, status: StackStatus) {
    && status.lastUpdate.Some?
    && var last := status.lastUpdate.value;
      || (last.state == FailedState && last.failures < MAX_UPDATE_FAILURES)
      || (last.state == SucceededState && !s.deleted && s.spec.continueResyncOnCommitMatch)
  }

  function Deadline(s: Stack, status: StackStatus): int
    requires HasDeadline(s, status)
  {
    var last := status.lastUpdate.value;
    last.resyncTime + if last.state == FailedState then Cooldown(s.spec, status.lastUpdate) else ResyncFreq(s.spec)
  }

  /**
   The timer agrees with the decision: until the deadline the Stack counts as synced and from the
   deadline on it does not, and a wake-up comes after at least a second but no more than a second late.
   */
  lemma TimerAgreesWithDecision(s: Stack, status: StackStatus, commit: string, decidedAt: int, requeuedAt: int)
    requires !s.deleted && HasDeadline(s, status) && IsSynced(s, status, commit, decidedAt) && decidedAt <= requeuedAt
    ensures decidedAt < Deadline(s, status)
    ensures forall t :: IsSynced(s, status, commit, t) <==> t < Deadline(s, status)
    ensures var r := RequeueAfter(s, status, requeuedAt);
            SECOND <= r <= Max(SECOND, Deadline(s, status) - requeuedAt)
  {}

  // One wake-up: when isSynced looked at the clock, and when the requeue interval was computed.
  datatype WakeUp = WakeUp(decidedAt: int, requeuedAt: int)

  // Successive wake-ups of a synced Stack with unchanged inputs, each no earlier than asked for.
  ghost predicate WakeUps(s: Stack, status: StackStatus, commit: string, ws: seq<WakeUp>)
    requires status.lastUpdate.Some?
  {
    && (forall w :: w in ws ==> w.decidedAt <= w.requeuedAt && IsSynced(s, status, commit, w.decidedAt))
    && (forall i :: 0 < i < |ws| ==> Follows(s, status, ws[i - 1], ws[i]))
  }

  ghost predicate Follows(s: Stack, status: StackStatus, w: WakeUp, next: WakeUp)
    requires status.lastUpdate.Some?
  {
    next.decidedAt >= w.requeuedAt + RequeueAfter(s, status, w.requeuedAt)
  }

  /** The due update is reached: a Stack can be woken and found synced only so many times. */
  lemma {:induction false} DueUpdateIsReached(s: Stack, status: StackStatus, commit: string, ws: seq<WakeUp>)
    requires !s.deleted && HasDeadline(s, status) && |ws| > 0
    requires WakeUps(s, status, commit, ws)
    ensures (|ws| - 1) * SECOND < Deadline(s, status) - ws[0].decidedAt
  {
    TimerAgreesWithDecision(s, status, commit, ws[0].decidedAt, ws[0].requeuedAt);
    if |ws| > 1 {
      var rest := ws[1..];
      assert Follows(s, status, ws[1 - 1], ws[1]);
      forall i | 0 < i < |rest| ensures Follows(s, status, rest[i - 1], rest[i]) {
        assert Follows(s, status, ws[(i + 1) - 1], ws[i + 1]);
      }
      DueUpdateIsReached(s, status, commit, rest);
    }
  }
}
