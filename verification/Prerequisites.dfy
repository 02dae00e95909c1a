/** What a Stack asks of its prerequisites (stack_controller.go): the verdict, and the loop over them. */
module Prerequisites {
  import opened Prelude
  import opened ReadyProtocol
  import opened StackModel
  import opened ClusterState
  import opened Invariants
  import opened Runs

  // The outcome of isRequirementSatisfied: nil, or one of its three errors.
  datatype Verdict = Met | NotRun | Failed | OutOfDate(update: UpdateName)

  function Requirement(within: Option<int>, s: Stack, now: int): Verdict {
    var last := s.status.lastUpdate;
    if last.None? || last.value.generation != s.generation || last.value.request != s.request then NotRun
    else if last.value.state != SucceededState then Failed
    else if within.Some? && now - last.value.resyncTime > within.value then OutOfDate(last.value.name)
    else Met
  }

  /**
   A prerequisite that is ready has done its part: unless it is being deleted, all that its dependents
   can still hold against it is the age of its last update.
   */
  lemma ReadyMeetsRequirement(w: Cluster, within: Option<int>, now: int)
    requires Reachable(w) && !w.stack.deleted && IsStackReady(w.stack)
    ensures Requirement(None, w.stack, now) == Met
    ensures Requirement(within, w.stack, now) == Met
            || (within.Some? && Requirement(within, w.stack, now) == OutOfDate(w.stack.status.lastUpdate.value.name))
  {
    ReachableInv(w);
  }

  // A prerequisite is satisfied by a Stack whose last update succeeded, at its generation and request, and is
  // no older than is asked for.
  predicate Satisfies(s: Stack, p: Prerequisite, now: int) {
    RanAsAsked(s) && s.status.lastUpdate.value.state == SucceededState && YoungEnough(s, p, now)
  }

  predicate RanAsAsked(s: Stack) {
    && s.status.lastUpdate.Some?
    && s.status.lastUpdate.value.generation == s.generation && s.status.lastUpdate.value.request == s.request
  }

  predicate YoungEnough(s: Stack, p: Prerequisite, now: int)
    requires s.status.lastUpdate.Some?
  {
    p.succeededWithin.None? || now <= s.status.lastUpdate.value.resyncTime + p.succeededWithin.value
  }

  /** What each verdict means, of the stored fields. */
  lemma VerdictsMean(p: Prerequisite, s: Stack, now: int)
    ensures var verdict := Requirement(p.succeededWithin, s, now);
            && (verdict == Met <==> Satisfies(s, p, now))
            && (verdict == NotRun <==> !RanAsAsked(s))
            && (verdict == Failed <==> RanAsAsked(s) && s.status.lastUpdate.value.state != SucceededState)
            && (verdict.OutOfDate? <==>
                  RanAsAsked(s) && s.status.lastUpdate.value.state == SucceededState && !YoungEnough(s, p, now))
            && (verdict.OutOfDate? ==> verdict.update == s.status.lastUpdate.value.name)
  {}

  /*** The loop over the prerequisites ***/

  // What the clock and the API server say while one prerequisite is looked at.
  datatype Answer = Answer(getOk: bool, now: int, patchOk: bool)

  // The verdict on a prerequisite, None when there is no such Stack.
  function VerdictOn(stacks: map<string, Stack>, p: Prerequisite, now: int): Option<Verdict> {
    if p.name in stacks then Some(Requirement(p.succeededWithin, stacks[p.name], now)) else None
  }

  // Some mention of n, among the first k prerequisites, finds it out of date.
  ghost predicate FoundStale(stacks: map<string, Stack>, ps: seq<Prerequisite>, answers: seq<Answer>, k: nat, n: string)
    requires k <= |ps| <= |answers|
  {
    exists j :: 0 <= j < k && ps[j].name == n && StaleAt(stacks, ps, answers, j)
  }

  ghost predicate StaleAt(stacks: map<string, Stack>, ps: seq<Prerequisite>, answers: seq<Answer>, j: nat)
    requires j < |ps| <= |answers|
  {
    var v := VerdictOn(stacks, ps[j], answers[j].now);
    v.Some? && v.value.OutOfDate?
  }

  // One of the first k prerequisites, named n, is not satisfied.
  ghost predicate FoundWanting(stacks: map<string, Stack>, ps: seq<Prerequisite>, answers: seq<Answer>, k: nat,
                               n: string)
    requires k <= |ps| <= |answers|
  {
    exists j :: 0 <= j < k && ps[j].name == n && WantingAt(stacks, ps, answers, j)
  }

  ghost predicate WantingAt(stacks: map<string, Stack>, ps: seq<Prerequisite>, answers: seq<Answer>, j: nat)
    requires j < |ps| <= |answers|
  {
    VerdictOn(stacks, ps[j], answers[j].now) != Some(Met)
  }

  // The Stacks after the first k prerequisites: the stale ones carry a request to run again.
  ghost predicate Nudged(before: map<string, Stack>, after: map<string, Stack>, ps: seq<Prerequisite>,
                         answers: seq<Answer>, k: nat)
    requires k <= |ps| <= |answers|
  {
    && after.Keys == before.Keys
    && (forall n :: n in before ==>
          after[n] == if FoundStale(before, ps, answers, k, n)
                      then before[n].(request := After(before[n].status.lastUpdate.value.name))
                      else before[n])
  }

  // Where the loop gives up: the prerequisite cannot be read, or not be asked to run again.
  ghost predicate BreaksOff(stacks: map<string, Stack>, ps: seq<Prerequisite>, answers: seq<Answer>, j: nat)
    requires j < |ps| <= |answers|
  {
    !answers[j].getOk || (StaleAt(stacks, ps, answers, j) && !answers[j].patchOk)
  }

  // One look at a prerequisite: a stale one is asked to run again.
  ghost predicate Looked(before: map<string, Stack>, after: map<string, Stack>, p: Prerequisite, now: int) {
    var v := VerdictOn(before, p, now);
    after == if v.Some? && v.value.OutOfDate?
             then before[p.name := before[p.name].(request := After(v.value.update))] else before
  }

  // How the k-th look, at the Stacks as the earlier looks left them, extends what was found.
  lemma OneMore(first: map<string, Stack>, before: map<string, Stack>, after: map<string, Stack>,
                ps: seq<Prerequisite>, answers: seq<Answer>, k: nat)
    requires k < |ps| <= |answers|
    requires Nudged(first, before, ps, answers, k) && Looked(before, after, ps[k], answers[k].now)
    ensures Nudged(first, after, ps, answers, k + 1)
    ensures forall n :: FoundWanting(first, ps, answers, k + 1, n) <==>
              || FoundWanting(first, ps, answers, k, n)
              || (n == ps[k].name && VerdictOn(before, ps[k], answers[k].now) != Some(Met))
  {
    var p := ps[k];
    forall n ensures FoundStale(first, ps, answers, k + 1, n) <==>
              FoundStale(first, ps, answers, k, n) || (n == p.name && StaleAt(first, ps, answers, k)) {}
    forall n ensures FoundWanting(first, ps, answers, k + 1, n) <==>
              FoundWanting(first, ps, answers, k, n) || (n == p.name && WantingAt(first, ps, answers, k)) {
      if FoundWanting(first, ps, answers, k + 1, n) {
        var j :| 0 <= j < k + 1 && ps[j].name == n && WantingAt(first, ps, answers, j);
        assert j < k ==> FoundWanting(first, ps, answers, k, n);
      }
    }
    if FoundStale(first, ps, answers, k, p.name) {
      var j :| 0 <= j < k && ps[j].name == p.name && StaleAt(first, ps, answers, j);
      assert WantingAt(first, ps, answers, j);
      assert FoundWanting(first, ps, answers, k, p.name);
    } else {
      assert p.name in before <==> p.name in first;
      assert VerdictOn(before, p, answers[k].now) == VerdictOn(first, p, answers[k].now);
      assert WantingAt(first, ps, answers, k) <==> VerdictOn(before, p, answers[k].now) != Some(Met);
    }
  }

  // What looking at all the prerequisites comes to: it breaks off with an error, or ends with the names of
  // exactly those that were missing or unsatisfied when it began; it has asked every stale one it came to
  // to run again, and touched nothing else.
  ghost predicate Checked(before: map<string, Stack>, after: map<string, Stack>, ps: seq<Prerequisite>,
                          answers: seq<Answer>,
                          ok: bool, failed: set<string>)
    requires |ps| <= |answers|
  {
    if ok then
      && (forall j :: 0 <= j < |ps| ==> answers[j].getOk)
      && (forall n :: n in failed <==> FoundWanting(before, ps, answers, |ps|, n))
      && Nudged(before, after, ps, answers, |ps|)
    else
      exists j :: 0 <= j < |ps| && BreaksOff(before, ps, answers, j) && Nudged(before, after, ps, answers, j)
  }

  // The prerequisite is there, and satisfied.
  predicate IsMet(stacks: map<string, Stack>, p: Prerequisite, now: int) {
    p.name in stacks && Satisfies(stacks[p.name], p, now)
  }

  // It is there and has succeeded as asked, but too long ago.
  predicate IsStale(s: Stack, p: Prerequisite, now: int) {
    RanAsAsked(s) && s.status.lastUpdate.value.state == SucceededState && !YoungEnough(s, p, now)
  }

  // The prerequisite was asked to run again, because one look found it stale.
  ghost predicate AskedAgain(before: Stack, after: Stack, n: string, ps: seq<Prerequisite>, answers: seq<Answer>)
    requires |ps| <= |answers|
  {
    exists j :: 0 <= j < |ps| && ps[j].name == n && IsStale(before, ps[j], answers[j].now)
                && after == before.(request := After(before.status.lastUpdate.value.name))
  }

  /**
   So looking at all of them finds none wanting exactly if each is there and satisfied, and asks exactly those
   that are stale to run again.
   */
  lemma AllMetExactly(before: map<string, Stack>, after: map<string, Stack>, ps: seq<Prerequisite>,
                      answers: seq<Answer>, failed: set<string>)
    requires |ps| <= |answers| && Checked(before, after, ps, answers, true, failed)
    ensures failed == {} <==> forall j :: 0 <= j < |ps| ==> IsMet(before, ps[j], answers[j].now)
    ensures forall n :: n in before && after[n] != before[n] ==> AskedAgain(before[n], after[n], n, ps, answers)
    ensures forall j :: 0 <= j < |ps| && ps[j].name in before && IsStale(before[ps[j].name], ps[j], answers[j].now) ==>
              after[ps[j].name].request == After(before[ps[j].name].status.lastUpdate.value.name)
  {
    forall j | 0 <= j < |ps| ensures WantingAt(before, ps, answers, j) <==> !IsMet(before, ps[j], answers[j].now) {
      if ps[j].name in before { VerdictsMean(ps[j], before[ps[j].name], answers[j].now); }
    }
    forall j | 0 <= j < |ps| && WantingAt(before, ps, answers, j) ensures ps[j].name in failed {
      assert FoundWanting(before, ps, answers, |ps|, ps[j].name);
    }
    forall n | n in before && after[n] != before[n] ensures AskedAgain(before[n], after[n], n, ps, answers) {
      var j :| 0 <= j < |ps| && ps[j].name == n && StaleAt(before, ps, answers, j);
      VerdictsMean(ps[j], before[n], answers[j].now);
    }
    forall j | 0 <= j < |ps| && ps[j].name in before && IsStale(before[ps[j].name], ps[j], answers[j].now)
      ensures StaleAt(before, ps, answers, j)
    {
      VerdictsMean(ps[j], before[ps[j].name], answers[j].now);
    }
  }

  class PrerequisiteChecker {
    var stacks: map<string, Stack>

    /** The loop of Step 3. */
    method Check(ps: seq<Prerequisite>, answers: seq<Answer>) returns (ok: bool, failed: set<string>)
      requires |ps| <= |answers|
      modifies this
      ensures Checked(old(stacks), stacks, ps, answers, ok, failed)
      ensures ok ==> (failed == {} <==> forall j :: 0 <= j < |ps| ==> IsMet(old(stacks), ps[j], answers[j].now))
    {
      ok, failed := true, {};
      var k := 0;
      while k < |ps|
        invariant 0 <= k <= |ps|
        invariant forall j :: 0 <= j < k ==> answers[j].getOk
        invariant forall n :: n in failed <==> FoundWanting(old(stacks), ps, answers, k, n)
        invariant Nudged(old(stacks), stacks, ps, answers, k)
      {
        var p, a := ps[k], answers[k];
        if !a.getOk {
          assert BreaksOff(old(stacks), ps, answers, k);
          return false, failed;
        }
        var v := VerdictOn(stacks, p, a.now);
        ghost var before := stacks;
        if v != Some(Met) { failed := failed + {p.name}; }
        if v.Some? && v.value.OutOfDate? && stacks[p.name].request != After(v.value.update) {
          if !a.patchOk {
            assert StaleAt(old(stacks), ps, answers, k);
            return false, failed;
          }
          stacks := stacks[p.name := stacks[p.name].(request := After(v.value.update))];
        }
        assert Looked(before, stacks, p, a.now);
        OneMore(old(stacks), before, stacks, ps, answers, k);
        k := k + 1;
      }
      AllMetExactly(old(stacks), stacks, ps, answers, failed);
    }
  }
}
