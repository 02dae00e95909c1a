/** Looking at the prerequisites one at a time amounts, if nobody interferes, to the loop over them. */
module Looks {
  import opened Prelude
  import opened StackModel
  import opened ClusterState
  import opened StackController
  import opened Prerequisites
  import opened Fleets
  import opened FleetProofs

  function Stacks(f: Fleet): map<string, Stack> {
    map n | n in f.nodes :: f.nodes[n].w.stack
  }

  // Look after look of one reconcile.
  function LookAll(f: Fleet, n: string, answers: seq<Answer>): Fleet {
    if answers == [] then f else StepLook(LookAll(f, n, answers[..|answers| - 1]), n, answers[|answers| - 1])
  }

  predicate Visiting(f: Fleet, n: string) {
    n in f.nodes && f.nodes[n].visit.Some?
  }

  // Nothing in the store is gone already.
  ghost predicate AllThere(f: Fleet) {
    forall n :: n in f.nodes ==> !Gone(f.nodes[n].w.stack)
  }

  lemma NudgeShows(f: Fleet, p: string, x: UpdateName)
    requires AllThere(f) && p in f.nodes
    ensures var g := Nudge(f, p, x);
            && AllThere(g) && g.nodes.Keys == f.nodes.Keys
            && Stacks(g) == Stacks(f)[p := Stacks(f)[p].(request := After(x))]
            && (forall m :: m in f.nodes ==>
                 g.nodes[m].visit == f.nodes[m].visit && g.nodes[m].waitsFor == f.nodes[m].waitsFor)
  {}

  lemma NotedShows(f: Fleet, n: string, sight: Sight, wanting: bool)
    requires AllThere(f) && Visiting(f, n) && f.nodes[n].visit.value.left != []
    ensures var g, v := Noted(f, n, sight, wanting), f.nodes[n].visit.value;
            && AllThere(g) && Visiting(g, n) && Stacks(g) == Stacks(f)
            && g.nodes[n].visit.value.left == v.left[1..]
            && g.nodes[n].waitsFor == if wanting then f.nodes[n].waitsFor + {v.left[0].name} else f.nodes[n].waitsFor
  {}

  // A look either notes what it finds and goes on, or gives up and changes no Stack.
  ghost predicate LookDone(f: Fleet, g: Fleet, n: string, p: Prerequisite, a: Answer)
    requires Visiting(f, n) && f.nodes[n].visit.value.left != []
  {
    var wanting := VerdictOn(Stacks(f), p, a.now) != Some(Met);
    && AllThere(g) && n in g.nodes
    && if Visiting(g, n) then
         && a.getOk
         && Looked(Stacks(f), Stacks(g), p, a.now)
         && g.nodes[n].visit.value.left == f.nodes[n].visit.value.left[1..]
         && g.nodes[n].waitsFor == (if wanting then f.nodes[n].waitsFor + {p.name} else f.nodes[n].waitsFor)
       else
         && Stacks(g) == Stacks(f)
         && (!a.getOk
              || (!a.patchOk && wanting && p.name in f.nodes && VerdictOn(Stacks(f), p, a.now).value.OutOfDate?))
  }

  lemma GiveUpShows(f: Fleet, n: string)
    requires AllThere(f) && n in f.nodes
    ensures AllThere(GiveUp(f, n)) && !Visiting(GiveUp(f, n), n) && n in GiveUp(f, n).nodes
            && Stacks(GiveUp(f, n)) == Stacks(f)
  {}

  lemma LookShows(f: Fleet, n: string, a: Answer)
    requires AllThere(f) && Visiting(f, n) && f.nodes[n].visit.value.left != []
    ensures LookDone(f, StepLook(f, n, a), n, f.nodes[n].visit.value.left[0], a)
  {
    var p := f.nodes[n].visit.value.left[0];
    GiveUpShows(f, n);
    if a.getOk {
      if p.name !in f.nodes {
        NotedShows(f, n, SightOf(f, p, a.now), true);
      } else {
        VerdictShows(f, n, p, a);
      }
    }
  }

  lemma NudgedShows(f: Fleet, n: string, p: Prerequisite, a: Answer, x: UpdateName)
    requires AllThere(f) && Visiting(f, n) && f.nodes[n].visit.value.left != [] && p == f.nodes[n].visit.value.left[0]
    requires a.getOk && p.name in f.nodes
    requires Requirement(p.succeededWithin, f.nodes[p.name].w.stack, a.now) == OutOfDate(x)
    ensures LookDone(f, Noted(Nudge(f, p.name, x), n, SightOf(f, p, a.now), true), n, p, a)
  {
    NudgeShows(f, p.name, x);
    var g := Nudge(f, p.name, x);
    assert g.nodes[n].visit == f.nodes[n].visit && g.nodes[n].waitsFor == f.nodes[n].waitsFor;
    NotedShows(g, n, SightOf(f, p, a.now), true);
  }

  lemma NotedOnlyShows(f: Fleet, n: string, p: Prerequisite, a: Answer)
    requires AllThere(f) && Visiting(f, n) && f.nodes[n].visit.value.left != [] && p == f.nodes[n].visit.value.left[0]
    requires a.getOk && p.name in f.nodes
    requires var s := f.nodes[p.name].w.stack;
             var verdict := Requirement(p.succeededWithin, s, a.now);
             verdict.OutOfDate? ==> s.request == After(verdict.update)
    ensures var wanting := Requirement(p.succeededWithin, f.nodes[p.name].w.stack, a.now) != Met;
            LookDone(f, Noted(f, n, SightOf(f, p, a.now), wanting), n, p, a)
  {
    var s := f.nodes[p.name].w.stack;
    NotedShows(f, n, SightOf(f, p, a.now), Requirement(p.succeededWithin, s, a.now) != Met);
    assert Stacks(f)[p.name] == s && Stacks(f) == Stacks(f)[p.name := s.(request := s.request)];
  }

  lemma VerdictShows(f: Fleet, n: string, p: Prerequisite, a: Answer)
    requires AllThere(f) && Visiting(f, n) && f.nodes[n].visit.value.left != [] && p == f.nodes[n].visit.value.left[0]
    requires a.getOk && p.name in f.nodes
    ensures LookDone(f, StepLook(f, n, a), n, p, a)
  {
    match Requirement(p.succeededWithin, f.nodes[p.name].w.stack, a.now)
    case Met => NotedOnlyShows(f, n, p, a);
    case NotRun => NotedOnlyShows(f, n, p, a);
    case Failed => NotedOnlyShows(f, n, p, a);
    case OutOfDate(x) =>
      if f.nodes[p.name].w.stack.request == After(x) {
        NotedOnlyShows(f, n, p, a);
      } else if a.patchOk {
        NudgedShows(f, n, p, a, x);
      } else {
        GiveUpShows(f, n);
      }
  }

  // What holds after k undisturbed looks.
  ghost predicate LookedSoFar(f: Fleet, g: Fleet, n: string, ps: seq<Prerequisite>, answers: seq<Answer>, k: nat)
    requires k <= |ps| <= |answers|
  {
    && AllThere(g) && n in g.nodes
    && if Visiting(g, n)
       then FoundSoFar(Stacks(f), g, n, ps, answers, k)
       else GaveUp(Stacks(f), Stacks(g), ps, answers, k)
  }

  ghost predicate FoundSoFar(first: map<string, Stack>, g: Fleet, n: string, ps: seq<Prerequisite>,
                             answers: seq<Answer>, k: nat)
    requires k <= |ps| <= |answers| && Visiting(g, n)
  {
    && g.nodes[n].visit.value.left == ps[k..]
    && (forall j :: 0 <= j < k ==> answers[j].getOk)
    && (forall m :: m in g.nodes[n].waitsFor <==> FoundWanting(first, ps, answers, k, m))
    && Nudged(first, Stacks(g), ps, answers, k)
  }

  ghost predicate GaveUp(first: map<string, Stack>, after: map<string, Stack>, ps: seq<Prerequisite>,
                         answers: seq<Answer>, k: nat)
    requires k <= |ps| <= |answers|
  {
    exists j :: 0 <= j < k && BreaksOff(first, ps, answers, j) && Nudged(first, after, ps, answers, j)
  }

  lemma GoesOn(first: map<string, Stack>, g: Fleet, h: Fleet, n: string, ps: seq<Prerequisite>, answers: seq<Answer>,
               k: nat)
    requires k < |ps| <= |answers| && Visiting(g, n) && Visiting(h, n)
    requires FoundSoFar(first, g, n, ps, answers, k) && LookDone(g, h, n, ps[k], answers[k])
    ensures FoundSoFar(first, h, n, ps, answers, k + 1)
  {
    assert ps[k..][1..] == ps[k + 1..];
    OneMore(first, Stacks(g), Stacks(h), ps, answers, k);
  }

  lemma GivesUp(first: map<string, Stack>, g: Fleet, h: Fleet, n: string, ps: seq<Prerequisite>, answers: seq<Answer>,
                k: nat)
    requires k < |ps| <= |answers| && Visiting(g, n) && !Visiting(h, n)
    requires FoundSoFar(first, g, n, ps, answers, k) && LookDone(g, h, n, ps[k], answers[k])
    ensures GaveUp(first, Stacks(h), ps, answers, k + 1)
  {
    StaleFromTheStart(first, Stacks(g), ps, answers, k);
    assert BreaksOff(first, ps, answers, k);
  }

  lemma OneLookMore(f: Fleet, g: Fleet, n: string, ps: seq<Prerequisite>, answers: seq<Answer>, k: nat)
    requires k < |ps| <= |answers| && LookedSoFar(f, g, n, ps, answers, k)
    ensures LookedSoFar(f, StepLook(g, n, answers[k]), n, ps, answers, k + 1)
  {
    var h := StepLook(g, n, answers[k]);
    if Visiting(g, n) {
      assert ps[k..][0] == ps[k];
      LookShows(g, n, answers[k]);
      if Visiting(h, n) {
        GoesOn(Stacks(f), g, h, n, ps, answers, k);
      } else {
        GivesUp(Stacks(f), g, h, n, ps, answers, k);
      }
    }
  }

  // A prerequisite that is stale after the earlier looks was so before them.
  lemma StaleFromTheStart(first: map<string, Stack>, before: map<string, Stack>, ps: seq<Prerequisite>,
                          answers: seq<Answer>, k: nat)
    requires k < |ps| <= |answers| && Nudged(first, before, ps, answers, k)
    ensures StaleAt(before, ps, answers, k) ==> StaleAt(first, ps, answers, k)
  {
    assert ps[k].name in before <==> ps[k].name in first;
  }

  lemma {:induction false} LooksSoFar(f: Fleet, n: string, ps: seq<Prerequisite>, answers: seq<Answer>, k: nat)
    requires AllThere(f) && Visiting(f, n) && f.nodes[n].visit.value.left == ps && f.nodes[n].waitsFor == {}
    requires k <= |ps| <= |answers|
    ensures LookedSoFar(f, LookAll(f, n, answers[..k]), n, ps, answers, k)
    decreases k
  {
    if k == 0 {
      NothingFoundYet(f, n, ps, answers);
    } else {
      LooksSoFar(f, n, ps, answers, k - 1);
      assert answers[..k][..k - 1] == answers[..k - 1];
      OneLookMore(f, LookAll(f, n, answers[..k - 1]), n, ps, answers, k - 1);
    }
  }

  lemma NothingFoundYet(f: Fleet, n: string, ps: seq<Prerequisite>, answers: seq<Answer>)
    requires AllThere(f) && Visiting(f, n) && f.nodes[n].visit.value.left == ps && f.nodes[n].waitsFor == {}
    requires |ps| <= |answers|
    ensures LookedSoFar(f, f, n, ps, answers, 0)
  {
    assert ps[0..] == ps;
  }

  /**
   The looks of a reconcile that is not disturbed do what the loop does: they leave the Stacks, and find
   wanting the prerequisites, or give up, as the contract of the loop says.
   */
  lemma UndisturbedLooks(f: Fleet, n: string, ps: seq<Prerequisite>, answers: seq<Answer>)
    requires FleetReachable(f) && Visiting(f, n) && f.nodes[n].visit.value.left == ps && f.nodes[n].waitsFor == {}
    requires |answers| == |ps|
    ensures var g := LookAll(f, n, answers);
            && n in g.nodes
            && Checked(Stacks(f), Stacks(g), ps, answers, g.nodes[n].visit.Some?, g.nodes[n].waitsFor)
            && (g.nodes[n].visit.Some? ==> g.nodes[n].visit.value.left == [])
  {
    ReachableIsThere(f);
    LooksSoFar(f, n, ps, answers, |ps|);
    assert answers[..|ps|] == answers;
  }

  lemma ReachableIsThere(f: Fleet)
    requires FleetReachable(f)
    ensures AllThere(f)
  {
    FleetReachableInv(f);
    forall n | n in f.nodes ensures !Gone(f.nodes[n].w.stack) { assert NodeInv(f.nodes[n]); }
  }
}
