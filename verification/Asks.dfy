/** No request to run again is overlooked: who is asked is reconciled, however the request comes about. */
module Asks {
  import opened Prelude
  import opened ReadyProtocol
  import opened StackModel
  import opened ClusterState
  import opened UpdateSteps
  import opened UpdateProofs
  import opened StackController
  import opened Invariants
  import opened StackProofs
  import opened Runs
  import opened Requests
  import opened Prerequisites
  import opened Fleets
  import opened FleetProofs
  import Outcomes

  // The Stack is in the queue, or the request that stands is the one that is observed.
  ghost predicate Heard(f: Fleet, n: string) {
    n in f.nodes && n !in f.queue ==> Observes(f.nodes[n])
  }

  // In its status or, during a visit, in the status that the visit will store.
  predicate Observes(node: Node) {
    var status := if node.visit.Some? then node.visit.value.status else node.w.stack.status;
    status.observedRequest == node.w.stack.request
  }

  ghost predicate AllHeard(f: Fleet) {
    forall n :: Heard(f, n)
  }

  lemma PutHears(f: Fleet, n: string, node: Node)
    requires AllHeard(f) && n in f.nodes
    requires Gone(node.w.stack) || node.w.stack.request != f.nodes[n].w.stack.request || n in f.queue || Observes(node)
    ensures AllHeard(Put(f, n, node))
  {
    forall m ensures Heard(Put(f, n, node), m) { assert Heard(f, m); }
  }

  // Everyone but n is heard, and n is about to be put back.
  lemma PutTakenHears(f: Fleet, n: string, node: Node)
    requires AllHeard(f) && n in f.nodes && (Gone(node.w.stack) || Observes(node))
    ensures AllHeard(Put(f.(queue := f.queue - {n}), n, node))
  {
    var g := f.(queue := f.queue - {n});
    forall m ensures Heard(Put(g, n, node), m) { assert Heard(f, m); }
  }

  lemma PutAndAgainHears(f: Fleet, n: string, node: Node)
    requires AllHeard(f) && n in f.nodes
    ensures AllHeard(Again(Put(f, n, node), n, Retry))
    ensures AllHeard(Again(Put(f.(queue := f.queue - {n}), n, node), n, Retry))
  {
    var g := f.(queue := f.queue - {n});
    forall m ensures Heard(Again(Put(f, n, node), n, Retry), m) && Heard(Again(Put(g, n, node), n, Retry), m) {
      assert Heard(f, m);
    }
  }

  /*** The steps of a reconcile ***/

  // A part of a reconcile that comes to rest has stored the request that it observed.
  predicate StoresAsk(s: Session, end: (Cluster, Result)) {
    && end.0.stack.request == s.w.stack.request
    && (end.1.Requeue? && !Gone(end.0.stack) ==> end.0.stack.status.observedRequest == s.status.observedRequest)
  }

  lemma CreateStoresAsk(s: Session, i: Input, commit: string)
    requires s.unsaved.None? && s.pending.None?
    ensures StoresAsk(s, CreateStage(s, i, commit))
  {
    var c := CurrentUpdate(s.w.stack.generation, s.status.observedRequest, s.w.nextName, commit);
    var status := Reconciling(s, StackProcessing).status.(currentUpdate := Some(c));
    if i.saveAgainOk {
      var s3 := Session(s.w.(nextName := s.w.nextName + 1, stack := s.w.stack.(status := status)), status, None, None);
      assert CreateStage(s, i, commit) == CreateObject(s3, c, i);
      MeanwhileTouchesOnly(Created(s3.w, c, NextType(s3.w.stack)), c.name, i.meanwhile);
    }
  }

  lemma RunStoresAsk(s: Session, i: Input, commit: string)
    requires s.unsaved.None? && s.pending.None? && s.w.workspace.Some?
    requires s.w.stack.status.observedRequest == s.status.observedRequest
    ensures StoresAsk(s, RunStage(s, i, commit))
  {
    if IsWorkspaceReady(s.w.workspace) { CreateStoresAsk(s, i, commit); }
  }

  lemma LaunchStoresAsk(s: Session, i: Input, commit: string)
    ensures StoresAsk(s, LaunchStage(s, i, commit))
  {
    if i.saveOk && i.apply.Applied? {
      var s1 := Save(Reconciling(s, StackProcessing), true, i.releaseOk);
      RunStoresAsk(s1.(w := ApplyWorkspace(s1.w, i.apply.changed)), i, commit);
    }
  }

  lemma LooksStoreAsk(node: Node)
    requires node.visit.Some? && !node.w.stack.deleted
    ensures StoresAsk(Held(node.w, node.visit.value), AfterLooks(node))
  {
    var v := node.visit.value;
    LaunchStoresAsk(Held(node.w, v), Concluded(v.i, node.waitsFor), v.commit);
  }

  lemma EndHears(f: Fleet, n: string, end: (Cluster, Result))
    requires AllHeard(f) && n in f.nodes && f.nodes[n].visit.Some?
    requires StoresAsk(Held(f.nodes[n].w, f.nodes[n].visit.value), end)
    ensures AllHeard(EndVisit(f, n, end))
  {
    var node := f.nodes[n];
    var node' := node.(w := end.0, visit := None, waitsFor := if end.1.Requeue? then node.waitsFor else {});
    assert Heard(f, n);
    if end.1.Retry? { PutAndAgainHears(f, n, node'); } else { PutHears(f, n, node'); }
  }

  lemma LeaveHears(f: Fleet, n: string)
    requires FleetInv(f) && AllHeard(f)
    ensures AllHeard(StepLeave(f, n))
  {
    if n in f.nodes && f.nodes[n].visit.Some? && f.nodes[n].visit.value.left == [] {
      assert NodeInv(f.nodes[n]);
      LooksStoreAsk(f.nodes[n]);
      EndHears(f, n, AfterLooks(f.nodes[n]));
    }
  }

  lemma TakeHears(f: Fleet, n: string, i: Input)
    requires FleetInv(f) && AllHeard(f)
    ensures AllHeard(StepTake(f, n, i))
  {
    if n in f.queue && n !in f.nodes {
      forall m ensures Heard(StepTake(f, n, i), m) { assert Heard(f, m); }
    } else if n in f.queue && f.nodes[n].visit.None? {
      var node := f.nodes[n];
      assert NodeInv(node);
      if ChecksPrerequisites(node.w, i) {
        var (s, commit) := AtPrerequisites(node.w, i);
        PutTakenHears(f, n, node.(w := s.w, waitsFor := {},
                                  visit := Some(Visit(i, commit, s.status, s.unsaved, s.pending,
                                                      node.w.stack.spec.prerequisites, []))));
      } else {
        var (w', result) := Reconcile(node.w, i);
        Outcomes.OutcomeTells(node.w, i);
        ReconcileEndsWell(node.w, i);
        var node' := node.(w := w', waitsFor := {});
        if result.Retry? { PutAndAgainHears(f, n, node'); } else { PutTakenHears(f, n, node'); }
      }
    }
  }

  lemma GiveUpHears(f: Fleet, n: string)
    requires AllHeard(f) && n in f.nodes
    ensures AllHeard(GiveUp(f, n))
  {
    forall m ensures Heard(GiveUp(f, n), m) { assert Heard(f, m); }
  }

  lemma NotedHears(f: Fleet, n: string, sight: Sight, wanting: bool)
    requires AllHeard(f)
    ensures AllHeard(Noted(f, n, sight, wanting))
  {
    forall m ensures Heard(Noted(f, n, sight, wanting), m) { assert Heard(f, m); }
  }

  lemma LookHears(f: Fleet, n: string, a: Answer)
    requires AllHeard(f)
    ensures AllHeard(StepLook(f, n, a))
  {
    if n in f.nodes && f.nodes[n].visit.Some? && f.nodes[n].visit.value.left != [] {
      var p := f.nodes[n].visit.value.left[0];
      var sight := SightOf(f, p, a.now);
      GiveUpHears(f, n);
      NotedHears(f, n, sight, true);
      NotedHears(f, n, sight, false);
      if p.name in f.nodes {
        var target := f.nodes[p.name];
        var verdict := Requirement(p.succeededWithin, target.w.stack, a.now);
        if verdict.OutOfDate? && target.w.stack.request != After(verdict.update) {
          var x := verdict.update;
          PutHears(f, p.name, target.(w := Ask(target.w, After(x)), nudges := target.nudges + [x]));
          NotedHears(Nudge(f, p.name, x), n, sight, true);
        }
      }
    }
  }

  lemma OutsideHears(f: Fleet, n: string, e: Event)
    requires FleetInv(f) && AllHeard(f)
    ensures AllHeard(StepElsewhere(f, n, e))
  {
    if n in f.nodes && f.nodes[n].visit.None? && IsOutside(e) {
      assert NodeInv(f.nodes[n]) && Heard(f, n);
      OutsideFrame(f.nodes[n].w, e);
      PutHears(f, n, f.nodes[n].(w := Next(f.nodes[n].w, e)));
    }
  }

  lemma RequestHears(f: Fleet, n: string, text: string)
    requires AllHeard(f)
    ensures AllHeard(StepRequest(f, n, text))
  {
    if n in f.nodes {
      var node := f.nodes[n];
      var last := node.w.stack.status.lastUpdate;
      var restored := node.restored || (last.Some? && last.value.request == Manual(text) != node.w.stack.request);
      assert Heard(f, n);
      PutHears(f, n, node.(w := Ask(node.w, Manual(text)), restored := restored));
    }
  }

  lemma NextHears(f: Fleet, e: FleetEvent)
    requires FleetInv(f) && AllHeard(f)
    ensures AllHeard(NextFleet(f, e))
  {
    match e
    case Elsewhere(n, e) => OutsideHears(f, n, e);
    case UserRequest(n, text) => RequestHears(f, n, text);
    case Take(n, i) => TakeHears(f, n, i);
    case Look(n, a) => LookHears(f, n, a);
    case Leave(n) => LeaveHears(f, n);
    case _ => forall m ensures Heard(NextFleet(f, e), m) { assert Heard(f, m); }
  }

  lemma {:induction false} RunHears(t: seq<Fleet>, k: nat)
    requires IsFleetRun(t) && k < |t|
    ensures AllHeard(t[k])
  {
    if k > 0 {
      RunHears(t, k - 1);
      RunKeepsFleet(t, k - 1);
      assert FleetStepAt(t, k - 1);
      var e :| t[k] == NextFleet(t[k - 1], e);
      NextHears(t[k - 1], e);
    }
  }

  /**
   No request is overlooked.  In every reachable state, a Stack that is neither in the work queue nor being
   reconciled has stored that it observed the request that stands, be that a user's or a dependent's; and one
   being reconciled works on that request, or is in the queue to be reconciled again.
   */
  lemma NoRequestOverlooked(f: Fleet, n: string)
    requires FleetReachable(f) && n in f.nodes && n !in f.queue
    ensures var node := f.nodes[n];
            if node.visit.Some? then node.visit.value.status.observedRequest == node.w.stack.request
            else node.w.stack.status.observedRequest == node.w.stack.request
  {
    var t :| IsFleetRun(t) && f == t[|t| - 1];
    RunHears(t, |t| - 1);
    assert Heard(f, n);
  }
}
