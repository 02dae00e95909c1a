/** No wake-up is lost between Stacks that wait for one another, and dependents do not thrash them. */
module FleetProofs {
  import opened Prelude
  import opened ReadyProtocol
  import opened StackModel
  import opened ClusterState
  import opened StackController
  import opened Invariants
  import opened StackProofs
  import opened Runs
  import opened Requests
  import opened Prerequisites
  import opened Fleets
  import opened Creation

  /*** Requests ***/

  // A request to run again after x can only have been written once x had been absorbed.
  ghost predicate Earlier(w: Cluster, req: Request) {
    req.After? ==> req.update in AbsorbedNames(w.absorbed)
  }

  ghost predicate RequestInv(w: Cluster) {
    var status := w.stack.status;
    && Earlier(w, w.stack.request)
    && Earlier(w, status.observedRequest)
    && (status.currentUpdate.Some? ==> Earlier(w, status.currentUpdate.value.request))
    && (forall a :: a in w.absorbed ==> AsksForEarlier(a))
  }

  predicate AsksForEarlier(a: Absorption) {
    a.current.request.After? ==> a.current.request.update < a.current.name
  }

  /** An Update never serves the request to run again after itself. */
  lemma NeverServesItself(w: Cluster)
    requires Inv(w) && RequestInv(w) && w.stack.status.lastUpdate.Some?
    ensures var last := w.stack.status.lastUpdate.value;
            last.request != After(last.name) && last.name in AbsorbedNames(w.absorbed)
  {
    FoldOfLast(w);
    assert AsksForEarlier(w.absorbed[|w.absorbed| - 1]);
  }

  lemma AbsorbedOneMore(w: Cluster, w': Cluster)
    requires Inv(w) && Inv(w') && AbsorbsCurrent(w, w')
    ensures var c := w.stack.status.currentUpdate.value;
            && AbsorbedNames(w'.absorbed) == AbsorbedNames(w.absorbed) + {c.name}
            && w'.stack.status.lastUpdate.Some? && w'.stack.status.lastUpdate.value.name == c.name
            && (forall x :: x in AbsorbedNames(w.absorbed) ==> x < c.name)
            && (forall a :: a in w'.absorbed ==> a in w.absorbed || a.current == c)
  {}

  lemma RequestsKept(w: Cluster, w': Cluster, req: Request)
    requires Inv(w) && Inv(w') && RequestInv(w) && Remembers(w, w', req) && Earlier(w, req)
    ensures RequestInv(w')
  {}

  /*** One Stack among others ***/

  ghost predicate Increasing(xs: seq<UpdateName>) {
    forall j, k :: 0 <= j < k < |xs| ==> xs[j] < xs[k]
  }

  ghost predicate InSequence(xs: seq<UpdateName>) {
    forall j, k :: 0 <= j < k < |xs| ==> xs[j] <= xs[k]
  }

  // Dependents ask once per completed Update, as long as no user writes a served request back.
  ghost predicate NudgeInv(w: Cluster, nudges: seq<UpdateName>, restored: bool) {
    && (forall x :: x in nudges ==> x in AbsorbedNames(w.absorbed))
    && InSequence(nudges)
    && (!restored ==> Increasing(nudges) && Unanswered(w, nudges))
  }

  // While the last update is the one that dependents last asked to follow up, that request stands unserved.
  ghost predicate Unanswered(w: Cluster, nudges: seq<UpdateName>) {
    var last := w.stack.status.lastUpdate;
    nudges != [] && last.Some? && last.value.name == nudges[|nudges| - 1] ==> last.value.request != w.stack.request
  }

  ghost predicate VisitInv(w: Cluster, v: Visit) {
    && Settled(Held(w, v))
    && !w.stack.deleted
    && Earlier(w, v.status.observedRequest)
    && (forall p :: p in v.left ==> p in w.stack.spec.prerequisites)
    && LooksInOrder(w.stack.spec.prerequisites, v)
  }

  // The prerequisites of the spec have been looked at from the first on.
  ghost predicate LooksInOrder(ps: seq<Prerequisite>, v: Visit) {
    && |v.seen| + |v.left| == |ps|
    && v.left == ps[|v.seen|..]
    && forall k :: 0 <= k < |v.seen| ==> v.seen[k].p == ps[k]
  }

  // The prerequisite was there, and satisfied.
  predicate Suits(sight: Sight) {
    sight.stack.Some? && Satisfies(sight.stack.value, sight.p, sight.now)
  }

  // What did not suit is waited for.
  ghost predicate SightsInv(v: Visit, waitsFor: set<string>) {
    forall k :: 0 <= k < |v.seen| && !Suits(v.seen[k]) ==> v.seen[k].p.name in waitsFor
  }

  ghost predicate NodeInv(n: Node) {
    && Inv(n.w) && RequestInv(n.w) && !Gone(n.w.stack)
    && NudgeInv(n.w, n.nudges, n.restored)
    && (n.visit.Some? ==> VisitInv(n.w, n.visit.value) && SightsInv(n.visit.value, n.waitsFor))
  }

  lemma NudgesKept(w: Cluster, w': Cluster, nudges: seq<UpdateName>, restored: bool)
    requires Inv(w) && Inv(w') && NudgeInv(w, nudges, restored) && w'.stack.request == w.stack.request
    requires w'.absorbed == w.absorbed || AbsorbsCurrent(w, w')
    ensures NudgeInv(w', nudges, restored)
  {
    if w'.absorbed != w.absorbed { AbsorbedOneMore(w, w'); }
  }

  // Writing the request annotation changes nothing else.
  lemma AskKeepsInv(w: Cluster, request: Request)
    requires Inv(w) && RequestInv(w) && Earlier(w, request)
    ensures Inv(Ask(w, request)) && RequestInv(Ask(w, request))
  {
    StackChangeKeepsInv(w, Ask(w, request).stack);
  }

  lemma AskKeepsVisit(w: Cluster, v: Visit, request: Request)
    requires VisitInv(w, v) && Inv(Ask(w, request))
    ensures VisitInv(Ask(w, request), v)
  {}

  lemma NudgeKeepsNode(node: Node, x: UpdateName)
    requires NodeInv(node) && node.w.stack.status.lastUpdate.Some? && node.w.stack.status.lastUpdate.value.name == x
    requires node.w.stack.status.lastUpdate.value.request == node.w.stack.request
    ensures NodeInv(node.(w := Ask(node.w, After(x)), nudges := node.nudges + [x]))
    ensures !IsStackReady(Ask(node.w, After(x)).stack) || node.w.stack.deleted
  {
    var w' := Ask(node.w, After(x));
    NeverServesItself(node.w);
    AskKeepsInv(node.w, After(x));
    if node.visit.Some? { AskKeepsVisit(node.w, node.visit.value, After(x)); }
    forall k | 0 <= k < |node.nudges| ensures node.nudges[k] <= x {
      NudgedInOrder(node.w, node.nudges[k]);
    }
  }

  // What was absorbed is no newer than the last update.
  lemma NudgedInOrder(w: Cluster, x: UpdateName)
    requires Inv(w) && x in AbsorbedNames(w.absorbed)
    ensures w.stack.status.lastUpdate.Some? && x <= w.stack.status.lastUpdate.value.name
  {}

  lemma RequestKeepsNode(node: Node, text: string)
    requires NodeInv(node)
    ensures var last := node.w.stack.status.lastUpdate;
            NodeInv(node.(w := Ask(node.w, Manual(text)),
                          restored := node.restored
                              || (last.Some? && last.value.request == Manual(text) != node.w.stack.request)))
  {
    AskKeepsInv(node.w, Manual(text));
    if node.visit.Some? { AskKeepsVisit(node.w, node.visit.value, Manual(text)); }
  }

  predicate IsOutside(e: Event) {
    !e.StackReconcile? && !e.Crash? && !e.Annotate?
  }

  // Nothing outside the Stack controller changes a Stack's status, or its request.
  lemma OutsideFrame(w: Cluster, e: Event)
    requires Inv(w) && IsOutside(e)
    ensures var w' := Next(w, e);
            && Inv(w') && w'.absorbed == w.absorbed
            && w'.stack.status == w.stack.status && w'.stack.request == w.stack.request
            && w'.stack.finalizer == w.stack.finalizer && (w.stack.deleted ==> w'.stack.deleted)
            && (w'.stack.spec == w.stack.spec || w'.stack.generation != w.stack.generation)
  {
    NextKeepsInv(w, e);
    if IsUpdateEvent(e) { UpdateEventTouchesUpdatesOnly(w, e); }
  }

  lemma OutsideKeepsNode(node: Node, e: Event)
    requires NodeInv(node) && node.visit.None? && IsOutside(e)
    ensures var w' := Next(node.w, e);
            Gone(w'.stack) || NodeInv(node.(w := w'))
  {
    OutsideFrame(node.w, e);
  }

  // A reconcile up to the prerequisites.
  lemma ArriveKeepsNode(node: Node, i: Input)
    requires NodeInv(node) && node.visit.None? && ChecksPrerequisites(node.w, i)
    ensures var (s, commit) := AtPrerequisites(node.w, i);
            && NodeInv(node.(w := s.w, waitsFor := {},
                             visit := Some(Visit(i, commit, s.status, s.unsaved, s.pending,
                                                 node.w.stack.spec.prerequisites, []))))
            && s.w.stack.spec == node.w.stack.spec && s.w.stack.status == node.w.stack.status
            && s.w.stack.generation >= node.w.stack.generation && !s.w.stack.deleted
  {
    FinalizerKeepsInv(node.w, i);
    var s := Observe(EnsureFinalizer(node.w, i), node.w.stack);
    assert SessionInv(s);
    AbsorbIsGood(s, i);
    NudgesKept(node.w, s.w, node.nudges, node.restored);
  }

  // A whole reconcile that does not look at prerequisites.
  lemma ReconcileKeepsNode(node: Node, i: Input)
    requires NodeInv(node) && node.visit.None? && !ChecksPrerequisites(node.w, i)
    ensures var (w', result) := Reconcile(node.w, i);
            && (Gone(w'.stack) || NodeInv(node.(w := w', waitsFor := {})))
            && w'.stack.spec == node.w.stack.spec && w'.stack.deleted == node.w.stack.deleted
            && (result.Requeue? && !Gone(w'.stack) ==> !SaysWaiting(w'.stack.status))
  {
    ReconcileIsGood(node.w, i);
    ReconcileEndsWell(node.w, i);
    var w' := Reconcile(node.w, i).0;
    RequestsKept(node.w, w', node.w.stack.request);
    NudgesKept(node.w, w', node.nudges, node.restored);
  }

  // A reconcile from the prerequisites on.
  lemma LeaveKeepsNode(node: Node, v: Visit, i: Input, waitsFor: set<string>)
    requires NodeInv(node) && node.visit == Some(v)
    ensures var (w', result) := PrerequisiteStage(Held(node.w, v), i, v.commit);
            && !w'.stack.deleted && w'.stack.spec == node.w.stack.spec
            && NodeInv(node.(w := w', visit := None, waitsFor := waitsFor))
            && (result.Requeue? && i.prereq != Unsatisfied ==> !SaysWaiting(w'.stack.status))
  {
    var s := Held(node.w, v);
    PrerequisiteStageIsGood(s, i, v.commit);
    PrerequisitesEndWell(node.w, s, i, v.commit);
    var w' := PrerequisiteStage(s, i, v.commit).0;
    RequestsKept(node.w, w', v.status.observedRequest);
    NudgesKept(node.w, w', node.nudges, node.restored);
  }

  /*** The fleet ***/

  // The prerequisite can only come to satisfy its dependents by an event that wakes them.
  predicate Asleep(f: Fleet, p: string) {
    p !in f.nodes || f.nodes[p].w.stack.deleted || !IsStackReady(f.nodes[p].w.stack)
  }

  ghost predicate Waits(f: Fleet, d: string, p: string) {
    d in f.nodes && p in f.nodes[d].waitsFor ==>
      d in f.queue || (p in PrerequisitesOf(f.nodes[d]) && Asleep(f, p))
  }

  // A Stack that says it waits does wait for something.
  ghost predicate Meant(f: Fleet, d: string) {
    d in f.nodes && SaysWaiting(f.nodes[d].w.stack.status) ==>
      d in f.queue || f.nodes[d].visit.Some? || f.nodes[d].waitsFor != {}
  }

  ghost predicate FleetInv(f: Fleet) {
    && (forall n :: n in f.nodes ==> NodeInv(f.nodes[n]))
    && (forall d, p :: Waits(f, d, p))
    && (forall d :: Meant(f, d))
  }

  // Everything about the fleet but what concerns n's own waiting.
  ghost predicate OthersInv(f: Fleet, n: string) {
    && (forall m :: m in f.nodes ==> NodeInv(f.nodes[m]))
    && (forall d, p :: d != n ==> Waits(f, d, p))
    && (forall d :: d != n ==> Meant(f, d))
  }

  // n's own waiting after its step.
  ghost predicate OwnWait(f: Fleet, n: string, node: Node)
    requires n in f.nodes
  {
    && PrerequisitesOf(node) == PrerequisitesOf(f.nodes[n])
    && (forall p :: p in node.waitsFor ==> p in PrerequisitesOf(node) && Asleep(f, p))
    && (SaysWaiting(node.w.stack.status) ==> node.visit.Some? || node.waitsFor != {})
  }

  lemma PutKeepsWaits(f: Fleet, n: string, node: Node, d: string, p: string)
    requires n in f.nodes && (f.nodes[n].w.stack.deleted ==> node.w.stack.deleted)
    requires d in f.nodes && p in PrerequisitesOf(f.nodes[d]) && Asleep(f, p)
    ensures d in Put(f, n, node).queue || Asleep(Put(f, n, node), p)
  {}

  lemma PutKeepsFleet(f: Fleet, n: string, node: Node, result: Result)
    requires n in f.nodes && OthersInv(f, n)
    requires Gone(node.w.stack) || NodeInv(node)
    requires f.nodes[n].w.stack.deleted ==> node.w.stack.deleted
    requires n in Again(Put(f, n, node), n, result).queue || OwnWait(f, n, node)
    ensures FleetInv(Again(Put(f, n, node), n, result))
  {
    var g := Again(Put(f, n, node), n, result);
    forall d, p ensures Waits(g, d, p) {
      if d in g.nodes && p in g.nodes[d].waitsFor && d !in g.queue {
        assert d != n ==> Waits(f, d, p);
        PutKeepsWaits(f, n, node, d, p);
      }
    }
    forall d ensures Meant(g, d) { assert d != n ==> Meant(f, d); }
  }

  /*** Every event keeps the fleet's invariant ***/

  lemma PutBackKeepsFleet(f: Fleet, n: string, node: Node)
    requires n in f.nodes && FleetInv(f)
    requires Gone(node.w.stack) || NodeInv(node)
    requires f.nodes[n].w.stack.deleted ==> node.w.stack.deleted
    requires n in Put(f, n, node).queue || OwnWait(f, n, node)
    ensures FleetInv(Put(f, n, node))
  {
    PutKeepsFleet(f, n, node, Requeue(0));
    assert Again(Put(f, n, node), n, Requeue(0)) == Put(f, n, node);
  }

  lemma StaysOwnWait(f: Fleet, n: string, node: Node)
    requires n in f.nodes && FleetInv(f) && n !in f.queue
    requires node.visit == f.nodes[n].visit && node.waitsFor == f.nodes[n].waitsFor
    requires node.w.stack.spec == f.nodes[n].w.stack.spec && node.w.stack.status == f.nodes[n].w.stack.status
    ensures OwnWait(f, n, node)
  {
    assert Meant(f, n);
    forall p | p in node.waitsFor ensures p in PrerequisitesOf(node) && Asleep(f, p) { assert Waits(f, n, p); }
  }

  lemma ElsewhereKeepsFleet(f: Fleet, n: string, e: Event)
    requires FleetInv(f)
    ensures FleetInv(StepElsewhere(f, n, e))
  {
    if n in f.nodes && f.nodes[n].visit.None? && IsOutside(e) {
      var node := f.nodes[n];
      var node' := node.(w := Next(node.w, e));
      OutsideKeepsNode(node, e);
      OutsideFrame(node.w, e);
      if n !in Put(f, n, node').queue { StaysOwnWait(f, n, node'); }
      PutBackKeepsFleet(f, n, node');
    }
  }

  lemma RequestKeepsFleet(f: Fleet, n: string, text: string)
    requires FleetInv(f)
    ensures FleetInv(StepRequest(f, n, text))
  {
    if n in f.nodes {
      var node := f.nodes[n];
      var last := node.w.stack.status.lastUpdate;
      var node' := node.(w := Ask(node.w, Manual(text)),
                         restored := node.restored
                             || (last.Some? && last.value.request == Manual(text) != node.w.stack.request));
      RequestKeepsNode(node, text);
      if n !in Put(f, n, node').queue { StaysOwnWait(f, n, node'); }
      PutBackKeepsFleet(f, n, node');
    }
  }

  lemma NudgeKeepsFleet(f: Fleet, p: string, x: UpdateName)
    requires FleetInv(f) && p in f.nodes
    requires var s := f.nodes[p].w.stack;
             && s.status.lastUpdate.Some?
             && s.status.lastUpdate.value.name == x && s.status.lastUpdate.value.request == s.request
    ensures FleetInv(Nudge(f, p, x)) && Asleep(Nudge(f, p, x), p) && Nudge(f, p, x).nodes.Keys == f.nodes.Keys
  {
    var node := f.nodes[p];
    NudgeKeepsNode(node, x);
    var node' := node.(w := Ask(node.w, After(x)), nudges := node.nudges + [x]);
    if p !in Put(f, p, node').queue { StaysOwnWait(f, p, node'); }
    PutBackKeepsFleet(f, p, node');
  }

  lemma GiveUpKeepsFleet(f: Fleet, n: string)
    requires FleetInv(f) && n in f.nodes
    ensures FleetInv(GiveUp(f, n))
  {
    var g := GiveUp(f, n);
    forall d, p ensures Waits(g, d, p) { assert Waits(f, d, p); }
    forall d ensures Meant(g, d) { assert Meant(f, d); }
  }

  lemma NotedWaits(f: Fleet, n: string, sight: Sight, wanting: bool, d: string, p: string)
    requires n in f.nodes && f.nodes[n].visit.Some? && f.nodes[n].visit.value.left != []
    requires f.nodes[n].visit.value.left[0] in f.nodes[n].w.stack.spec.prerequisites
    requires wanting ==> Asleep(f, f.nodes[n].visit.value.left[0].name)
    requires Waits(f, d, p)
    ensures Waits(Noted(f, n, sight, wanting), d, p)
  {
    assert Asleep(Noted(f, n, sight, wanting), p) <==> Asleep(f, p);
  }

  lemma NotedKeepsFleet(f: Fleet, n: string, sight: Sight, wanting: bool)
    requires FleetInv(f) && n in f.nodes && f.nodes[n].visit.Some? && f.nodes[n].visit.value.left != []
    requires wanting ==> Asleep(f, f.nodes[n].visit.value.left[0].name)
    requires sight.p == f.nodes[n].visit.value.left[0] && (!Suits(sight) ==> wanting)
    ensures FleetInv(Noted(f, n, sight, wanting))
  {
    var g, v := Noted(f, n, sight, wanting), f.nodes[n].visit.value;
    assert NodeInv(f.nodes[n]) && v.left[0] in f.nodes[n].w.stack.spec.prerequisites;
    NotedKeepsNode(f.nodes[n], v, sight, g.nodes[n].waitsFor);
    forall d, p ensures Waits(g, d, p) {
      assert Waits(f, d, p);
      NotedWaits(f, n, sight, wanting, d, p);
    }
    forall d ensures Meant(g, d) { assert Meant(f, d); }
  }

  lemma NotedKeepsNode(node: Node, v: Visit, sight: Sight, waitsFor: set<string>)
    requires NodeInv(node) && node.visit == Some(v) && v.left != [] && sight.p == v.left[0]
    requires node.waitsFor <= waitsFor && (!Suits(sight) ==> sight.p.name in waitsFor)
    ensures NodeInv(node.(visit := Some(v.(left := v.left[1..], seen := v.seen + [sight])), waitsFor := waitsFor))
  {}

  lemma UnsatisfiedIsAsleep(w: Cluster, within: Option<int>, now: int)
    requires Inv(w) && RequestInv(w) && !w.stack.deleted && Requirement(within, w.stack, now) != Met
    requires Requirement(within, w.stack, now).OutOfDate? ==>
             w.stack.request == After(Requirement(within, w.stack, now).update)
    ensures !IsStackReady(w.stack)
  {}

  lemma NudgedKeepsFleet(f: Fleet, n: string, p: string, x: UpdateName, sight: Sight)
    requires FleetInv(f) && n in f.nodes && f.nodes[n].visit.Some? && f.nodes[n].visit.value.left != []
    requires f.nodes[n].visit.value.left[0].name == p && p in f.nodes && sight.p == f.nodes[n].visit.value.left[0]
    requires var s := f.nodes[p].w.stack;
             && s.status.lastUpdate.Some?
             && s.status.lastUpdate.value.name == x && s.status.lastUpdate.value.request == s.request
    ensures FleetInv(Noted(Nudge(f, p, x), n, sight, true))
  {
    NudgeKeepsFleet(f, p, x);
    assert Nudge(f, p, x).nodes[n].visit == f.nodes[n].visit;
    NotedKeepsFleet(Nudge(f, p, x), n, sight, true);
  }

  // What a look at p comes to, with its verdict.
  lemma VerdictKeepsFleet(f: Fleet, n: string, p: string, within: Option<int>, a: Answer)
    requires FleetInv(f) && n in f.nodes && f.nodes[n].visit.Some? && f.nodes[n].visit.value.left != []
    requires f.nodes[n].visit.value.left[0] == Prerequisite(p, within) && p in f.nodes && a.getOk
    ensures FleetInv(StepLook(f, n, a))
  {
    var w := f.nodes[p].w;
    var sight := SightOf(f, Prerequisite(p, within), a.now);
    assert NodeInv(f.nodes[p]);
    VerdictsMean(Prerequisite(p, within), w.stack, a.now);
    match Requirement(within, w.stack, a.now)
    case Met => NotedKeepsFleet(f, n, sight, false);
    case NotRun => UnmetKeepsFleet(f, n, p, within, a.now, sight);
    case Failed => UnmetKeepsFleet(f, n, p, within, a.now, sight);
    case OutOfDate(x) =>
      if w.stack.request == After(x) {
        UnmetKeepsFleet(f, n, p, within, a.now, sight);
      } else if a.patchOk {
        NudgedKeepsFleet(f, n, p, x, sight);
      } else {
        GiveUpKeepsFleet(f, n);
      }
  }

  lemma UnmetKeepsFleet(f: Fleet, n: string, p: string, within: Option<int>, now: int, sight: Sight)
    requires FleetInv(f) && n in f.nodes && f.nodes[n].visit.Some? && f.nodes[n].visit.value.left != []
    requires f.nodes[n].visit.value.left[0].name == p && p in f.nodes && sight.p == f.nodes[n].visit.value.left[0]
    requires var s := f.nodes[p].w.stack;
             var verdict := Requirement(within, s, now);
             verdict != Met && (verdict.OutOfDate? ==> s.request == After(verdict.update))
    ensures FleetInv(Noted(f, n, sight, true))
  {
    assert NodeInv(f.nodes[p]);
    if !f.nodes[p].w.stack.deleted { UnsatisfiedIsAsleep(f.nodes[p].w, within, now); }
    NotedKeepsFleet(f, n, sight, true);
  }

  lemma LookKeepsFleet(f: Fleet, n: string, a: Answer)
    requires FleetInv(f)
    ensures FleetInv(StepLook(f, n, a))
  {
    if n in f.nodes && f.nodes[n].visit.Some? && f.nodes[n].visit.value.left != [] {
      var p := f.nodes[n].visit.value.left[0];
      if !a.getOk {
        GiveUpKeepsFleet(f, n);
      } else if p.name !in f.nodes {
        NotedKeepsFleet(f, n, SightOf(f, p, a.now), true);
      } else {
        VerdictKeepsFleet(f, n, p.name, p.succeededWithin, a);
      }
    }
  }

  lemma TakenOthers(f: Fleet, n: string)
    requires FleetInv(f)
    ensures OthersInv(f.(queue := f.queue - {n}), n)
  {
    var g := f.(queue := f.queue - {n});
    forall d, p | d != n ensures Waits(g, d, p) { assert Waits(f, d, p); }
    forall d | d != n ensures Meant(g, d) { assert Meant(f, d); }
  }

  lemma ArriveKeepsFleet(f: Fleet, n: string, i: Input)
    requires FleetInv(f) && n in f.nodes && f.nodes[n].visit.None? && ChecksPrerequisites(f.nodes[n].w, i)
    requires n in f.queue
    ensures FleetInv(StepTake(f, n, i))
  {
    var g := f.(queue := f.queue - {n});
    var node := f.nodes[n];
    TakenOthers(f, n);
    ArriveKeepsNode(node, i);
    var (s, commit) := AtPrerequisites(node.w, i);
    var node' := node.(w := s.w, waitsFor := {},
                       visit := Some(Visit(i, commit, s.status, s.unsaved, s.pending,
                                           node.w.stack.spec.prerequisites, [])));
    PutKeepsFleet(g, n, node', Requeue(0));
    assert Again(Put(g, n, node'), n, Requeue(0)) == Put(g, n, node');
  }

  // n ends a reconcile that did not look at the prerequisites.
  lemma FinishKeepsFleet(f: Fleet, n: string, w: Cluster, result: Result)
    requires OthersInv(f, n) && n in f.nodes && f.nodes[n].visit.None?
    requires Gone(w.stack) || NodeInv(f.nodes[n].(w := w, waitsFor := {}))
    requires w.stack.spec == f.nodes[n].w.stack.spec && w.stack.deleted == f.nodes[n].w.stack.deleted
    requires result.Requeue? && !Gone(w.stack) ==> !SaysWaiting(w.stack.status)
    ensures FleetInv(Again(Put(f, n, f.nodes[n].(w := w, waitsFor := {})), n, result))
  {
    PutKeepsFleet(f, n, f.nodes[n].(w := w, waitsFor := {}), result);
  }

  lemma TakeKeepsFleet(f: Fleet, n: string, i: Input)
    requires FleetInv(f)
    ensures FleetInv(StepTake(f, n, i))
  {
    var g := f.(queue := f.queue - {n});
    TakenOthers(f, n);
    if n in f.queue && n !in f.nodes {
      assert FleetInv(g);
    } else if n in f.queue && f.nodes[n].visit.None? {
      var node := f.nodes[n];
      if ChecksPrerequisites(node.w, i) {
        ArriveKeepsFleet(f, n, i);
      } else {
        ReconcileKeepsNode(node, i);
        FinishKeepsFleet(g, n, Reconcile(node.w, i).0, Reconcile(node.w, i).1);
      }
    }
  }

  // n ends its reconcile, and may go on waiting for what it waited for.
  lemma EndKeepsFleet(f: Fleet, n: string, w: Cluster, waitsFor: set<string>, result: Result)
    requires FleetInv(f) && n in f.nodes && f.nodes[n].visit.Some?
    requires NodeInv(f.nodes[n].(w := w, visit := None, waitsFor := waitsFor))
    requires w.stack.spec == f.nodes[n].w.stack.spec && waitsFor <= f.nodes[n].waitsFor
    requires result.Requeue? && SaysWaiting(w.stack.status) ==> waitsFor != {}
    ensures FleetInv(Again(Put(f, n, f.nodes[n].(w := w, visit := None, waitsFor := waitsFor)), n, result))
  {
    var node := f.nodes[n].(w := w, visit := None, waitsFor := waitsFor);
    assert NodeInv(f.nodes[n]);
    if n !in f.queue && result.Requeue? {
      forall p | p in waitsFor ensures p in PrerequisitesOf(node) && Asleep(f, p) { assert Waits(f, n, p); }
    }
    PutKeepsFleet(f, n, node, result);
  }

  lemma LeaveKeepsFleet(f: Fleet, n: string)
    requires FleetInv(f)
    ensures FleetInv(StepLeave(f, n))
  {
    if n in f.nodes && f.nodes[n].visit.Some? && f.nodes[n].visit.value.left == [] {
      var node := f.nodes[n];
      var v := node.visit.value;
      var (w', result) := AfterLooks(node);
      var waitsFor := if result.Requeue? then node.waitsFor else {};
      LeaveKeepsNode(node, v, Concluded(v.i, node.waitsFor), waitsFor);
      EndKeepsFleet(f, n, w', waitsFor, result);
    }
  }

  lemma CreateKeepsFleet(f: Fleet, n: string, spec: StackSpec)
    requires FleetInv(f)
    ensures FleetInv(NextFleet(f, CreateStack(n, spec)))
  {
    var g := NextFleet(f, CreateStack(n, spec));
    if n !in f.nodes {
      InitialIsGood(spec);
      forall d, p ensures Waits(g, d, p) { assert Waits(f, d, p); }
      forall d ensures Meant(g, d) { assert Meant(f, d); }
    }
  }

  lemma InitialIsGood(spec: StackSpec)
    ensures NodeInv(Node(Initial(spec), None, {}, [], false)) && !IsStackReady(Initial(spec).stack)
  {}

  lemma RestartKeepsFleet(f: Fleet)
    requires FleetInv(f)
    ensures FleetInv(NextFleet(f, Restart))
  {
    var g := NextFleet(f, Restart);
    forall n | n in g.nodes ensures NodeInv(g.nodes[n]) {
      assert NodeInv(f.nodes[n]);
      CrashKeepsInv(f.nodes[n].w);
    }
    forall d, p ensures Waits(g, d, p) {}
    forall d ensures Meant(g, d) {}
  }

  lemma NextKeepsFleet(f: Fleet, e: FleetEvent)
    requires FleetInv(f)
    ensures FleetInv(NextFleet(f, e))
  {
    match e
    case CreateStack(n, spec) => CreateKeepsFleet(f, n, spec);
    case Elsewhere(n, e) => ElsewhereKeepsFleet(f, n, e);
    case UserRequest(n, text) => RequestKeepsFleet(f, n, text);
    case Enqueue(n) => EnqueueKeepsFleet(f, n);
    case Take(n, i) => TakeKeepsFleet(f, n, i);
    case Look(n, a) => LookKeepsFleet(f, n, a);
    case Leave(n) => LeaveKeepsFleet(f, n);
    case Restart => RestartKeepsFleet(f);
  }

  lemma EnqueueKeepsFleet(f: Fleet, n: string)
    requires FleetInv(f)
    ensures FleetInv(f.(queue := f.queue + {n}))
  {
    var g := f.(queue := f.queue + {n});
    forall d, p ensures Waits(g, d, p) { assert Waits(f, d, p); }
    forall d ensures Meant(g, d) { assert Meant(f, d); }
  }

  lemma LeadKeepsFleet(f: Fleet, f': Fleet)
    requires FleetInv(f) && FleetLeadsTo(f, f')
    ensures FleetInv(f')
  {
    var e :| f' == NextFleet(f, e);
    NextKeepsFleet(f, e);
  }

  lemma {:induction false} RunKeepsFleet(t: seq<Fleet>, k: nat)
    requires IsFleetRun(t) && k < |t|
    ensures FleetInv(t[k])
  {
    if k > 0 {
      RunKeepsFleet(t, k - 1);
      assert FleetStepAt(t, k - 1);
      LeadKeepsFleet(t[k - 1], t[k]);
    }
  }

  lemma FleetReachableInv(f: Fleet)
    requires FleetReachable(f)
    ensures FleetInv(f)
  {
    var t :| IsFleetRun(t) && f == t[|t| - 1];
    RunKeepsFleet(t, |t| - 1);
  }

  /*** What that means ***/

  /**
   No lost wake-up.  In every reachable state, a Stack whose status says that it waits for its
   prerequisites, and which is neither in the work queue nor being reconciled, waits for one that is
   not ready, does not exist, or is being deleted, whatever durations it asks for, whenever the
   others moved, and even if the operator restarted.  All that it still waits for is such.
   */
  lemma NoLostWakeUp(f: Fleet, d: string)
    requires FleetReachable(f) && d in f.nodes && SaysWaiting(f.nodes[d].w.stack.status)
    requires d !in f.queue && f.nodes[d].visit.None?
    ensures exists p :: p in PrerequisitesOf(f.nodes[d]) && Asleep(f, p)
    ensures forall p :: p in f.nodes[d].waitsFor ==> p in PrerequisitesOf(f.nodes[d]) && Asleep(f, p)
  {
    FleetReachableInv(f);
    assert Meant(f, d);
    var p :| p in f.nodes[d].waitsFor;
    assert Waits(f, d, p);
    forall p | p in f.nodes[d].waitsFor ensures p in PrerequisitesOf(f.nodes[d]) && Asleep(f, p) {
      assert Waits(f, d, p);
    }
  }

  // What p turns from and to when its dependents are to be woken.
  predicate Awakens(f: Fleet, g: Fleet, p: string) {
    && p in f.nodes
    && (p !in g.nodes || BecomesReady(f.nodes[p].w.stack, g.nodes[p].w.stack))
  }

  /** The other side: whichever event makes a Stack ready, or removes it, wakes all its dependents. */
  lemma AwakeningReachesDependents(f: Fleet, e: FleetEvent, p: string, d: string)
    requires Awakens(f, NextFleet(f, e), p)
    requires d in f.nodes && p in PrerequisitesOf(f.nodes[d])
    ensures d in NextFleet(f, e).queue
  {
    assert d in Dependents(f, p);
    match e
    case CreateStack(_, _) =>
    case Elsewhere(_, _) =>
    case UserRequest(_, _) =>
    case Enqueue(_) =>
    case Take(n, i) => TakeReachesDependents(f, n, i, p, d);
    case Look(n, a) => LookReachesDependents(f, n, a, p, d);
    case Leave(_) =>
    case Restart =>
  }

  lemma TakeReachesDependents(f: Fleet, n: string, i: Input, p: string, d: string)
    requires Awakens(f, StepTake(f, n, i), p)
    requires d in f.nodes && p in PrerequisitesOf(f.nodes[d])
    ensures d in StepTake(f, n, i).queue
  {}

  lemma LookReachesDependents(f: Fleet, n: string, a: Answer, p: string, d: string)
    requires Awakens(f, StepLook(f, n, a), p)
    requires d in f.nodes && p in PrerequisitesOf(f.nodes[d])
    ensures d in StepLook(f, n, a).queue
  {}

  /**
   No thrashing.  However many dependents, with whatever durations, look at a Stack in whatever order,
   their requests to run again follow ever later Updates: at most one for each completed Update, as
   long as no user writes back the request that the last update had served.
   */
  lemma NoThrashing(f: Fleet, p: string)
    requires FleetReachable(f) && p in f.nodes && !f.nodes[p].restored
    ensures forall j, k :: 0 <= j < k < |f.nodes[p].nudges| ==> f.nodes[p].nudges[j] < f.nodes[p].nudges[k]
    ensures forall x :: x in f.nodes[p].nudges ==> exists a :: a in f.nodes[p].w.absorbed && a.current.name == x
  {
    FleetReachableInv(f);
    assert NodeInv(f.nodes[p]);
  }

  /**
   Asking twice, exactly.  A dependent that asks a stale prerequisite to run again repeats a request that
   was written before if and only if the last one written has been taken back unserved; which only a user
   who restores the served request does.
   */
  lemma AsksAgainExactly(f: Fleet, p: string, within: Option<int>, now: int)
    requires FleetReachable(f) && p in f.nodes && Requirement(within, f.nodes[p].w.stack, now).OutOfDate?
    ensures var x, node := Requirement(within, f.nodes[p].w.stack, now).update, f.nodes[p];
            && (x in node.nudges <==> !Unanswered(node.w, node.nudges))
            && (x in node.nudges ==> node.restored)
  {
    FleetReachableInv(f);
    NodeAsksAgain(f.nodes[p], within, now);
  }

  lemma NodeAsksAgain(node: Node, within: Option<int>, now: int)
    requires NodeInv(node) && Requirement(within, node.w.stack, now).OutOfDate?
    ensures var x := Requirement(within, node.w.stack, now).update;
            && (x in node.nudges <==> !Unanswered(node.w, node.nudges))
            && (x in node.nudges ==> node.restored)
  {
    var x := Requirement(within, node.w.stack, now).update;
    if k :| 0 <= k < |node.nudges| && node.nudges[k] == x {
      NudgedInOrder(node.w, node.nudges[|node.nudges| - 1]);
    }
  }

  /** After such a write, from any state, a dependent asks for the same resync a second time. */
  lemma RestoringThrashes(f: Fleet, p: string, n: string, text: string, a: Answer)
    requires p in f.nodes && n in f.nodes && n != p
    requires var s, nudges := f.nodes[p].w.stack, f.nodes[p].nudges;
             && !Gone(s) && nudges != [] && s.status.lastUpdate.Some?
             && var last := s.status.lastUpdate.value;
               && last.name == nudges[|nudges| - 1] && last.request == Manual(text)
               && last.generation == s.generation && last.state == SucceededState
               && f.nodes[n].visit.Some? && f.nodes[n].visit.value.left != []
               && var q := f.nodes[n].visit.value.left[0];
                 q.name == p && q.succeededWithin.Some? && a.now - last.resyncTime > q.succeededWithin.value
    requires a.getOk && a.patchOk
    ensures var g := StepLook(StepRequest(f, p, text), n, a);
            && p in g.nodes && |g.nodes[p].nudges| == |f.nodes[p].nudges| + 1
            && g.nodes[p].nudges[|f.nodes[p].nudges|] == g.nodes[p].nudges[|f.nodes[p].nudges| - 1]
  {}

  /*** Who launches has satisfied prerequisites ***/

  // A reconcile that does not look at the prerequisites creates nothing for a Stack that is not being deleted.
  lemma CreatesOnlyAfterLooking(w: Cluster, i: Input)
    requires !w.stack.deleted && !ChecksPrerequisites(w, i)
    ensures Reconcile(w, i).0.created == w.created
  {
    var s := Observe(EnsureFinalizer(w, i), w.stack);
    if (w.stack.finalizer || i.addFinalizerOk) && i.planOk && AbsorbCurrent(s, i).Proceed? {
      var s' := AbsorbCurrent(s, i).s;
      var source := ResolveSource(s'.w.stack, s'.status, i.source);
      if source.Resolved? && i.setup == SetupDone { SyncedCreatesNone(s', i); }
    }
  }

  // Each prerequisite in the spec has been looked at, in order, and suited.
  ghost predicate AllSuited(n: Node) {
    && n.visit.Some?
    && var ps, seen := n.w.stack.spec.prerequisites, n.visit.value.seen;
      |seen| == |ps| && forall k :: 0 <= k < |ps| ==> seen[k].p == ps[k] && Suits(seen[k])
  }

  // One more Update of n.
  predicate Launches(f: Fleet, g: Fleet, n: string) {
    n in f.nodes && n in g.nodes && g.nodes[n].w.created != f.nodes[n].w.created
  }

  lemma LeaveLaunches(f: Fleet, m: string, n: string)
    requires FleetInv(f) && n in f.nodes && !f.nodes[n].w.stack.deleted && Launches(f, StepLeave(f, m), n)
    ensures m == n && AllSuited(f.nodes[n])
  {
    if m == n {
      var node := f.nodes[n];
      var v := node.visit.value;
      assert NodeInv(node);
      if node.waitsFor != {} { UnsatisfiedCreatesNone(Held(node.w, v), Concluded(v.i, node.waitsFor), v.commit); }
    }
  }

  lemma UnsatisfiedCreatesNone(s: Session, i: Input, commit: string)
    requires !s.w.stack.deleted && i.prereq == Unsatisfied
    ensures PrerequisiteStage(s, i, commit).0.created == s.w.created
  {}

  lemma TakeLaunches(f: Fleet, m: string, i: Input, n: string)
    requires FleetInv(f) && n in f.nodes && !f.nodes[n].w.stack.deleted
    ensures !Launches(f, StepTake(f, m, i), n)
  {
    if m == n && !ChecksPrerequisites(f.nodes[n].w, i) { CreatesOnlyAfterLooking(f.nodes[n].w, i); }
  }

  lemma ElsewhereLaunches(f: Fleet, m: string, e: Event, n: string)
    requires FleetInv(f)
    ensures !Launches(f, StepElsewhere(f, m, e), n)
  {
    if m == n && n in f.nodes && IsOutside(e) {
      assert NodeInv(f.nodes[n]);
      if IsUpdateEvent(e) { UpdateEventTouchesUpdatesOnly(f.nodes[n].w, e); }
    }
  }

  lemma LookLaunches(f: Fleet, m: string, a: Answer, n: string)
    ensures !Launches(f, StepLook(f, m, a), n)
  {}

  /**
   In every run, an Update of a Stack that is not being deleted is created only at the end of a reconcile that
   has looked at every prerequisite in its spec and found, each time, that it was there and its last update
   had succeeded, at its generation and request, and was no older than asked for.
   */
  lemma LaunchesOnSatisfied(f: Fleet, e: FleetEvent, n: string)
    requires FleetReachable(f) && n in f.nodes && !f.nodes[n].w.stack.deleted
    requires Launches(f, NextFleet(f, e), n)
    ensures e == Leave(n) && AllSuited(f.nodes[n])
  {
    FleetReachableInv(f);
    match e
    case Elsewhere(m, e) => ElsewhereLaunches(f, m, e, n);
    case Take(m, i) => TakeLaunches(f, m, i, n);
    case Look(m, a) => LookLaunches(f, m, a, n);
    case Leave(m) => LeaveLaunches(f, m, n);
    case _ =>
  }

  /** And what a look has seen is what was there. */
  lemma LookSees(f: Fleet, n: string, a: Answer)
    requires n in f.nodes && f.nodes[n].visit.Some? && f.nodes[n].visit.value.left != []
    requires n in StepLook(f, n, a).nodes && StepLook(f, n, a).nodes[n].visit.Some?
    ensures var v, v' := f.nodes[n].visit.value, StepLook(f, n, a).nodes[n].visit.value;
            && |v'.seen| == |v.seen| + 1 && v'.seen[..|v.seen|] == v.seen
            && var sight, p := v'.seen[|v.seen|], v.left[0];
              && sight.p == p && sight.now == a.now
              && (sight.stack.Some? <==> p.name in f.nodes)
              && (p.name in f.nodes ==> sight.stack.value == f.nodes[p.name].w.stack)
  {
    var p := f.nodes[n].visit.value.left[0];
    if p.name in f.nodes {
      var verdict := Requirement(p.succeededWithin, f.nodes[p.name].w.stack, a.now);
      if verdict.OutOfDate? && f.nodes[p.name].w.stack.request != After(verdict.update) && a.patchOk {
        NudgeKeepsVisit(f, p.name, verdict.update, n);
      }
    }
  }

  lemma NudgeKeepsVisit(f: Fleet, p: string, x: UpdateName, n: string)
    requires p in f.nodes && n in f.nodes && n in Nudge(f, p, x).nodes
    ensures Nudge(f, p, x).nodes[n].visit == f.nodes[n].visit
  {}
}
