/** A concrete run of three Stacks in which the same resync is asked for twice. */
module Thrash {
  import opened Prelude
  import opened ReadyProtocol
  import opened StackModel
  import opened Sync
  import opened Outputs
  import opened UpdateStream
  import opened UpdateController
  import opened ClusterState
  import opened UpdateSteps
  import opened StackController
  import opened Invariants
  import opened Runs
  import opened Stuck
  import opened Leak
  import opened Requests
  import opened Prerequisites
  import opened Fleets

  // Two Stacks that will not have their prerequisite older than an instant.
  const DEPENDENT := SPEC.(prerequisites := [Prerequisite("base", Some(0))])

  lemma FleetReachableNext(f: Fleet, e: FleetEvent)
    requires FleetReachable(f)
    ensures FleetReachable(NextFleet(f, e))
  {
    var t :| IsFleetRun(t) && f == t[|t| - 1];
    var longer := t + [NextFleet(f, e)];
    assert longer[|t| - 1] == f && longer[|t|] == NextFleet(f, e);
    FleetNextLeads(f, e);
    forall k | 0 <= k < |longer| - 1 ensures FleetStepAt(longer, k) { assert k < |t| - 1 ==> FleetStepAt(t, k); }
    assert IsFleetRun(longer);
  }

  lemma FleetNextLeads(f: Fleet, e: FleetEvent)
    ensures FleetLeadsTo(f, NextFleet(f, e))
  {}

  lemma NoStacksIsReachable()
    ensures FleetReachable(Fleet(map[], {}))
  {
    assert IsFleetRun([Fleet(map[], {})]);
  }

  /*** The base Stack is updated once ***/

  // One reconcile of a Stack without prerequisites.
  lemma ReconcileIn(f: Fleet, n: string, i: Input) returns (g: Fleet)
    requires FleetReachable(f) && n in f.nodes && f.nodes[n].visit.None? && f.nodes[n].w.stack.spec.prerequisites == []
    requires i.prereq == Satisfied && !Gone(Reconcile(f.nodes[n].w, i).0.stack)
    ensures FleetReachable(g) && g.nodes == f.nodes[n := f.nodes[n].(w := Reconcile(f.nodes[n].w, i).0, waitsFor := {})]
  {
    FleetReachableNext(f, Enqueue(n));
    var f1 := NextFleet(f, Enqueue(n));
    FleetReachableNext(f1, Take(n, i));
    g := NextFleet(f1, Take(n, i));
    if ChecksPrerequisites(f.nodes[n].w, i) {
      ReconcileAroundPrerequisites(f.nodes[n].w, i);
      SatisfiedAfterLooks(g.nodes[n]);
      g := LeaveIn(g, n);
    }
  }

  lemma LeaveIn(f: Fleet, n: string) returns (g: Fleet)
    requires FleetReachable(f) && n in f.nodes && f.nodes[n].visit.Some? && f.nodes[n].waitsFor == {}
    requires f.nodes[n].visit.value.left == [] && !Gone(AfterLooks(f.nodes[n]).0.stack)
    ensures FleetReachable(g)
    ensures g.nodes == f.nodes[n := f.nodes[n].(w := AfterLooks(f.nodes[n]).0, visit := None)]
  {
    LeaveDone(f, n);
    LeaveIsReachable(f, n);
    g := StepLeave(f, n);
  }

  lemma LeaveIsReachable(f: Fleet, n: string)
    requires FleetReachable(f)
    ensures FleetReachable(StepLeave(f, n))
  {
    LeaveIsNext(f, n);
    FleetReachableNext(f, Leave(n));
  }

  lemma LeaveIsNext(f: Fleet, n: string)
    ensures NextFleet(f, Leave(n)) == StepLeave(f, n)
  {}

  lemma LeaveDone(f: Fleet, n: string)
    requires n in f.nodes && f.nodes[n].visit.Some? && f.nodes[n].waitsFor == {}
    requires f.nodes[n].visit.value.left == [] && !Gone(AfterLooks(f.nodes[n]).0.stack)
    ensures StepLeave(f, n).nodes == f.nodes[n := f.nodes[n].(w := AfterLooks(f.nodes[n]).0, visit := None)]
  {
    EndVisitDone(f, n, AfterLooks(f.nodes[n]));
  }

  lemma SatisfiedAfterLooks(node: Node)
    requires node.visit.Some? && node.waitsFor == {} && node.visit.value.i.prereq == Satisfied
    ensures var v := node.visit.value;
            AfterLooks(node) == PrerequisiteStage(Held(node.w, v), v.i, v.commit)
  {
    SatisfiedStays(node.visit.value.i);
  }

  lemma SatisfiedStays(i: Input)
    requires i.prereq == Satisfied
    ensures Concluded(i, {}) == i
  {}

  lemma EndVisitDone(f: Fleet, n: string, end: (Cluster, Result))
    requires n in f.nodes && f.nodes[n].waitsFor == {} && !Gone(end.0.stack)
    ensures EndVisit(f, n, end).nodes == f.nodes[n := f.nodes[n].(w := end.0, visit := None)]
  {}

  lemma StepIn(f: Fleet, n: string, e: Event) returns (g: Fleet)
    requires FleetReachable(f) && n in f.nodes && f.nodes[n].visit.None? && !Gone(Next(f.nodes[n].w, e).stack)
    requires !e.StackReconcile? && !e.Crash? && !e.Annotate?
    ensures FleetReachable(g) && g.nodes == f.nodes[n := f.nodes[n].(w := Next(f.nodes[n].w, e))]
  {
    FleetReachableNext(f, Elsewhere(n, e));
    g := NextFleet(f, Elsewhere(n, e));
  }

  // An Update of the base Stack has been created and is under way.
  predicate Busy(w: Cluster) {
    && w.stack.spec == SPEC && w.stack.finalizer && !w.stack.deleted && w.stack.request == Manual("")
    && w.stack.status.currentUpdate == Some(CurrentUpdate(w.stack.generation, Manual(""), 0, ""))
    && w.workspace == Some(READY_WORKSPACE)
    && 0 in w.updates && 0 in w.executions
  }

  predicate Idle(w: Cluster) {
    Pristine(w) && w.stack.request == Manual("")
  }

  lemma Start() returns (w: Cluster)
    ensures w == Reconcile(Initial(SPEC), SMOOTH).0 && Idle(Next(w, WorkspaceChange(Some(READY_WORKSPACE))))
            && !w.stack.deleted
  {
    w := Reconcile(Initial(SPEC), SMOOTH).0;
  }

  lemma Launch(w: Cluster) returns (w': Cluster)
    requires Idle(w)
    ensures w' == Reconcile(w, SMOOTH).0 && Busy(w') && w'.updates[0] == NewUpdate(UpType).(finalizer := true)
    ensures 0 !in w'.running && w'.executions[0].typ == UpType
  {
    w' := Reconcile(w, SMOOTH).0;
  }

  // The Update runs and succeeds.
  lemma Operate(w: Cluster) returns (w1: Cluster, w2: Cluster, w3: Cluster)
    requires Busy(w) && w.updates[0] == NewUpdate(UpType).(finalizer := true) && 0 !in w.running
    requires w.executions[0].typ == UpType
    ensures w1 == Next(w, UpdateBegin(0, false, true, true))
    ensures w2 == Next(w1, UpdateDial(0, Opened(DELIVERS), true))
    ensures w3 == Next(w2, UpdateFinish(0, true, true))
    ensures w1.stack == w.stack && w2.stack == w.stack && w3.stack == w.stack
    ensures Busy(w3) && IsUpdateComplete(w3.updates[0]) && DoneSucceeded(w3.updates[0].status)
            && !w3.updates[0].status.outputs
  {
    w1 := Next(w, UpdateBegin(0, false, true, true));
    w2 := Opens(w1);
    w3 := Next(w2, UpdateFinish(0, true, true));
  }

  lemma Opens(w: Cluster) returns (w': Cluster)
    requires Busy(w) && 0 in w.running && w.running[0].Starting?
    ensures w' == Next(w, UpdateDial(0, Opened(DELIVERS), true))
    ensures w' == w.(running := w'.running, executions := w'.executions)
    ensures 0 in w'.running && w'.running[0] == Streaming(w.running[0].generation, w.running[0].status, DELIVERS)
    ensures 0 in w'.executions && w'.executions[0].typ == w.executions[0].typ
  {
    w' := Next(w, UpdateDial(0, Opened(DELIVERS), true));
  }

  predicate Served(s: Stack) {
    && !s.deleted && s.finalizer && s.request == Manual("") && s.spec.prerequisites == []
    && s.status.lastUpdate.Some?
    && var last := s.status.lastUpdate.value;
      last.name == 0 && last.state == SucceededState && last.generation == s.generation && last.request == Manual("")
          && last.resyncTime == 0
  }

  lemma Absorb(w: Cluster) returns (w': Cluster)
    requires Busy(w) && IsUpdateComplete(w.updates[0]) && DoneSucceeded(w.updates[0].status)
    requires !w.updates[0].status.outputs
    ensures w' == Reconcile(w, SMOOTH).0 && Served(w'.stack)
  {
    w' := Reconcile(w, SMOOTH).0;
  }

  // There is just the base Stack, with no request made of it yet.
  predicate Alone(f: Fleet) {
    f.nodes.Keys == {"base"} && f.nodes["base"].nudges == [] && f.nodes["base"].visit.None?
  }

  lemma BaseIsIdle() returns (f: Fleet)
    ensures FleetReachable(f) && Alone(f) && Idle(f.nodes["base"].w)
  {
    NoStacksIsReachable();
    f := Fleet(map[], {});
    FleetReachableNext(f, CreateStack("base", SPEC));
    f := NextFleet(f, CreateStack("base", SPEC));
    var w := Start();
    f := ReconcileIn(f, "base", SMOOTH);
    f := StepIn(f, "base", WorkspaceChange(Some(READY_WORKSPACE)));
  }

  lemma BaseIsUpdated() returns (f: Fleet)
    ensures FleetReachable(f) && Alone(f)
    ensures var w := f.nodes["base"].w;
            Busy(w) && IsUpdateComplete(w.updates[0]) && DoneSucceeded(w.updates[0].status)
                && !w.updates[0].status.outputs
  {
    f := BaseIsIdle();
    var w := Launch(f.nodes["base"].w);
    f := ReconcileIn(f, "base", SMOOTH);
    var w1, w2, w3 := Operate(w);
    f := StepIn(f, "base", UpdateBegin(0, false, true, true));
    f := StepIn(f, "base", UpdateDial(0, Opened(DELIVERS), true));
    f := StepIn(f, "base", UpdateFinish(0, true, true));
  }

  lemma BaseIsServed() returns (f: Fleet)
    ensures FleetReachable(f) && Alone(f) && Served(f.nodes["base"].w.stack)
  {
    f := BaseIsUpdated();
    var w := Absorb(f.nodes["base"].w);
    f := ReconcileIn(f, "base", SMOOTH);
  }

  /*** Two dependents look at it ***/

  // The dependent has begun to look.
  predicate Looking(f: Fleet, n: string) {
    && n in f.nodes && n != "base"
    && f.nodes[n].visit.Some? && f.nodes[n].visit.value.left == [Prerequisite("base", Some(0))]
  }

  lemma BeginsToLook(f: Fleet, n: string) returns (g: Fleet)
    requires FleetReachable(f) && n !in f.nodes && "base" in f.nodes && n != "base"
    ensures FleetReachable(g) && Looking(g, n) && g.nodes.Keys == f.nodes.Keys + {n}
    ensures forall m :: m in f.nodes ==> g.nodes[m] == f.nodes[m]
  {
    FleetReachableNext(f, CreateStack(n, DEPENDENT));
    g := NextFleet(f, CreateStack(n, DEPENDENT));
    FleetReachableNext(g, Take(n, SMOOTH));
    assert ChecksPrerequisites(Initial(DEPENDENT), SMOOTH);
    g := NextFleet(g, Take(n, SMOOTH));
  }

  const A_MOMENT_LATER := Answer(true, 1, true)

  lemma Looks(f: Fleet, n: string) returns (g: Fleet)
    requires FleetReachable(f) && Looking(f, n) && "base" in f.nodes && Served(f.nodes["base"].w.stack)
    ensures FleetReachable(g) && "base" in g.nodes && g.nodes["base"].nudges == f.nodes["base"].nudges + [0]
    ensures g.nodes["base"].w == Ask(f.nodes["base"].w, After(0)) && g.nodes.Keys == f.nodes.Keys
    ensures forall m :: m in f.nodes && m != n && m != "base" ==> g.nodes[m] == f.nodes[m]
  {
    FleetReachableNext(f, Look(n, A_MOMENT_LATER));
    g := NextFleet(f, Look(n, A_MOMENT_LATER));
  }

  /**
   Thrashing, concretely: two dependents ask for the same resync of one completed Update, because a user
   took the first request back by writing the one that the Update had served.
   */
  lemma ThrashingIsReachable() returns (f: Fleet)
    ensures FleetReachable(f) && "base" in f.nodes && f.nodes["base"].nudges == [0, 0]
  {
    f := BaseIsServed();
    f := BeginsToLook(f, "app");
    f := BeginsToLook(f, "web");
    f := Looks(f, "app");
    FleetReachableNext(f, UserRequest("base", ""));
    f := NextFleet(f, UserRequest("base", ""));
    f := Looks(f, "web");
  }
}
