/**
 Many Stacks that are prerequisites of one another, with the controller's work queue.  The reconcile of
 a Stack is cut where it looks at its prerequisites, one at a time: meanwhile any other Stack may move,
 and its own request annotation may change.
 */
module Fleets {
  import opened Prelude
  import opened ReadyProtocol
  import opened StackModel
  import opened ClusterState
  import opened StackController
  import opened Runs
  import opened Requests
  import opened Prerequisites

  // A reconcile that is looking at the prerequisites: its local state, and those it has yet to look at.
  datatype Visit = Visit(
    i: Input, commit: string, status: StackStatus, unsaved: Option<Absorption>, pending: Option<UpdateName>,
    left: seq<Prerequisite>,
    seen: seq<Sight>)          // history: what it has found

  // What a look at a prerequisite found, and when.
  datatype Sight = Sight(p: Prerequisite, stack: Option<Stack>, now: int)

  datatype Node = Node(
    w: Cluster, visit: Option<Visit>,
    // the prerequisites found wanting in the visit, or in the last reconcile if that ended waiting
    waitsFor: set<string>,
    // history
    nudges: seq<UpdateName>,   // the resync requests dependents wrote: After(x) for each x
    restored: bool             // a user wrote back the request that the last update had served
  )

  datatype Fleet = Fleet(nodes: map<string, Node>, queue: set<string>)

  function Held(w: Cluster, v: Visit): Session {
    Session(w, v.status, v.unsaved, v.pending)
  }

  function Names(ps: seq<Prerequisite>): set<string> {
    set p | p in ps :: p.name
  }

  function PrerequisitesOf(n: Node): set<string> {
    Names(n.w.stack.spec.prerequisites)
  }

  // enqueueDependents
  function Dependents(f: Fleet, n: string): set<string> {
    set d | d in f.nodes && n in PrerequisitesOf(f.nodes[d])
  }

  // The Stack watch for the object itself: its generation changed (other than by adding the finalizer),
  // or its request annotation did.
  predicate PassesOwnWatch(s: Stack, s': Stack) {
    (s.generation != s'.generation && !(!s.finalizer && s'.finalizer)) || s.request != s'.request
  }

  // stackReadyPredicate on an update of the object.
  predicate BecomesReady(s: Stack, s': Stack) {
    !IsStackReady(s) && IsStackReady(s')
  }

  // An object marked for deletion whose finalizer is gone does not exist any more.
  predicate Gone(s: Stack) {
    s.deleted && !s.finalizer
  }

  // A change of an object, and whom the watches wake on seeing it.
  function Put(f: Fleet, n: string, node: Node): Fleet
    requires n in f.nodes
  {
    var s, s' := f.nodes[n].w.stack, node.w.stack;
    if Gone(s') then Fleet(f.nodes - {n}, f.queue + Dependents(f, n) + {n})
    else Fleet(f.nodes[n := node],
               f.queue
               + (if PassesOwnWatch(s, s') then {n} else {})
               + (if BecomesReady(s, s') then Dependents(f, n) else {}))
  }

  // The controller runs a key again after an error.
  function Again(f: Fleet, n: string, result: Result): Fleet {
    if result.Retry? then f.(queue := f.queue + {n}) else f
  }

  datatype FleetEvent =
    | CreateStack(name: string, spec: StackSpec)
    | Elsewhere(name: string, e: Event)             // anything outside the Stack controller
    | UserRequest(name: string, text: string)       // a user writes the request annotation
    | Enqueue(name: string)                         // a timer, or a watch on some other object
    | Take(name: string, i: Input)
    | Look(name: string, a: Answer)
    | Leave(name: string)
    | Restart

  function NextFleet(f: Fleet, e: FleetEvent): Fleet {
    match e
    case CreateStack(n, spec) =>
      if n in f.nodes then f else Fleet(f.nodes[n := Node(Initial(spec), None, {}, [], false)], f.queue + {n})
    case Elsewhere(n, e) => StepElsewhere(f, n, e)
    case UserRequest(n, text) => StepRequest(f, n, text)
    case Enqueue(n) => f.(queue := f.queue + {n})
    case Take(n, i) => StepTake(f, n, i)
    case Look(n, a) => StepLook(f, n, a)
    case Leave(n) => StepLeave(f, n)
    case Restart =>
      Fleet(map n | n in f.nodes :: f.nodes[n].(w := f.nodes[n].w.(running := map[]), visit := None, waitsFor := {}),
            f.queue + f.nodes.Keys)
  }

  // Between the steps of its own reconcile nothing but annotations changes a Stack.
  function StepElsewhere(f: Fleet, n: string, e: Event): Fleet {
    if n !in f.nodes || f.nodes[n].visit.Some? || e.StackReconcile? || e.Crash? || e.Annotate? then f
    else Put(f, n, f.nodes[n].(w := Next(f.nodes[n].w, e)))
  }

  function Ask(w: Cluster, request: Request): Cluster {
    w.(stack := w.stack.(request := request))
  }

  function StepRequest(f: Fleet, n: string, text: string): Fleet {
    if n !in f.nodes then f
    else
      var node := f.nodes[n];
      var last := node.w.stack.status.lastUpdate;
      Put(f, n, node.(w := Ask(node.w, Manual(text)),
                      restored := node.restored
                          || (last.Some? && last.value.request == Manual(text) != node.w.stack.request)))
  }

  function StepTake(f: Fleet, n: string, i: Input): Fleet {
    var g := f.(queue := f.queue - {n});
    if n !in f.queue then f
    else if n !in f.nodes then g
    else if f.nodes[n].visit.Some? then f
    else
      var node := f.nodes[n];
      if ChecksPrerequisites(node.w, i) then
        var (s, commit) := AtPrerequisites(node.w, i);
        Put(g, n, node.(w := s.w, waitsFor := {},
                        visit := Some(Visit(i, commit, s.status, s.unsaved, s.pending,
                                            node.w.stack.spec.prerequisites, []))))
      else
        var (w', result) := Reconcile(node.w, i);
        Again(Put(g, n, node.(w := w', waitsFor := {})), n, result)
  }

  // The reconcile breaks off with an error.
  function GiveUp(f: Fleet, n: string): Fleet
    requires n in f.nodes
  {
    Fleet(f.nodes[n := f.nodes[n].(visit := None, waitsFor := {})], f.queue + {n})
  }

  // The dependent asks a prerequisite to run again.
  function Nudge(f: Fleet, p: string, x: UpdateName): Fleet
    requires p in f.nodes
  {
    Put(f, p, f.nodes[p].(w := Ask(f.nodes[p].w, After(x)), nudges := f.nodes[p].nudges + [x]))
  }

  // The reconcile has looked at its next prerequisite.
  function Noted(f: Fleet, n: string, sight: Sight, wanting: bool): Fleet {
    if n !in f.nodes || f.nodes[n].visit.None? || f.nodes[n].visit.value.left == [] then f
    else
      var node := f.nodes[n];
      var v := node.visit.value;
      f.(nodes := f.nodes[n := node.(visit := Some(v.(left := v.left[1..], seen := v.seen + [sight])),
                                     waitsFor := if wanting then node.waitsFor + {v.left[0].name} else node.waitsFor)])
  }

  function SightOf(f: Fleet, p: Prerequisite, now: int): Sight {
    Sight(p, if p.name in f.nodes then Some(f.nodes[p.name].w.stack) else None, now)
  }

  function StepLook(f: Fleet, n: string, a: Answer): Fleet {
    if n !in f.nodes || f.nodes[n].visit.None? || f.nodes[n].visit.value.left == [] then f
    else if !a.getOk then GiveUp(f, n)
    else
      var p := f.nodes[n].visit.value.left[0];
      var sight := SightOf(f, p, a.now);
      if p.name !in f.nodes then Noted(f, n, sight, true)
      else
        var target := f.nodes[p.name].w.stack;
        match Requirement(p.succeededWithin, target, a.now)
        case Met => Noted(f, n, sight, false)
        case NotRun => Noted(f, n, sight, true)
        case Failed => Noted(f, n, sight, true)
        case OutOfDate(x) =>
          if target.request == After(x) then Noted(f, n, sight, true)
          else if !a.patchOk then GiveUp(f, n)
          else Noted(Nudge(f, p.name, x), n, sight, true)
  }

  // The input as the looks make it.
  function Concluded(i: Input, waitsFor: set<string>): Input {
    i.(prereq := if waitsFor == {} then Satisfied else Unsatisfied)
  }

  // What follows the looks.
  function AfterLooks(node: Node): (end: (Cluster, Result))
    requires node.visit.Some?
  {
    var v := node.visit.value;
    PrerequisiteStage(Held(node.w, v), Concluded(v.i, node.waitsFor), v.commit)
  }

  function StepLeave(f: Fleet, n: string): Fleet {
    if n !in f.nodes || f.nodes[n].visit.None? || f.nodes[n].visit.value.left != [] then f
    else EndVisit(f, n, AfterLooks(f.nodes[n]))
  }

  // The reconcile ends, and may go on waiting for what it found wanting.
  function EndVisit(f: Fleet, n: string, end: (Cluster, Result)): Fleet
    requires n in f.nodes
  {
    var waitsFor := if end.1.Requeue? then f.nodes[n].waitsFor else {};
    Again(Put(f, n, f.nodes[n].(w := end.0, visit := None, waitsFor := waitsFor)), n, end.1)
  }

  ghost predicate FleetLeadsTo(f: Fleet, f': Fleet) {
    exists e :: f' == NextFleet(f, e)
  }

  ghost predicate FleetStepAt(t: seq<Fleet>, k: nat)
    requires k + 1 < |t|
  {
    FleetLeadsTo(t[k], t[k + 1])
  }

  // The states of a run, from no Stacks at all.
  ghost predicate IsFleetRun(t: seq<Fleet>) {
    |t| > 0 && t[0] == Fleet(map[], {}) && forall k :: 0 <= k < |t| - 1 ==> FleetStepAt(t, k)
  }

  ghost predicate FleetReachable(f: Fleet) {
    exists t :: IsFleetRun(t) && f == t[|t| - 1]
  }
}
