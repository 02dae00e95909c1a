/** What a Workspace that is ready has behind it, over every run. */
module WorkspaceProofs {
  import opened Prelude
  import opened ConfigGate
  import opened WorkspaceController

  /*** What the initialisation is meant to be ***/

  // The calls for one stack: select it, then set its configuration and its environments, if it has any.
  function CallsFor(d: Decoder, s: StackConfig): seq<Call> {
    var messages := MarshalAll(d, s.config);
    [SelectStack(s.name)]
    + (if s.config != [] && messages.Some? then [SetAllConfig(messages.value)] else [])
    + (if s.environment != [] then [AddEnvironments(s.environment)] else [])
  }

  function CallsForAll(d: Decoder, stacks: seq<StackConfig>): seq<Call> {
    if stacks == [] then [] else CallsForAll(d, stacks[..|stacks| - 1]) + CallsFor(d, stacks[|stacks| - 1])
  }

  // Install unless there is no program, then every stack in order.
  function Plan(d: Decoder, spec: WorkspaceSpec): seq<Call> {
    (if spec.projectInfo then [] else [Install]) + CallsForAll(d, spec.stacks)
  }

  // An attempt makes a first part of the planned calls, all of them if it succeeds, and none needs a newer CLI.
  ghost predicate AttemptInv(e: Surroundings, a: Attempt) {
    && a.calls <= Plan(e.decode, a.spec)
    && (a.ok ==>
          && a.calls == Plan(e.decode, a.spec)
          && forall s :: s in a.spec.stacks ==> MarshalAll(e.decode, s.config).Some?)
    && (NeedsJson(a.spec.stacks) ==> Supports(e.parseVersion, a.version))
  }

  lemma InitStackFollows(d: Decoder, p: Progress, s: StackConfig, patience: nat)
    requires p.ok
    ensures var r := InitStack(d, p, s, patience);
            && r.calls <= p.calls + CallsFor(d, s)
            && (r.ok ==> r.calls == p.calls + CallsFor(d, s) && MarshalAll(d, s.config).Some?)
  {}

  lemma {:induction false} InitStacksFollow(d: Decoder, p: Progress, stacks: seq<StackConfig>, patience: nat)
    requires p.ok
    ensures var r := InitStacks(d, p, stacks, patience);
            && r.calls <= p.calls + CallsForAll(d, stacks)
            && (r.ok ==>
                  && r.calls == p.calls + CallsForAll(d, stacks)
                  && forall s :: s in stacks ==> MarshalAll(d, s.config).Some?)
  {
    if stacks != [] {
      var init, last := stacks[..|stacks| - 1], stacks[|stacks| - 1];
      InitStacksFollow(d, p, init, patience);
      var q := InitStacks(d, p, init, patience);
      if q.ok {
        InitStackFollows(d, q, last, patience);
        assert stacks == init + [last];
        assert p.calls + CallsForAll(d, init) + CallsFor(d, last) == p.calls + CallsForAll(d, stacks);
      } else {
        assert InitStack(d, q, last, patience) == q;
        assert p.calls + CallsForAll(d, stacks) == p.calls + CallsForAll(d, init) + CallsFor(d, last);
      }
    }
  }

  // Where a call to set configuration comes from.
  lemma {:induction false} ConfigIsPlanned(d: Decoder, stacks: seq<StackConfig>, messages: seq<Message>)
    requires SetAllConfig(messages) in CallsForAll(d, stacks)
    ensures exists s :: s in stacks && MarshalAll(d, s.config) == Some(messages)
  {
    var init, last := stacks[..|stacks| - 1], stacks[|stacks| - 1];
    if SetAllConfig(messages) in CallsForAll(d, init) {
      ConfigIsPlanned(d, init, messages);
      var s :| s in init && MarshalAll(d, s.config) == Some(messages);
      assert s in stacks;
    } else {
      assert last in stacks;
    }
  }

  /*** Runs ***/

  datatype Event =
    | WorkspaceReconcile(i: Input)
    | EditSpec(spec: WorkspaceSpec)
    | MarkDeleted
    | NewPod(revision: int)      // made from the source of that generation
    | PodLost

  function Next(e: Surroundings, s: State, ev: Event): State {
    match ev
    case WorkspaceReconcile(i) => ReconcileWorkspace(e, s, i)
    case EditSpec(spec) => s.(spec := spec, generation := s.generation + 1)
    case MarkDeleted => if s.deleted then s else s.(deleted := true, generation := s.generation + 1)
    case NewPod(revision) => if revision <= s.generation then s.(pod := Some(Pod(revision, false, []))) else s
    case PodLost => s.(pod := None)
  }

  function Created(spec: WorkspaceSpec): State {
    State(spec, 1, false, WorkspaceStatus(NotYet, None, 0, ""), None, [])
  }

  function Run(e: Surroundings, spec: WorkspaceSpec, events: seq<Event>): State {
    if events == [] then Created(spec) else Next(e, Run(e, spec, events[..|events| - 1]), events[|events| - 1])
  }

  ghost predicate Reachable(e: Surroundings, s: State) {
    exists spec, events :: s == Run(e, spec, events)
  }

  predicate IsReady(s: State) {
    s.status.ready.Ready? && s.status.ready.status
  }

  // The pod went through the whole initialisation for that spec.
  ghost predicate InitializedFor(e: Surroundings, pod: Pod, spec: WorkspaceSpec) {
    && pod.attempts != []
    && var a := pod.attempts[|pod.attempts| - 1];
      a.ok && a.spec == spec && a.calls == Plan(e.decode, spec)
  }

  ghost predicate PodInv(e: Surroundings, s: State, pod: Pod) {
    && pod.revision <= s.generation
    && (forall a :: a in pod.attempts ==> AttemptInv(e, a))
    && (pod.initialized ==> s.status.stalled.None? && (pod.revision == s.generation ==> InitializedFor(e, pod, s.spec)))
  }

  ghost predicate DeclaredInv(e: Surroundings, s: State, d: Declared) {
    && d.pod.initialized && d.pod.revision == d.generation <= s.generation
    && InitializedFor(e, d.pod, d.spec)
    && (d.generation == s.generation ==> d.spec == s.spec)
  }

  ghost predicate StateInv(e: Surroundings, s: State) {
    && (s.pod.Some? ==> PodInv(e, s, s.pod.value))
    && (forall d :: d in s.declared ==> DeclaredInv(e, s, d))
    && (IsReady(s) ==>
          && s.status.stalled.None?
          && s.declared != [] && s.declared[|s.declared| - 1].generation == s.status.observedGeneration)
  }

  // A session has the store's invariant, and its own calls follow the plan.
  ghost predicate SessionInv(e: Surroundings, x: Session) {
    && StateInv(e, x.s) && x.s.pod.Some? && x.s.pod.value.revision == x.s.generation && !x.s.pod.value.initialized
    && x.status.stalled.None?
  }

  lemma StopKeepsInv(e: Surroundings, x: Session, reason: ReadyReason, i: Input)
    requires StateInv(e, x.s) && (x.s.pod.Some? && x.s.pod.value.initialized ==> x.status.stalled.None?)
    ensures StateInv(e, Stop(x, reason, i))
  {}

  lemma SaveKeepsSession(e: Surroundings, x: Session, reason: ReadyReason, ok: bool)
    requires SessionInv(e, x)
    ensures SessionInv(e, Save(x, Ready(false, reason), ok)) && Save(x, Ready(false, reason), ok).progress == x.progress
    ensures Save(x, Ready(false, reason), ok).status.version == x.status.version
            && Save(x, Ready(false, reason), ok).s.spec == x.s.spec
    ensures ok ==> Save(x, Ready(false, reason), ok).s.status == Save(x, Ready(false, reason), ok).status
  {}

  lemma DeclareKeepsInv(e: Surroundings, x: Session, ok: bool)
    requires StateInv(e, x.s) && x.s.pod.Some? && x.status.stalled.None?
    requires x.s.pod.value.initialized && x.s.pod.value.revision == x.s.generation
    ensures StateInv(e, Save(x, Ready(true, Succeeded), ok).s)
  {}

  lemma LoggedKeepsSession(e: Surroundings, x: Session)
    requires SessionInv(e, x)
    requires AttemptInv(e, Attempt(x.s.spec, x.status.version, x.progress.calls, x.progress.ok))
    ensures SessionInv(e, x.(s := Logged(x)))
    ensures x.progress.ok ==> InitializedFor(e, Logged(x).pod.value, x.s.spec)
  {}

  // The calls made before the stacks are seen to.
  ghost predicate Prepared(e: Surroundings, x: Session) {
    && SessionInv(e, x)
    && x.progress == Progress(if x.s.spec.projectInfo then [] else [Install], true)
    && (NeedsJson(x.s.spec.stacks) ==> Supports(e.parseVersion, x.status.version))
  }

  lemma AnnotatedKeepsInv(e: Surroundings, x: Session)
    requires SessionInv(e, x) && x.s.status.stalled.None? && InitializedFor(e, x.s.pod.value, x.s.spec)
    ensures StateInv(e, x.s.(pod := Some(x.s.pod.value.(initialized := true))))
  {}

  lemma InitKeepsInv(e: Surroundings, x: Session, i: Input)
    requires Prepared(e, x)
    ensures StateInv(e, InitWorkspace(e, x, i))
  {
    SaveKeepsSession(e, x, Initializing, i.initializingOk);
    var x1 := Save(x, Ready(false, Initializing), i.initializingOk);
    if !i.initializingOk {
      LoggedKeepsSession(e, x1.(progress := x1.progress.(ok := false)));
    } else {
      InitStacksFollow(e.decode, x1.progress, x1.s.spec.stacks, i.patience);
      var x2 := x1.(progress := InitStacks(e.decode, x1.progress, x1.s.spec.stacks, i.patience));
      LoggedKeepsSession(e, x2);
      var x3 := x2.(s := Logged(x2));
      if !x2.progress.ok {
        StopKeepsInv(e, x3.(status := x3.status.(stalled := Some(InitializationFailed))), InitializationFailed, i);
      } else if i.annotateOk {
        AnnotatedKeepsInv(e, x3);
        DeclareKeepsInv(e, x3.(s := x3.s.(pod := Some(x3.s.pod.value.(initialized := true)))), i.saveOk);
      }
    }
  }

  lemma InstallKeepsInv(e: Surroundings, x: Session, i: Input)
    requires SessionInv(e, x) && x.progress == Progress([], true)
    requires NeedsJson(x.s.spec.stacks) ==> Supports(e.parseVersion, x.status.version)
    ensures StateInv(e, InstallProgram(e, x, i))
  {
    if x.s.spec.projectInfo {
      InitKeepsInv(e, x, i);
    } else {
      SaveKeepsSession(e, x, Installing, i.installingOk);
      var x1 := Save(x, Ready(false, Installing), i.installingOk);
      if i.installingOk {
        var x2 := x1.(progress := Make(x1.progress, Install, i.patience));
        assert x2.progress.calls == [Install];
        if x2.progress.ok {
          InitKeepsInv(e, x2, i);
        } else {
          LoggedKeepsSession(e, x2);
          var x3 := x2.(s := Logged(x2));
          StopKeepsInv(e, x3.(status := x3.status.(stalled := Some(InstallationFailed))), InstallationFailed, i);
        }
      }
    }
  }

  lemma CheckKeepsInv(e: Surroundings, x: Session, i: Input)
    requires SessionInv(e, x) && x.progress == Progress([], true)
    ensures StateInv(e, CheckVersion(e, x, i))
  {
    if i.version.None? {
      StopKeepsInv(e, x, VersionUnknown, i);
    } else {
      var x1 := x.(status := x.status.(version := i.version.value));
      if NeedsJson(x.s.spec.stacks) && !Supports(e.parseVersion, i.version.value) {
        StopKeepsInv(e, x1.(status := x1.status.(stalled := Some(Incompatible))), Incompatible, i);
      } else {
        InstallKeepsInv(e, x1, i);
      }
    }
  }

  lemma ReconcileKeepsInv(e: Surroundings, s: State, i: Input)
    requires StateInv(e, s)
    ensures StateInv(e, ReconcileWorkspace(e, s, i))
  {
    var x := Session(s, s.status, Progress([], true));
    if s.deleted {
      StopKeepsInv(e, x, Deleting, i);
    } else {
      match i.access
      case Refused =>
      case Replaced =>
      case Rolling => StopKeepsInv(e, x, RollingUpdate, i);
      case Waiting => StopKeepsInv(e, x, WaitingForReplicas, i);
      case NoPod =>
      case Unconnected => StopKeepsInv(e, x, ConnectionFailed, i);
      case Connected =>
        if s.pod.Some? && s.pod.value.revision == s.generation {
          if s.pod.value.initialized {
            DeclareKeepsInv(e, x, i.saveOk);
          } else {
            CheckKeepsInv(e, x.(status := x.status.(stalled := None)), i);
          }
        }
    }
  }

  lemma NextKeepsInv(e: Surroundings, s: State, ev: Event)
    requires StateInv(e, s)
    ensures StateInv(e, Next(e, s, ev))
  {
    if ev.WorkspaceReconcile? {
      ReconcileKeepsInv(e, s, ev.i);
    } else {
      var s' := Next(e, s, ev);
      if s'.pod.Some? && s'.pod == s.pod { assert PodInv(e, s, s.pod.value); }
      forall d | d in s'.declared ensures DeclaredInv(e, s', d) { assert DeclaredInv(e, s, d); }
    }
  }

  lemma {:induction false} RunKeepsInv(e: Surroundings, spec: WorkspaceSpec, events: seq<Event>)
    ensures StateInv(e, Run(e, spec, events))
  {
    if events != [] {
      RunKeepsInv(e, spec, events[..|events| - 1]);
      NextKeepsInv(e, Run(e, spec, events[..|events| - 1]), events[|events| - 1]);
    }
  }

  lemma ReachableInv(e: Surroundings, s: State)
    requires Reachable(e, s)
    ensures StateInv(e, s)
  {
    var spec, events :| s == Run(e, spec, events);
    RunKeepsInv(e, spec, events);
  }

  /*** What that means ***/

  /**
   A stored Ready=True has no Stalled beside it, and behind it a pod made from the source of the observed
   generation, in which, after whatever failures and crashes, one reconcile made all of the planned
   calls, in order, and each was answered, before it annotated the pod.  If the observed generation is
   the present one, as the Stack controller demands, the plan is that of the present spec.
   */
  lemma ReadyMeansInitialized(e: Surroundings, s: State)
    requires Reachable(e, s) && IsReady(s)
    ensures s.status.stalled.None?
    ensures exists d :: d in s.declared && d.generation == s.status.observedGeneration
              && d.pod.initialized && d.pod.revision == d.generation && InitializedFor(e, d.pod, d.spec)
    ensures s.status.observedGeneration == s.generation ==>
              exists d :: d in s.declared && d.generation == s.generation && InitializedFor(e, d.pod, s.spec)
  {
    ReachableInv(e, s);
    var d := s.declared[|s.declared| - 1];
    assert d in s.declared && DeclaredInv(e, s, d);
  }

  // The version is 3.202.0 or later.
  predicate TakesJson(parse: string -> Option<Version>, version: string) {
    match parse(version)
    case None => false
    case Some(Version(major, minor, patch, prerelease)) =>
      || major > 3
      || (major == 3 && minor > 202)
      || (major == 3 && minor == 202 && (patch > 0 || !prerelease))
  }

  /**
   The two halves of the gate, together: in every run, whenever the agent in a pod was asked to set
   configuration that makes it take the JSON route, the CLI there had reported version 3.202.0 or later.
   */
  lemma JsonOnlyWhereSupported(e: Surroundings, s: State, a: Attempt, messages: seq<Message>)
    requires Respects(e.decode) && Reachable(e, s)
    requires s.pod.Some? && a in s.pod.value.attempts && SetAllConfig(messages) in a.calls && TakesJsonRoute(messages)
    ensures TakesJson(e.parseVersion, a.version)
  {
    ReachableInv(e, s);
    assert PodInv(e, s, s.pod.value) && AttemptInv(e, a);
    assert SetAllConfig(messages) in Plan(e.decode, a.spec);
    ConfigIsPlanned(e.decode, a.spec.stacks, messages);
    var stack :| stack in a.spec.stacks && MarshalAll(e.decode, stack.config) == Some(messages);
    GateIsSound(e.decode, a.spec.stacks, stack);
    NeedsJsonIsForced(a.spec.stacks);
  }

  /** An annotated pod is not initialised again, and only a reconcile that answered every call annotates one. */
  lemma InitializedOnce(e: Surroundings, s: State, i: Input)
    requires Reachable(e, s) && s.pod.Some?
    ensures var pod' := ReconcileWorkspace(e, s, i).pod;
            && pod'.Some?
            && (s.pod.value.initialized ==> pod' == s.pod)
            && (!s.pod.value.initialized && pod'.value.initialized ==>
                  |pod'.value.attempts| == |s.pod.value.attempts| + 1 && InitializedFor(e, pod'.value, s.spec))
  {
    ReachableInv(e, s);
    ReconcileKeepsInv(e, s, i);
  }
}
