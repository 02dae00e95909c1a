/**
 What a reconcile of a Workspace leaves behind: for every way it may go, the status it stores, the attempt that
 the agent logs, and what the stored version tells.
 */
module WorkspaceOutcomes {
  import opened Prelude
  import opened ConfigGate
  import opened WorkspaceController
  import opened WorkspaceProofs

  // The status, as it is stored for the present generation.
  predicate Shows(s: State, s': State, ready: ReadyReason, stalled: Option<ReadyReason>, version: string) {
    s'.status == WorkspaceStatus(Ready(ready == Succeeded, ready), stalled, s.generation, version)
  }

  /*** Without an initialisation ***/

  // The pod can be reached and is made from the present source.
  predicate HasPod(s: State, i: Input) {
    !s.deleted && i.access == Connected && s.pod.Some? && s.pod.value.revision == s.generation
  }

  // What there is to say of a Workspace whose pod needs nothing or cannot be reached, if anything.
  predicate Says(s: State, i: Input, ready: ReadyReason) {
    match ready
    case Deleting => s.deleted
    case RollingUpdate => !s.deleted && i.access == Rolling
    case WaitingForReplicas => !s.deleted && i.access == Waiting
    case ConnectionFailed => !s.deleted && i.access == Unconnected
    case Succeeded => HasPod(s, i) && s.pod.value.initialized
    case _ => false
  }

  /**
   Where there is nothing to initialise, the pod is left alone and just Ready is stored, with the reason that
   holds; or nothing is, if none does.
   */
  lemma NothingToInitialize(e: Surroundings, s: State, i: Input)
    requires !(HasPod(s, i) && !s.pod.value.initialized)
    ensures var s' := ReconcileWorkspace(e, s, i);
            && s' == s.(status := s'.status, declared := s'.declared)
            && (forall ready :: Says(s, i, ready) && i.saveOk ==>
                  Shows(s, s', ready, s.status.stalled, s.status.version))
            && (!i.saveOk || (forall ready :: !Says(s, i, ready)) ==> s' == s)
  {
    if !s.deleted {
      match i.access
      case Rolling => assert Says(s, i, RollingUpdate);
      case Waiting => assert Says(s, i, WaitingForReplicas);
      case Unconnected => assert Says(s, i, ConnectionFailed);
      case Connected => if HasPod(s, i) { assert Says(s, i, Succeeded); }
      case _ =>
    } else {
      assert Says(s, i, Deleting);
    }
  }

  /*** With one ***/

  // The CLI is known, and takes the configuration.
  ghost predicate Compatible(e: Surroundings, s: State, version: string) {
    ForcesCheck(s.spec.stacks) ==> TakesJson(e.parseVersion, version)
  }

  // Every item of every stack can be sent.
  ghost predicate AllMarshal(d: Decoder, stacks: seq<StackConfig>) {
    forall s :: s in stacks ==> MarshalAll(d, s.config).Some?
  }

  // The whole plan was carried out.
  ghost predicate CarriedOut(e: Surroundings, s: State, i: Input) {
    i.initializingOk && AllMarshal(e.decode, s.spec.stacks) && |Plan(e.decode, s.spec)| <= i.patience
  }

  // One more attempt is logged, or none.
  ghost predicate Logs(e: Surroundings, s: State, s': State, version: string, ok: bool)
    requires s.pod.Some?
  {
    && s'.pod.Some? && |s'.pod.value.attempts| == |s.pod.value.attempts| + 1
    && var a := s'.pod.value.attempts[|s.pod.value.attempts|];
      && s'.pod.value.attempts == s.pod.value.attempts + [a]
      && a.spec == s.spec && a.version == version && a.ok == ok && a.calls <= Plan(e.decode, s.spec)
      && (ok ==> a.calls == Plan(e.decode, s.spec))
  }

  // The stack's configuration and all calls for it go through.
  lemma InitStackSucceeds(d: Decoder, p: Progress, s: StackConfig, patience: nat)
    requires p.ok && |p.calls| <= patience
    ensures InitStack(d, p, s, patience).ok <==>
              MarshalAll(d, s.config).Some? && |p.calls| + |CallsFor(d, s)| <= patience
  {}

  lemma {:induction false} InitStacksSucceed(d: Decoder, p: Progress, stacks: seq<StackConfig>, patience: nat)
    requires p.ok && |p.calls| <= patience
    ensures InitStacks(d, p, stacks, patience).ok <==>
              AllMarshal(d, stacks) && |p.calls| + |CallsForAll(d, stacks)| <= patience
  {
    if stacks != [] {
      var init, last := stacks[..|stacks| - 1], stacks[|stacks| - 1];
      InitStacksSucceed(d, p, init, patience);
      var q := InitStacks(d, p, init, patience);
      assert stacks == init + [last];
      assert AllMarshal(d, stacks) <==> AllMarshal(d, init) && MarshalAll(d, last.config).Some?;
      if q.ok {
        InitStacksFollow(d, p, init, patience);
        InitStackSucceeds(d, q, last, patience);
      } else {
        assert InitStack(d, q, last, patience) == q;
      }
    }
  }

  // From the second write on, which finds this status stored.
  ghost predicate Initializes(e: Surroundings, s: State, i: Input, version: string, before: WorkspaceStatus, s': State)
    requires s.pod.Some?
  {
    && Logs(e, s, s', version, CarriedOut(e, s, i))
    && s'.pod.value.revision == s.pod.value.revision
    && (s'.pod.value.initialized <==> CarriedOut(e, s, i) && i.annotateOk)
    && if !i.initializingOk then s'.status == before
       else if !CarriedOut(e, s, i) && i.saveOk then
         Shows(s, s', InitializationFailed, Some(InitializationFailed), version)
       else if CarriedOut(e, s, i) && i.annotateOk && i.saveOk then Shows(s, s', Succeeded, None, version)
       else Shows(s, s', Initializing, None, version)
  }

  lemma InitializationTells(e: Surroundings, x: Session, i: Input)
    requires x.s.pod.Some? && !x.s.pod.value.initialized && x.status.stalled.None?
    requires x.progress == Progress(if x.s.spec.projectInfo then [] else [Install], true)
    requires |x.progress.calls| <= i.patience
    ensures Initializes(e, x.s, i, x.status.version, x.s.status, InitWorkspace(e, x, i))
  {
    InitStacksSucceed(e.decode, x.progress, x.s.spec.stacks, i.patience);
    InitStacksFollow(e.decode, x.progress, x.s.spec.stacks, i.patience);
  }

  // What becomes of a pod that is not initialised yet, with a CLI that will do.
  ghost predicate Attempts(e: Surroundings, s: State, i: Input, version: string, s': State)
    requires s.pod.Some?
  {
    var program := !s.spec.projectInfo;
    if program && !i.installingOk then s' == s
    else if program && i.patience == 0 then
      && Logs(e, s, s', version, false) && s'.pod.value == s.pod.value.(attempts := s'.pod.value.attempts)
      && if i.saveOk then Shows(s, s', InstallationFailed, Some(InstallationFailed), version)
         else Shows(s, s', Installing, None, version)
    else
      var installing := WorkspaceStatus(Ready(false, Installing), None, s.generation, version);
      var before := if program then installing else s.status;
      Initializes(e, s, i, version, before, s')
  }

  lemma InstallTells(e: Surroundings, x: Session, i: Input)
    requires x.s.pod.Some? && !x.s.pod.value.initialized && x.status.stalled.None? && x.progress == Progress([], true)
    ensures Attempts(e, x.s, i, x.status.version, InstallProgram(e, x, i))
  {
    if x.s.spec.projectInfo {
      InitializationTells(e, x, i);
    } else if i.installingOk {
      var x1 := Save(x, Ready(false, Installing), true);
      var x2 := x1.(progress := Make(x1.progress, Install, i.patience));
      if i.patience > 0 { InitializationTells(e, x2, i); }
    }
  }

  /**
   A pod that can be reached and is not initialised: the CLI's version must be known, and be 3.202.0 or later if
   some item needs JSON, or the Workspace is not ready for that reason; else one attempt is made and logged.
   It succeeds if and only if every item can be sent and the agent answers all of the planned calls;
   then, and only then, the pod is annotated and Ready=True stored; else the Workspace is stalled with the
   reason for which the attempt failed.
   */
  lemma ReconcileTells(e: Surroundings, s: State, i: Input)
    requires HasPod(s, i) && !s.pod.value.initialized
    ensures var s' := ReconcileWorkspace(e, s, i);
            && s'.spec == s.spec && s'.generation == s.generation && s'.deleted == s.deleted
            && if i.version.None? then
                 && s' == s.(status := s'.status)
                 && if i.saveOk then Shows(s, s', VersionUnknown, None, s.status.version) else s' == s
               else if !Compatible(e, s, i.version.value) then
                 && s' == s.(status := s'.status)
                 && if i.saveOk then Shows(s, s', Incompatible, Some(Incompatible), i.version.value) else s' == s
               else Attempts(e, s, i, i.version.value, s')
  {
    NeedsJsonIsForced(s.spec.stacks);
    if i.version.Some? && Compatible(e, s, i.version.value) {
      var x := Session(s, s.status.(stalled := None, version := i.version.value), Progress([], true));
      assert ReconcileWorkspace(e, s, i) == InstallProgram(e, x, i);
      InstallTells(e, x, i);
    }
  }

  /*** The stored version, over runs ***/

  ghost predicate VersionInv(e: Surroundings, s: State) {
    && s.status.observedGeneration <= s.generation
    && (s.pod.Some? ==> s.pod.value.revision <= s.generation)
    && (s.status.stalled == Some(Incompatible) ==> !TakesJson(e.parseVersion, s.status.version))
    && (IsReady(s) && s.status.observedGeneration == s.generation ==> Compatible(e, s, s.status.version))
    && (s.pod.Some? && s.pod.value.initialized && s.pod.value.revision == s.generation ==>
          Compatible(e, s, s.status.version))
  }

  lemma ReconcileKeepsVersion(e: Surroundings, s: State, i: Input)
    requires VersionInv(e, s)
    ensures VersionInv(e, ReconcileWorkspace(e, s, i))
  {
    if HasPod(s, i) && !s.pod.value.initialized {
      ReconcileTells(e, s, i);
    } else {
      NothingToInitialize(e, s, i);
      assert Says(s, i, Succeeded) ==> HasPod(s, i);
    }
  }

  lemma {:induction false} RunKeepsVersion(e: Surroundings, spec: WorkspaceSpec, events: seq<Event>)
    ensures VersionInv(e, Run(e, spec, events))
  {
    if events != [] {
      var before, ev := Run(e, spec, events[..|events| - 1]), events[|events| - 1];
      RunKeepsVersion(e, spec, events[..|events| - 1]);
      if ev.WorkspaceReconcile? { ReconcileKeepsVersion(e, before, ev.i); }
    }
  }

  /**
   In every run: a Workspace that is ready at its present generation, with configuration that needs JSON, shows a
   version of 3.202.0 or later, and one that is stalled as incompatible shows one that is not.
   */
  lemma VersionTells(e: Surroundings, s: State)
    requires Reachable(e, s)
    ensures IsReady(s) && s.status.observedGeneration == s.generation && ForcesCheck(s.spec.stacks) ==>
              TakesJson(e.parseVersion, s.status.version)
    ensures s.status.stalled == Some(Incompatible) ==> !TakesJson(e.parseVersion, s.status.version)
  {
    var spec, events :| s == Run(e, spec, events);
    RunKeepsVersion(e, spec, events);
  }
}
