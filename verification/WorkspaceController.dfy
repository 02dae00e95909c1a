/**
 The Workspace reconciler (workspace_controller.go): the initialisation of the workspace pod, which may
 fail or be cut short anywhere and then starts anew, and is recorded in an annotation of the pod.
 */
module WorkspaceController {
  import opened Prelude
  import opened ConfigGate

  datatype WorkspaceSpec = WorkspaceSpec(stacks: seq<StackConfig>, projectInfo: bool)

  // What the agent in the pod was asked to do.
  datatype Call =
    | Install
    | SelectStack(name: string)
    | SetAllConfig(config: seq<Message>)
    | AddEnvironments(names: seq<string>)

  // One attempt at the initialisation, for a certain spec.
  datatype Attempt = Attempt(spec: WorkspaceSpec, version: string, calls: seq<Call>, ok: bool)

  // The pod: the generation its source was made from, the annotation, and (history) the attempts made in it.
  datatype Pod = Pod(revision: int, initialized: bool, attempts: seq<Attempt>)

  datatype ReadyReason =
    | Deleting | RollingUpdate | WaitingForReplicas | ConnectionFailed | VersionUnknown | Incompatible
    | Installing | InstallationFailed | Initializing | InitializationFailed | Succeeded

  datatype Ready = NotYet | Ready(status: bool, reason: ReadyReason)

  datatype WorkspaceStatus = WorkspaceStatus(
    ready: Ready, stalled: Option<ReadyReason>, observedGeneration: int, version: string)

  // History: the pod with which a Ready=True was written, and the spec it was written for.
  datatype Declared = Declared(generation: int, spec: WorkspaceSpec, pod: Pod)

  datatype State = State(
    spec: WorkspaceSpec, generation: int, deleted: bool, status: WorkspaceStatus, pod: Option<Pod>,
    declared: seq<Declared>)

  // How far the service, the StatefulSet, its pod and the connection to it let the reconcile come.
  datatype Access = Refused | Replaced | Rolling | Waiting | NoPod | Unconnected | Connected

  datatype Surroundings = Surroundings(decode: Decoder, parseVersion: string -> Option<Version>)

  datatype Input = Input(
    access: Access, version: Option<string>,
    patience: nat,                                    // how many calls the agent answers before it refuses one
    installingOk: bool, initializingOk: bool, annotateOk: bool, saveOk: bool)   // the writes, in order

  /*** The initialisation of the pod ***/

  datatype Progress = Progress(calls: seq<Call>, ok: bool)

  function Make(p: Progress, c: Call, patience: nat): Progress {
    if p.ok then Progress(p.calls + [c], |p.calls| < patience) else p
  }

  function Configure(d: Decoder, p: Progress, s: StackConfig, patience: nat): Progress {
    if !p.ok || s.config == [] then p
    else match MarshalAll(d, s.config)
      case None => p.(ok := false)
      case Some(messages) => Make(p, SetAllConfig(messages), patience)
  }

  function InitStack(d: Decoder, p: Progress, s: StackConfig, patience: nat): Progress {
    var configured := Configure(d, Make(p, SelectStack(s.name), patience), s, patience);
    if s.environment == [] then configured else Make(configured, AddEnvironments(s.environment), patience)
  }

  function InitStacks(d: Decoder, p: Progress, stacks: seq<StackConfig>, patience: nat): Progress {
    if stacks == [] then p
    else InitStack(d, InitStacks(d, p, stacks[..|stacks| - 1], patience), stacks[|stacks| - 1], patience)
  }

  /*** The reconcile ***/

  // The reconcile in progress: the store, the local status, and the calls made to the agent so far.
  datatype Session = Session(s: State, status: WorkspaceStatus, progress: Progress)

  // updateStatus
  function Save(x: Session, ready: Ready, ok: bool): Session {
    var status := x.status.(ready := ready, observedGeneration := x.s.generation);
    if !ok then x.(status := status)
    else
      var declared :=
        if ready.Ready? && ready.status && x.s.pod.Some?
        then x.s.declared + [Declared(x.s.generation, x.s.spec, x.s.pod.value)] else x.s.declared;
      x.(status := status, s := x.s.(status := status, declared := declared))
  }

  function Stop(x: Session, ready: ReadyReason, i: Input): State {
    Save(x, Ready(false, ready), i.saveOk).s
  }

  function Stall(x: Session, reason: ReadyReason, i: Input): State {
    Stop(x.(status := x.status.(stalled := Some(reason))), reason, i)
  }

  // The agent's log of an attempt that ends here.
  function Logged(x: Session): State {
    match x.s.pod
    case None => x.s
    case Some(pod) =>
      var attempt := Attempt(x.s.spec, x.status.version, x.progress.calls, x.progress.ok);
      x.s.(pod := Some(pod.(attempts := pod.attempts + [attempt])))
  }

  function ReconcileWorkspace(e: Surroundings, s: State, i: Input): State {
    var x := Session(s, s.status, Progress([], true));
    if s.deleted then Stop(x, Deleting, i)
    else match i.access
      case Refused => s
      case Replaced => s
      case Rolling => Stop(x, RollingUpdate, i)
      case Waiting => Stop(x, WaitingForReplicas, i)
      case NoPod => s
      case Unconnected => Stop(x, ConnectionFailed, i)
      case Connected =>
        // the pod must have been made from the present source
        if s.pod.None? || s.pod.value.revision != s.generation then s
        else if s.pod.value.initialized then Save(x, Ready(true, Succeeded), i.saveOk).s
        else CheckVersion(e, x.(status := x.status.(stalled := None)), i)
  }

  function CheckVersion(e: Surroundings, x: Session, i: Input): State
    requires x.s.pod.Some?
  {
    if i.version.None? then Stop(x, VersionUnknown, i)
    else
      var x1 := x.(status := x.status.(version := i.version.value));
      if NeedsJson(x.s.spec.stacks) && !Supports(e.parseVersion, i.version.value) then Stall(x1, Incompatible, i)
      else InstallProgram(e, x1, i)
  }

  // hasJsonConfigInWorkspace, as a function.
  predicate NeedsJson(stacks: seq<StackConfig>) {
    exists k :: 0 <= k < |stacks| && exists j :: 0 <= j < |stacks[k].config| && ItemForcesCheck(stacks[k].config[j])
  }

  function InstallProgram(e: Surroundings, x: Session, i: Input): State
    requires x.s.pod.Some?
  {
    if x.s.spec.projectInfo then InitWorkspace(e, x, i)
    else
      var x1 := Save(x, Ready(false, Installing), i.installingOk);
      if !i.installingOk then x1.s
      else
        var x2 := x1.(progress := Make(x1.progress, Install, i.patience));
        if !x2.progress.ok then Stall(x2.(s := Logged(x2)), InstallationFailed, i) else InitWorkspace(e, x2, i)
  }

  function InitWorkspace(e: Surroundings, x: Session, i: Input): State
    requires x.s.pod.Some?
  {
    var x1 := Save(x, Ready(false, Initializing), i.initializingOk);
    if !i.initializingOk then Logged(x1.(progress := x1.progress.(ok := false)))
    else
      var x2 := x1.(progress := InitStacks(e.decode, x1.progress, x1.s.spec.stacks, i.patience));
      var x3 := x2.(s := Logged(x2));
      if !x2.progress.ok then Stall(x3, InitializationFailed, i)
      else if !i.annotateOk then x3.s
      else Save(x3.(s := x3.s.(pod := Some(x3.s.pod.value.(initialized := true)))), Ready(true, Succeeded), i.saveOk).s
  }

  /*** As it runs ***/

  class WorkspaceReconciler {
    // the API server's objects
    var spec: WorkspaceSpec
    var generation: int
    var deleted: bool
    var status: WorkspaceStatus
    var pod: Option<Pod>
    // the reconcile's own: the condition list and version it has in hand
    var local: WorkspaceStatus
    var calls: seq<Call>
    // history
    ghost var declared: seq<Declared>

    ghost function Here(): State
      reads this
    {
      State(spec, generation, deleted, status, pod, declared)
    }

    method UpdateStatus(ready: Ready, ok: bool)
      modifies this`local, this`status, this`declared
      ensures local == old(local).(ready := ready, observedGeneration := generation)
      ensures status == if ok then local else old(status)
      ensures declared == if ok && ready.Ready? && ready.status && pod.Some?
                          then old(declared) + [Declared(generation, spec, pod.value)] else old(declared)
    {
      local := local.(ready := ready, observedGeneration := generation);
      if !ok { return; }
      status := local;
      if ready.Ready? && ready.status && pod.Some? {
        declared := declared + [Declared(generation, spec, pod.value)];
      }
    }

    // Calls the agent; the history of calls tells whether this one is answered.
    method CallAgent(c: Call, patience: nat) returns (ok: bool)
      modifies this`calls
      ensures Progress(calls, ok) == Make(Progress(old(calls), true), c, patience)
    {
      ok := |calls| < patience;
      calls := calls + [c];
    }

    method InitializeStack(d: Decoder, s: StackConfig, patience: nat) returns (ok: bool)
      modifies this`calls
      ensures Progress(calls, ok) == InitStack(d, Progress(old(calls), true), s, patience)
    {
      ok := CallAgent(SelectStack(s.name), patience);
      if !ok { return; }
      if s.config != [] {
        var messages: seq<Message> := [];
        for k := 0 to |s.config|
          invariant MarshalAll(d, s.config[..k]) == Some(messages)
          invariant ok && Progress(calls, ok) == Make(Progress(old(calls), true), SelectStack(s.name), patience)
        {
          var m := MarshalConfigItem(d, s.config[k]);
          assert s.config[..k + 1][..k] == s.config[..k];
          if m.Refused? {
            MarshalAllEach(d, s.config);
            assert s.config[k] in s.config && MarshalAll(d, s.config).None?;
            assert Configure(d, Progress(calls, true), s, patience) == Progress(calls, false);
            return false;
          }
          messages := messages + [m.message];
        }
        assert s.config[..|s.config|] == s.config;
        ok := CallAgent(SetAllConfig(messages), patience);
        if !ok { return; }
      }
      if s.environment != [] {
        ok := CallAgent(AddEnvironments(s.environment), patience);
      }
    }

    method InitializeStacks(d: Decoder, patience: nat) returns (ok: bool)
      modifies this`calls
      ensures Progress(calls, ok) == InitStacks(d, Progress(old(calls), true), spec.stacks, patience)
    {
      ok := true;
      var k := 0;
      while k < |spec.stacks| && ok
        invariant 0 <= k <= |spec.stacks|
        invariant Progress(calls, ok) == InitStacks(d, Progress(old(calls), true), spec.stacks[..k], patience)
      {
        ok := InitializeStack(d, spec.stacks[k], patience);
        assert spec.stacks[..k + 1][..k] == spec.stacks[..k];
        k := k + 1;
      }
      FailureStands(d, Progress(old(calls), true), spec.stacks, k, patience);
      assert spec.stacks[..|spec.stacks|] == spec.stacks;
    }

    method LogAttempt(ok: bool)
      modifies this`pod
      ensures Here() == Logged(Session(old(Here()), local, Progress(calls, ok)))
    {
      if pod.Some? {
        pod := Some(pod.value.(attempts := pod.value.attempts + [Attempt(spec, local.version, calls, ok)]));
      }
    }

    method StopWith(reason: ReadyReason, i: Input)
      modifies this`local, this`status, this`declared
      ensures Here() == Stop(Session(old(Here()), old(local), Progress(calls, true)), reason, i)
    {
      UpdateStatus(Ready(false, reason), i.saveOk);
    }

    method StallWith(reason: ReadyReason, i: Input)
      modifies this`local, this`status, this`declared
      ensures Here() == Stall(Session(old(Here()), old(local), Progress(calls, true)), reason, i)
    {
      local := local.(stalled := Some(reason));
      UpdateStatus(Ready(false, reason), i.saveOk);
    }

    /** One reconcile of the Workspace. */
    method Reconcile(e: Surroundings, i: Input)
      modifies this
      ensures Here() == ReconcileWorkspace(e, old(Here()), i)
    {
      local, calls := status, [];
      if deleted {
        StopWith(Deleting, i);
        return;
      }
      match i.access
      case Refused =>
      case Replaced =>
      case Rolling => StopWith(RollingUpdate, i);
      case Waiting => StopWith(WaitingForReplicas, i);
      case NoPod =>
      case Unconnected => StopWith(ConnectionFailed, i);
      case Connected =>
        if pod.None? || pod.value.revision != generation { return; }
        if pod.value.initialized {
          UpdateStatus(Ready(true, Succeeded), i.saveOk);
        } else {
          local := local.(stalled := None);
          Initialize(e, i);
        }
    }

    method Initialize(e: Surroundings, i: Input)
      requires pod.Some? && calls == []
      modifies this
      ensures Here() == CheckVersion(e, Session(old(Here()), old(local), Progress([], true)), i)
    {
      if i.version.None? {
        StopWith(VersionUnknown, i);
        return;
      }
      local := local.(version := i.version.value);
      var json := HasJsonConfigInWorkspace(spec.stacks);
      NeedsJsonIsForced(spec.stacks);
      if json && !Supports(e.parseVersion, i.version.value) {
        StallWith(Incompatible, i);
        return;
      }
      if !spec.projectInfo {
        UpdateStatus(Ready(false, Installing), i.installingOk);
        if !i.installingOk { return; }
        var ok := CallAgent(Install, i.patience);
        if !ok {
          LogAttempt(false);
          StallWith(InstallationFailed, i);
          return;
        }
      }
      InitializeWorkspace(e, i);
    }

    method InitializeWorkspace(e: Surroundings, i: Input)
      requires pod.Some?
      modifies this
      ensures Here() == InitWorkspace(e, Session(old(Here()), old(local), Progress(old(calls), true)), i)
    {
      UpdateStatus(Ready(false, Initializing), i.initializingOk);
      if !i.initializingOk {
        LogAttempt(false);
        return;
      }
      var ok := InitializeStacks(e.decode, i.patience);
      LogAttempt(ok);
      if !ok {
        StallWith(InitializationFailed, i);
        return;
      }
      if !i.annotateOk { return; }
      pod := Some(pod.value.(initialized := true));
      UpdateStatus(Ready(true, Succeeded), i.saveOk);
    }
  }

  // Once a call has failed nothing more is done.
  lemma {:induction false} FailureStands(d: Decoder, p: Progress, stacks: seq<StackConfig>, k: nat, patience: nat)
    requires k <= |stacks|
    ensures !InitStacks(d, p, stacks[..k], patience).ok ==>
              InitStacks(d, p, stacks, patience) == InitStacks(d, p, stacks[..k], patience)
    decreases |stacks|
  {
    if k < |stacks| {
      var init := stacks[..|stacks| - 1];
      FailureStands(d, p, init, k, patience);
      assert init[..k] == stacks[..k];
    } else {
      assert stacks[..k] == stacks;
    }
  }

  lemma NeedsJsonIsForced(stacks: seq<StackConfig>)
    ensures NeedsJson(stacks) <==> ForcesCheck(stacks)
  {}
}
