/**
 One Stack with its Workspace and its Updates, as the API server and the operator's memory hold
 them, together with the history that the theorems speak about.
 */
module ClusterState {
  import opened Prelude
  import opened StackModel
  import opened UpdateStream
  import opened UpdateController

  // A completed Update as the Stack reconciler absorbed it.
  datatype Absorption = Absorption(
    current: CurrentUpdate, typ: UpdateType, failed: bool, message: string, permalink: string, time: int)

  // What really happened to an Update object: why it was created, every operation stream opened for it,
  // and the status with which it was stored as complete.
  datatype Execution = Execution(origin: CurrentUpdate, typ: UpdateType, streams: seq<Script>,
                                 end: Option<UpdateStatus>)

  datatype Cluster = Cluster(
    stack: Stack, workspace: Option<Workspace>, updates: map<UpdateName, Update>, nextName: UpdateName,
    running: map<UpdateName, Running>,
    // history
    absorbed: seq<Absorption>, executions: map<UpdateName, Execution>,
    created: nat,    // Update objects created
    faults: nat,     // Update objects created whose finalizer could not be added
    // of these, those left behind: CurrentUpdate was cleared, but the object stayed or had begun
    leaked: set<UpdateName>
  )

  function Initial(spec: StackSpec): Cluster {
    Cluster(Stack(spec, 1, Manual(""), false, false, EMPTY_STATUS), None, map[], 0, map[], [], map[], 0, 0, {})
  }

  // markStackFailed and markStackSucceeded on LastUpdate.
  function Absorb(last: Option<LastUpdate>, a: Absorption): LastUpdate {
    var c := a.current;
    if a.failed then
      LastUpdate(c.generation, c.request, c.name, a.typ, FailedState, a.message,
                 c.commit, if last.Some? then last.value.lastSuccessfulCommit else "", a.permalink, a.time,
                 if last.Some? && last.value.generation == c.generation && last.value.request == c.request
                 then last.value.failures + 1 else 0)
    else
      LastUpdate(c.generation, c.request, c.name, a.typ, SucceededState, "", c.commit, c.commit, a.permalink, a.time, 0)
  }

  // The LastUpdate that a history of absorptions amounts to.
  function Fold(absorbed: seq<Absorption>): Option<LastUpdate> {
    if absorbed == [] then None
    else Some(Absorb(Fold(absorbed[..|absorbed| - 1]), absorbed[|absorbed| - 1]))
  }

  // The names of the absorbed Updates.
  function AbsorbedNames(absorbed: seq<Absorption>): set<UpdateName> {
    set a | a in absorbed :: a.current.name
  }

  // removeUpdateFinalizer: an Update that was only waiting for it goes away.
  function Release(w: Cluster, n: UpdateName): Cluster {
    if n !in w.updates then w
    else if w.updates[n].deleted then w.(updates := w.updates - {n})
    else w.(updates := w.updates[n := w.updates[n].(finalizer := false)])
  }
}
