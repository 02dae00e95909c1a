/** The phases of Update reconciles, as steps of the cluster. */
module UpdateSteps {
  import opened Prelude
  import opened StackModel
  import opened UpdateStream
  import opened UpdateController
  import opened ClusterState

  // Deleting an object that has a finalizer only marks it, which bumps its generation.
  function MarkUpdateDeleted(w: Cluster, n: UpdateName): Cluster {
    if n !in w.updates then w
    else
      var u := w.updates[n];
      if !u.finalizer then w.(updates := w.updates - {n})
      else if u.deleted then w
      else w.(updates := w.updates[n := u.(deleted := true, generation := u.generation + 1)])
  }

  function Ended(e: Execution, st: UpdateStatus): Execution {
    if st.complete == Yes then e.(end := Some(st)) else e
  }

  function Written(w: Cluster, n: UpdateName, generation: int, st: UpdateStatus, ok: bool): Cluster {
    if ok && n in w.updates && n in w.executions
    then w.(updates := w.updates[n := WriteStatus(w.updates[n], generation, st)],
            executions := w.executions[n := Ended(w.executions[n], st)])
    else w
  }

  // Reconciles of one Update are serial: none begins while another is under way.
  function BeginUpdate(w: Cluster, n: UpdateName, ttlExpired: bool, deleteOk: bool, writeOk: bool): Cluster {
    if n !in w.updates || n in w.running then w
    else
      var u := w.updates[n];
      match Begin(u, ttlExpired)
      case BeginIdle => w
      case BeginExpire => if deleteOk then MarkUpdateDeleted(w, n) else w
      case BeginStop(st) => Written(w, n, u.generation, st, writeOk)
      case BeginStart(st) =>
        if !writeOk then w
        else Written(w, n, u.generation, st, true).(running := w.running[n := Starting(u.generation, st)])
  }

  function DialUpdate(w: Cluster, n: UpdateName, d: Dialled, writeOk: bool): Cluster {
    if n !in w.running || !w.running[n].Starting? || n !in w.executions then w
    else
      var r, e := w.running[n], w.executions[n];
      match Dial(r, w.workspace, d)
      case DialAgain(st) => Written(w, n, r.generation, st, writeOk).(running := w.running - {n})
      case DialGiveUp => w.(running := w.running - {n})
      case DialStream(script) =>
        w.(running := w.running[n := Streaming(r.generation, r.status, script)],
           executions := w.executions[n := e.(streams := e.streams + [script])])
  }

  function FinishUpdate(w: Cluster, n: UpdateName, secretCreated: bool, writeOk: bool): Cluster {
    if n !in w.running || !w.running[n].Streaming? || n !in w.executions then w
    else
      var r := w.running[n];
      var st := Finish(r, w.executions[n].typ, secretCreated);
      if st.None? then w.(running := w.running - {n})
      else Written(w, n, r.generation, st.value, writeOk).(running := w.running - {n})
  }

  /*** What may happen to an Update while the Stack's reconcile is at work on it ***/

  datatype UpdateStep =
    | BeginStep(writeOk: bool)
    | DialStep(d: Dialled, writeOk: bool)
    | FinishStep(secretCreated: bool, writeOk: bool)

  function StepUpdate(w: Cluster, n: UpdateName, step: UpdateStep): Cluster {
    match step
    case BeginStep(writeOk) => BeginUpdate(w, n, false, false, writeOk)
    case DialStep(d, writeOk) => DialUpdate(w, n, d, writeOk)
    case FinishStep(secretCreated, writeOk) => FinishUpdate(w, n, secretCreated, writeOk)
  }

  function Meanwhile(w: Cluster, n: UpdateName, steps: seq<UpdateStep>): Cluster {
    if steps == [] then w else StepUpdate(Meanwhile(w, n, steps[..|steps| - 1]), n, steps[|steps| - 1])
  }

  // An operation was started for the Update, or is about to be.
  predicate Begun(w: Cluster, n: UpdateName) {
    n in w.running || (n in w.executions && w.executions[n].streams != [])
  }
}
