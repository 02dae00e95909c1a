/** Update reconciles keep the invariants, and leave everything but Updates alone. */
module UpdateProofs {
  import opened Prelude
  import opened StackModel
  import opened UpdateStream
  import opened UpdateController
  import opened ClusterState
  import opened UpdateSteps
  import opened Invariants

  predicate SameButNewer(u: Update, u': Update) {
    && u'.typ == u.typ && u'.status == u.status
    && u'.observedGeneration == u.observedGeneration && u'.generation >= u.generation
  }

  // Updates may go away, or change in what the invariants do not speak about.
  lemma FewerUpdatesKeepInv(w: Cluster, updates: map<UpdateName, Update>)
    requires Inv(w)
    requires forall n :: n in updates ==> n in w.updates && SameButNewer(w.updates[n], updates[n])
    ensures Inv(w.(updates := updates))
  {
    var w' := w.(updates := updates);
    forall n ensures NameInv(w', n) { assert NameInv(w, n) && (IsCurrent(w', n) <==> IsCurrent(w, n)); }
    forall a | a in w.absorbed ensures AbsorptionInv(w', a) { assert AbsorptionInv(w, a); }
  }

  lemma WrittenKeepsInv(w: Cluster, n: UpdateName, generation: int, st: UpdateStatus, ok: bool,
                        running: map<UpdateName, Running>)
    requires Inv(w) && n in w.executions
    requires n in w.updates ==>
             && w.updates[n].status.complete != Yes
             && UpdateInv(WriteStatus(w.updates[n], generation, st), Ended(w.executions[n], st))
    requires n in running ==> n in w.updates && ok && InFlight(st) && RunningInv(running[n], w.executions[n])
    requires n in running ==> running[n].generation <= w.updates[n].generation
    requires forall m :: m != n ==> (m in running <==> m in w.running)
    requires forall m :: m != n && m in running ==> running[m] == w.running[m]
    requires n in w.running || n in w.updates
    ensures Inv(Written(w, n, generation, st, ok).(running := running))
  {
    var w' := Written(w, n, generation, st, ok).(running := running);
    forall m ensures NameInv(w', m) {
      assert NameInv(w, m);
    }
    forall a | a in w.absorbed ensures AbsorptionInv(w', a) {
      assert AbsorptionInv(w, a) && NameInv(w, n);
    }
  }

  lemma StopKeepsInv(w: Cluster, n: UpdateName, st: UpdateStatus, writeOk: bool)
    requires Inv(w) && n in w.updates && n !in w.running && w.updates[n].status.complete != Yes && DoneFailed(st)
    ensures Inv(Written(w, n, w.updates[n].generation, st, writeOk))
  {
    var u := w.updates[n];
    assert NameInv(w, n);
    WrittenKeepsInv(w, n, u.generation, st, writeOk, w.running);
    assert Written(w, n, u.generation, st, writeOk).(running := w.running) == Written(w, n, u.generation, st, writeOk);
  }

  lemma BeginKeepsInv(w: Cluster, n: UpdateName, ttlExpired: bool, deleteOk: bool, writeOk: bool)
    requires Inv(w)
    ensures Inv(BeginUpdate(w, n, ttlExpired, deleteOk, writeOk))
  {
    assert NameInv(w, n);
    if n in w.updates && n !in w.running {
      var u := w.updates[n];
      match Begin(u, ttlExpired) {
        case BeginIdle =>
        case BeginExpire => MarkDeletedKeepsInv(w, n);
        case BeginStop(st) => StopKeepsInv(w, n, st, writeOk);
        case BeginStart(st) =>
          if writeOk { WrittenKeepsInv(w, n, u.generation, st, true, w.running[n := Starting(u.generation, st)]); }
      }
    }
  }

  lemma MarkDeletedKeepsInv(w: Cluster, n: UpdateName)
    requires Inv(w)
    ensures Inv(MarkUpdateDeleted(w, n))
  {
    var w' := MarkUpdateDeleted(w, n);
    FewerUpdatesKeepInv(w, w'.updates);
    assert w' == w.(updates := w'.updates);
  }

  lemma DialKeepsInv(w: Cluster, n: UpdateName, d: Dialled, writeOk: bool)
    requires Inv(w)
    ensures Inv(DialUpdate(w, n, d, writeOk))
  {
    assert NameInv(w, n);
    if n in w.running && w.running[n].Starting? {
      var r := w.running[n];
      match Dial(r, w.workspace, d) {
        case DialAgain(st) => WrittenKeepsInv(w, n, r.generation, st, writeOk, w.running - {n});
        case DialGiveUp =>
          WrittenKeepsInv(w, n, r.generation, MarkRetryable(r.status), false, w.running - {n});
        case DialStream(script) => StreamKeepsInv(w, n, script);
      }
    }
  }

  lemma StreamKeepsInv(w: Cluster, n: UpdateName, script: Script)
    requires Inv(w) && n in w.running && w.running[n].Starting? && n in w.executions
    ensures Inv(w.(running := w.running[n := Streaming(w.running[n].generation, w.running[n].status, script)],
                   executions := w.executions[n := w.executions[n].(streams := w.executions[n].streams + [script])]))
  {
    var r, e := w.running[n], w.executions[n];
    var w' := w.(running := w.running[n := Streaming(r.generation, r.status, script)],
                 executions := w.executions[n := e.(streams := e.streams + [script])]);
    assert NameInv(w, n);
    forall m ensures NameInv(w', m) { assert NameInv(w, m); }
    forall a | a in w.absorbed ensures AbsorptionInv(w', a) { assert AbsorptionInv(w, a); }
  }

  lemma FinishKeepsInv(w: Cluster, n: UpdateName, secretCreated: bool, writeOk: bool)
    requires Inv(w)
    ensures Inv(FinishUpdate(w, n, secretCreated, writeOk))
  {
    assert NameInv(w, n);
    if n in w.running && w.running[n].Streaming? {
      var r := w.running[n];
      VerdictIsExact(r.status, r.script);
      var st := Finish(r, w.executions[n].typ, secretCreated);
      var written := if st.Some? then st.value else r.status;
      WrittenKeepsInv(w, n, r.generation, written, st.Some? && writeOk, w.running - {n});
    }
  }

  /*** What they leave alone ***/

  predicate CompleteKept(w: Cluster, w': Cluster, n: UpdateName) {
    n in w.updates && w.updates[n].status.complete == Yes && n in w'.updates ==>
        w'.updates[n].status == w.updates[n].status
  }

  // An event on Updates leaves the Stack alone, and an Update that is complete or has its finalizer too.
  ghost predicate UpdatesOnly(w: Cluster, w': Cluster) {
    && w'.stack == w.stack && w'.absorbed == w.absorbed && w'.created == w.created && w'.faults == w.faults
    && (forall n :: n in w'.updates ==> n in w.updates && w'.updates[n].typ == w.updates[n].typ)
    && w.executions.Keys <= w'.executions.Keys
    && (forall n :: CompleteKept(w, w', n))
    && (forall n :: n in w.updates && w.updates[n].finalizer ==> n in w'.updates && w'.updates[n].finalizer)
  }

  lemma WrittenTouchesUpdatesOnly(w: Cluster, n: UpdateName, generation: int, st: UpdateStatus, ok: bool,
                                  running: map<UpdateName, Running>)
    requires n in w.updates ==> w.updates[n].status.complete != Yes
    ensures UpdatesOnly(w, Written(w, n, generation, st, ok).(running := running))
  {}

  lemma MarkDeletedTouchesUpdatesOnly(w: Cluster, n: UpdateName)
    ensures UpdatesOnly(w, MarkUpdateDeleted(w, n))
  {}

  lemma BeginTouchesUpdatesOnly(w: Cluster, n: UpdateName, ttlExpired: bool, deleteOk: bool, writeOk: bool)
    requires Inv(w)
    ensures UpdatesOnly(w, BeginUpdate(w, n, ttlExpired, deleteOk, writeOk))
  {
    if n in w.updates && n !in w.running {
      var u := w.updates[n];
      match Begin(u, ttlExpired)
      case BeginIdle =>
      case BeginExpire => MarkDeletedTouchesUpdatesOnly(w, n);
      case BeginStop(st) => WrittenTouchesUpdatesOnly(w, n, u.generation, st, writeOk, w.running);
      case BeginStart(st) =>
        var running := w.running[n := Starting(u.generation, st)];
        WrittenTouchesUpdatesOnly(w, n, u.generation, st, true, running);
    }
  }

  lemma DialTouchesUpdatesOnly(w: Cluster, n: UpdateName, d: Dialled, writeOk: bool)
    requires Inv(w)
    ensures UpdatesOnly(w, DialUpdate(w, n, d, writeOk))
  {
    assert NameInv(w, n);
    if n in w.running && w.running[n].Starting? && Dial(w.running[n], w.workspace, d).DialAgain? {
      var again := Dial(w.running[n], w.workspace, d).status;
      WrittenTouchesUpdatesOnly(w, n, w.running[n].generation, again, writeOk, w.running - {n});
    }
  }

  lemma FinishTouchesUpdatesOnly(w: Cluster, n: UpdateName, secretCreated: bool, writeOk: bool)
    requires Inv(w)
    ensures UpdatesOnly(w, FinishUpdate(w, n, secretCreated, writeOk))
  {
    assert NameInv(w, n);
    if n in w.running && w.running[n].Streaming? {
      var st := Finish(w.running[n], w.executions[n].typ, secretCreated);
      if st.Some? { WrittenTouchesUpdatesOnly(w, n, w.running[n].generation, st.value, writeOk, w.running - {n}); }
    }
  }

  /*** Steps on one Update ***/

  predicate SameAt(w: Cluster, w': Cluster, m: UpdateName) {
    && (m in w'.updates <==> m in w.updates) && (m in w.updates ==> w'.updates[m] == w.updates[m])
    && (m in w'.running <==> m in w.running) && (m in w.running ==> w'.running[m] == w.running[m])
    && (m in w'.executions <==> m in w.executions) && (m in w.executions ==> w'.executions[m] == w.executions[m])
  }

  // Of n itself, only the status and the history change.
  predicate SameObject(w: Cluster, w': Cluster, n: UpdateName) {
    && (n in w'.updates <==> n in w.updates)
    && (n in w.updates ==>
          && w'.updates[n] == w.updates[n].(status := w'.updates[n].status,
               observedGeneration := w'.updates[n].observedGeneration))
    && (n in w'.executions <==> n in w.executions)
    && (n in w.executions ==>
         w'.executions[n].origin == w.executions[n].origin && w'.executions[n].typ == w.executions[n].typ)
  }

  ghost predicate TouchesOnly(w: Cluster, w': Cluster, n: UpdateName) {
    && w' == w.(updates := w'.updates, running := w'.running, executions := w'.executions)
    && SameObject(w, w', n)
    && (forall m :: m != n ==> SameAt(w, w', m))
  }

  lemma StepTouchesOnly(w: Cluster, n: UpdateName, step: UpdateStep)
    ensures TouchesOnly(w, StepUpdate(w, n, step), n)
  {
    match step
    case BeginStep(writeOk) => BeginTouchesOnly(w, n, writeOk);
    case DialStep(d, writeOk) => DialTouchesOnly(w, n, d, writeOk);
    case FinishStep(secretCreated, writeOk) => FinishTouchesOnly(w, n, secretCreated, writeOk);
  }

  lemma BeginTouchesOnly(w: Cluster, n: UpdateName, writeOk: bool)
    ensures TouchesOnly(w, BeginUpdate(w, n, false, false, writeOk), n)
  {}

  lemma DialTouchesOnly(w: Cluster, n: UpdateName, d: Dialled, writeOk: bool)
    ensures TouchesOnly(w, DialUpdate(w, n, d, writeOk), n)
  {}

  lemma FinishTouchesOnly(w: Cluster, n: UpdateName, secretCreated: bool, writeOk: bool)
    ensures TouchesOnly(w, FinishUpdate(w, n, secretCreated, writeOk), n)
  {}

  lemma StepKeepsInv(w: Cluster, n: UpdateName, step: UpdateStep)
    requires Inv(w)
    ensures Inv(StepUpdate(w, n, step))
  {
    match step
    case BeginStep(writeOk) => BeginKeepsInv(w, n, false, false, writeOk);
    case DialStep(d, writeOk) => DialKeepsInv(w, n, d, writeOk);
    case FinishStep(secretCreated, writeOk) => FinishKeepsInv(w, n, secretCreated, writeOk);
  }

  lemma TouchesOnlyThen(w: Cluster, m: Cluster, w': Cluster, n: UpdateName)
    requires TouchesOnly(w, m, n) && TouchesOnly(m, w', n)
    ensures TouchesOnly(w, w', n)
  {
    forall k | k != n ensures SameAt(w, w', k) { assert SameAt(w, m, k) && SameAt(m, w', k); }
  }

  lemma {:induction false} MeanwhileTouchesOnly(w: Cluster, n: UpdateName, steps: seq<UpdateStep>)
    ensures TouchesOnly(w, Meanwhile(w, n, steps), n)
  {
    if steps != [] {
      var init, last := steps[..|steps| - 1], steps[|steps| - 1];
      MeanwhileTouchesOnly(w, n, init);
      StepTouchesOnly(Meanwhile(w, n, init), n, last);
      TouchesOnlyThen(w, Meanwhile(w, n, init), Meanwhile(w, n, steps), n);
    }
  }

  lemma {:induction false} MeanwhileKeepsInv(w: Cluster, n: UpdateName, steps: seq<UpdateStep>)
    requires Inv(w)
    ensures Inv(Meanwhile(w, n, steps))
  {
    if steps != [] {
      MeanwhileKeepsInv(w, n, steps[..|steps| - 1]);
      StepKeepsInv(Meanwhile(w, n, steps[..|steps| - 1]), n, steps[|steps| - 1]);
    }
  }
}
