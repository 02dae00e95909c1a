/**
 What each phase of an Update reconcile does to the stored Update, in terms of what was stored, of the
 workspace, and of what the agent and the stream said.
 */
module UpdateOutcomes {
  import opened Prelude
  import opened StackModel
  import opened UpdateStream
  import opened UpdateController
  import opened ClusterState
  import opened UpdateSteps
  import opened Invariants
  import opened UpdateProofs

  /*** Begin ***/

  // The Update may start: it never did, or is to try again, and nobody wants it gone.
  predicate MayStart(u: Update) {
    u.status.complete != Yes && u.status.progressing != Yes && !u.deleted && !u.orphaned
  }

  // The status of an Update that is in flight, or waits to be started again.
  function AtWork(before: UpdateStatus, progressing: Tri): UpdateStatus {
    before.(progressing := progressing, failed := No, complete := No, failedReason := "Progressing")
  }

  // The stored status says that the Update has failed for that reason.
  predicate FailedFor(u: Update, before: Update, reason: string) {
    && u.status == before.status.(progressing := No, failed := Yes, complete := Yes, failedReason := reason)
    && u.observedGeneration == before.generation
  }

  // A complete Update that has outlived its TTL is deleted, which a finalizer may delay.
  predicate Expires(w: Cluster, w': Cluster, n: UpdateName)
    requires n in w.updates
  {
    if w.updates[n].finalizer
    then n in w'.updates && w'.updates[n] == w.updates[n].(deleted := true, generation := w.updates[n].generation + 1)
    else n !in w'.updates
  }

  /**
   An Update starts exactly if it may and the status that says so has been stored: never a second time
   unless it is to be retried, never when it is deleted or orphaned.  One found in flight is failed as
   aborted, one deleted or orphaned as canceled; a complete one is left alone but for its expiry.
   */
  lemma StartsExactly(w: Cluster, n: UpdateName, ttlExpired: bool, deleteOk: bool, writeOk: bool)
    requires n in w.updates && n in w.executions && n !in w.running
    ensures var u, w' := w.updates[n], BeginUpdate(w, n, ttlExpired, deleteOk, writeOk);
            && (n in w'.running <==> writeOk && MayStart(u))
            && (n in w'.running ==>
                  && n in w'.updates && w'.updates[n].observedGeneration == u.generation
                  && w'.updates[n].status == AtWork(u.status, Yes)
                  && w'.running[n] == Starting(u.generation, w'.updates[n].status))
            && (u.status.complete == Yes ==>
                  if ttlExpired && deleteOk && !u.deleted then Expires(w, w', n) else w' == w)
            && (u.status.complete != Yes && !writeOk ==> w' == w)
            && (u.status.complete != Yes && writeOk && !MayStart(u) ==>
                  && n in w'.updates
                  && FailedFor(w'.updates[n], u, if u.status.progressing == Yes then "Aborted" else "Canceled"))
  {}

  /*** Dial ***/

  // The workspace could be read, but there is no use of it: it is not there or not ready, the connection
  // failed, or it turned out to be unreachable when the operation was to be opened.
  predicate Unreachable(w: Cluster, d: Dialled) {
    var ws := w.workspace;
    && d != GetWorkspaceFailed
    && (|| ws.None? || ws.value.deleted || !ws.value.ready || ws.value.generation != ws.value.observedGeneration
        || d == ConnectFailed || d == OpenUnavailable)
  }

  /**
   An Update that has begun is put back, to be started again, exactly if its workspace is unreachable and the
   write is accepted; its operation is opened exactly if the workspace is ready and the agent opens it; and
   in any other case the stored status is left in flight.
   */
  lemma RetriesExactly(w: Cluster, n: UpdateName, d: Dialled, writeOk: bool)
    requires n in w.updates && n in w.executions && n in w.running && w.running[n].Starting?
    requires InFlight(w.updates[n].status) && InFlight(w.running[n].status)
    ensures var w', r := DialUpdate(w, n, d, writeOk), w.running[n];
            && n in w'.updates && n in w'.executions
            && (Retryable(w'.updates[n].status) <==> Unreachable(w, d) && writeOk)
            && (w'.updates[n] == if Unreachable(w, d) && writeOk
                                 then w.updates[n].(observedGeneration := r.generation, status := AtWork(r.status, No))
                                 else w.updates[n])
            && (if d.Opened? && !Unreachable(w, d)
                then n in w'.running && w'.running[n] == Streaming(r.generation, r.status, d.script)
                     && w'.executions[n].streams == w.executions[n].streams + [d.script]
                else n !in w'.running && w'.executions[n].streams == w.executions[n].streams)
  {}

  /**
   So a workspace that cannot be reached costs an Update nothing: the next reconcile starts it again, unless it
   is deleted or orphaned.  After any other answer but the stream, it fails the Update as aborted.
   */
  lemma UnreachableIsHarmless(w: Cluster, n: UpdateName, d: Dialled, ttlExpired: bool, deleteOk: bool)
    requires n in w.updates && n in w.executions && n in w.running && w.running[n].Starting?
    requires InFlight(w.updates[n].status) && InFlight(w.running[n].status)
    requires !w.updates[n].deleted && !w.updates[n].orphaned && !(d.Opened? && !Unreachable(w, d))
    ensures var w' := BeginUpdate(DialUpdate(w, n, d, true), n, ttlExpired, deleteOk, true);
            && n in w'.updates
            && (Unreachable(w, d) ==> n in w'.running && InFlight(w'.updates[n].status))
            && (!Unreachable(w, d) ==> n !in w'.running && FailedFor(w'.updates[n], w.updates[n], "Aborted"))
  {
    RetriesExactly(w, n, d, true);
    StartsExactly(DialUpdate(w, n, d, true), n, ttlExpired, deleteOk, true);
  }

  /*** Finish ***/

  // The stored status after a result: the verdict, and what the result tells of the operation.
  predicate TellsResult(st: UpdateStatus, before: UpdateStatus, res: OpResult, typ: UpdateType) {
    && st.progressing == No && st.complete == Yes
    && (st.failed == No <==> IsSuccess(res)) && (st.failed == Yes <==> !IsSuccess(res))
    && st.failedReason == (if IsSuccess(res) then "UpdateSucceeded" else "UpdateFailed")
    && st.message == (if res.summary.Some? then res.summary.value.message else "")
    && st.permalink == (if res.permalink != "" then res.permalink else before.permalink)
    && st.projectInfo == (if res.projectInfo.Some? then res.projectInfo else before.projectInfo)
    && st.outputs == (before.outputs || (typ == UpType && res.hasOutputs))
  }

  // After an error: the structured error tells, if there is one, else the error itself.
  predicate TellsError(st: UpdateStatus, before: UpdateStatus, message: string, details: seq<Detail>) {
    && DoneFailed(st)
    && st.permalink == before.permalink && st.projectInfo == before.projectInfo && st.outputs == before.outputs
    && if details != [] && details[0].PulumiErrorInfo?
       then st.message == details[0].message && st.failedReason == details[0].reason
       else st.message == message && st.failedReason == "Unknown"
  }

  // The stream came to its end, or was closed, before anything decided.
  ghost predicate Undecided(script: Script) {
    exists k :: 0 <= k <= |script| && (k < |script| ==> script[k] == Eof) && AllEvents(script, k)
  }

  lemma {:induction false} UndecidedEnds(script: Script)
    requires Undecided(script)
    ensures Decisive(script) == Eof
  {
    var k :| 0 <= k <= |script| && (k < |script| ==> script[k] == Eof) && AllEvents(script, k);
    if k > 0 {
      assert script[0] == Event;
      forall j | 0 <= j < k - 1 ensures script[1..][j] == Event { assert script[1..][j] == script[j + 1]; }
      assert AllEvents(script[1..], k - 1);
      UndecidedEnds(script[1..]);
    }
  }

  // What is stored when the stream of n has come to its end.
  predicate StoredStatus(w: Cluster, w': Cluster, n: UpdateName, writeOk: bool) {
    && n in w'.updates && n in w.updates && n in w.running
    && n !in w'.running
    && (if writeOk then w'.updates[n].observedGeneration == w.running[n].generation else w'.updates[n] == w.updates[n])
  }

  /**
   A result, with nothing but events before it, is stored as it is: the verdict, message, permalink and
   project info, and that an up has outputs; but nothing is, if these could not be put into their Secret.
   */
  lemma ResultIsStored(w: Cluster, n: UpdateName, secretCreated: bool, writeOk: bool, k: nat)
    requires n in w.updates && n in w.executions && n in w.running && w.running[n].Streaming?
    requires var script := w.running[n].script; k < |script| && script[k].Result? && AllEvents(script, k)
    ensures var w', res := FinishUpdate(w, n, secretCreated, writeOk), w.running[n].script[k].res;
            var typ := w.executions[n].typ;
            var kept := typ == UpType && res.hasOutputs ==> secretCreated;
            && StoredStatus(w, w', n, kept && writeOk)
            && (kept && writeOk ==> TellsResult(w'.updates[n].status, w.running[n].status, res, typ))
  {
    FirstNonEventDecides(w.running[n].script, k);
  }

  /** An error that is a gRPC status fails the Update, with the structured error if there is one. */
  lemma ErrorIsStored(w: Cluster, n: UpdateName, secretCreated: bool, writeOk: bool, k: nat)
    requires n in w.updates && n in w.executions && n in w.running && w.running[n].Streaming?
    requires var script := w.running[n].script; k < |script| && script[k].StatusError? && AllEvents(script, k)
    ensures var w', error := FinishUpdate(w, n, secretCreated, writeOk), w.running[n].script[k];
            && StoredStatus(w, w', n, writeOk)
            && (writeOk ==> TellsError(w'.updates[n].status, w.running[n].status, error.message, error.details))
  {
    FirstNonEventDecides(w.running[n].script, k);
  }

  /** Any other error completes the Update and leaves Failed as it was, so that it reads as a success. */
  lemma ForeignErrorIsStored(w: Cluster, n: UpdateName, secretCreated: bool, writeOk: bool, k: nat)
    requires n in w.updates && n in w.executions && n in w.running && w.running[n].Streaming?
    requires var script := w.running[n].script; k < |script| && script[k].ForeignError? && AllEvents(script, k)
    ensures var w', before := FinishUpdate(w, n, secretCreated, writeOk), w.running[n].status;
            var after := before.(progressing := No, complete := Yes, message := "An unknown error occurred");
            StoredStatus(w, w', n, writeOk) && (writeOk ==> w'.updates[n].status == after)
  {
    FirstNonEventDecides(w.running[n].script, k);
  }

  /** A stream that ends undecided leaves the Update in flight, so that the next reconcile fails it as aborted. */
  lemma UndecidedIsAborted(w: Cluster, n: UpdateName, secretCreated: bool, ttlExpired: bool, deleteOk: bool)
    requires n in w.updates && n in w.executions && n in w.running && w.running[n].Streaming?
    requires InFlight(w.running[n].status) && Undecided(w.running[n].script)
    ensures var w1 := FinishUpdate(w, n, secretCreated, true);
            var w2 := BeginUpdate(w1, n, ttlExpired, deleteOk, true);
            && StoredStatus(w, w1, n, true) && w1.updates[n].status == w.running[n].status
            && n in w2.updates && FailedFor(w2.updates[n], w1.updates[n], "Aborted")
  {
    UndecidedEnds(w.running[n].script);
    StartsExactly(FinishUpdate(w, n, secretCreated, true), n, ttlExpired, deleteOk, true);
  }
}
