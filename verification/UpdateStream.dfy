/**
 The stream reader of the Update reconciler (update_controller.go): how the messages of a Pulumi
 operation become the three conditions of an Update.
 */
module UpdateStream {
  import opened Prelude
  import opened StackModel

  // The status of a condition; Unknown when the condition was never stored.
  datatype Tri = Unknown | Yes | No

  datatype UpdateStatus = UpdateStatus(
    progressing: Tri, failed: Tri, complete: Tri, failedReason: string,
    message: string, permalink: string, projectInfo: Option<ProjectInfo>, outputs: bool)

  const FRESH := UpdateStatus(Unknown, Unknown, Unknown, "", "", "", None, false)

  datatype Summary = Summary(result: string, message: string)

  datatype OpResult = OpResult(summary: Option<Summary>, permalink: string, projectInfo: Option<ProjectInfo>,
                               hasOutputs: bool)

  datatype Detail = PulumiErrorInfo(reason: string, message: string) | OtherDetail

  // What one Recv call yields: a message without or with a result, the end of the stream,
  // a gRPC status error, or an error that is no gRPC status.
  datatype Recv =
    | Event
    | Result(res: OpResult)
    | Eof
    | StatusError(message: string, details: seq<Detail>)
    | ForeignError

  // A stream as the operator sees it; reading past its end yields Eof.
  type Script = seq<Recv>

  function At(script: Script, i: nat): Recv {
    if i < |script| then script[i] else Eof
  }

  // The first item that is not a mere event: the one that decides.
  function Decisive(script: Script): Recv {
    if script == [] then Eof else if script[0] == Event then Decisive(script[1..]) else script[0]
  }

  predicate Succeeded(res: OpResult) {
    res.summary.None? || res.summary.value.result == "succeeded"
  }

  function ApplyResult(st: UpdateStatus, res: OpResult): UpdateStatus {
    st.(permalink := if res.permalink != "" then res.permalink else st.permalink,
        projectInfo := if res.projectInfo.Some? then res.projectInfo else st.projectInfo,
        progressing := No, complete := Yes,
        message := if res.summary.Some? then res.summary.value.message else "",
        failed := if Succeeded(res) then No else Yes,
        failedReason := if Succeeded(res) then "UpdateSucceeded" else "UpdateFailed")
  }

  function ApplyStatusError(st: UpdateStatus, message: string, details: seq<Detail>): UpdateStatus {
    var structured := details != [] && details[0].PulumiErrorInfo?;
    st.(progressing := No, complete := Yes, failed := Yes,
        message := if structured then details[0].message else message,
        failedReason := if structured then details[0].reason else "Unknown")
  }

  function Apply(st: UpdateStatus, r: Recv): UpdateStatus {
    match r
    case Event => st
    case Eof => st
    case Result(res) => ApplyResult(st, res)
    case StatusError(message, details) => ApplyStatusError(st, message, details)
    case ForeignError => st.(progressing := No, complete := Yes, message := "An unknown error occurred")
  }

  /** The session's conditions and the status block of its Update, rewritten field by field. */
  class StreamReader {
    const script: Script
    var position: nat
    var progressing: Tri
    var failed: Tri
    var complete: Tri
    var failedReason: string
    var message: string
    var permalink: string
    var projectInfo: Option<ProjectInfo>
    var outputs: bool

    function Block(): UpdateStatus
      reads this
    {
      UpdateStatus(progressing, failed, complete, failedReason, message, permalink, projectInfo, outputs)
    }

    constructor(script: Script, st: UpdateStatus)
      ensures this.script == script && position == 0 && Block() == st
    {
      this.script, position := script, 0;
      progressing, failed, complete := st.progressing, st.failed, st.complete;
      failedReason, message, permalink := st.failedReason, st.message, st.permalink;
      projectInfo, outputs := st.projectInfo, st.outputs;
    }

    method Recv() returns (r: Recv)
      modifies this`position
      ensures r == At(script, old(position)) && position == old(position) + 1
    {
      r := At(script, position);
      position := position + 1;
    }

    // setStatusBlockFromGRPCErr
    method SetStatusBlockFromGRPCErr(err: Recv)
      requires err.StatusError? || err.ForeignError?
      modifies this
      ensures Block() == Apply(old(Block()), err) && position == old(position)
    {
      message := "An unknown error occurred";
      progressing := No;
      complete := Yes;
      if err.ForeignError? { return; }
      message := err.message;
      failed := Yes;
      failedReason := "Unknown";
      if |err.details| == 0 { return; }
      match err.details[0]
      case PulumiErrorInfo(reason, text) =>
        message := text;
        failed := Yes;
        failedReason := reason;
      case OtherDetail =>
    }

    /** Reads until something decides, and leaves exactly what the first decisive item implies. */
    method ReadResult() returns (decided: Recv)
      requires position == 0
      modifies this
      ensures decided == Decisive(script)
      ensures Block() == Apply(old(Block()), Decisive(script))
    {
      assert script[0..] == script;
      while true
        invariant 0 <= position <= |script|
        invariant Decisive(script[position..]) == Decisive(script)
        invariant Block() == old(Block())
        decreases |script| - position
      {
        ghost var here := position;
        var r := Recv();
        if here < |script| {
          assert script[here..][0] == script[here] && script[here..][1..] == script[here + 1..];
        }
        if r.Eof? { return r; }
        if r.StatusError? || r.ForeignError? {
          SetStatusBlockFromGRPCErr(r);
          return r;
        }
        if r.Event? { continue; }
        var res := r.res;
        if res.permalink != "" { permalink := res.permalink; }
        if res.projectInfo.Some? { projectInfo := res.projectInfo; }
        progressing := No;
        complete := Yes;
        if res.summary.Some? {
          message := res.summary.value.message;
          if res.summary.value.result == "succeeded" {
            failed := No;
            failedReason := "UpdateSucceeded";
          } else {
            failed := Yes;
            failedReason := "UpdateFailed";
          }
        } else {
          message := "";
          failed := No;
          failedReason := "UpdateSucceeded";
        }
        return r;
      }
    }
  }

  /*** Verdicts ***/

  // The stored (Progressing, Failed, Complete) triples.
  predicate Unstarted(st: UpdateStatus) { st.progressing == Unknown && st.failed == Unknown && st.complete == Unknown }
  predicate InFlight(st: UpdateStatus) { st.progressing == Yes && st.failed == No && st.complete == No }
  predicate Retryable(st: UpdateStatus) { st.progressing == No && st.failed == No && st.complete == No }
  predicate DoneFailed(st: UpdateStatus) { st.progressing == No && st.failed == Yes && st.complete == Yes }
  predicate DoneSucceeded(st: UpdateStatus) { st.progressing == No && st.failed == No && st.complete == Yes }

  predicate LegalTriple(st: UpdateStatus) {
    Unstarted(st) || InFlight(st) || Retryable(st) || DoneFailed(st) || DoneSucceeded(st)
  }

  // The stream delivered a result that did not fail, with nothing but events before it.
  ghost predicate DeliversSuccess(script: Script) {
    exists k :: 0 <= k < |script| && script[k].Result? && IsSuccess(script[k].res) && AllEvents(script, k)
  }

  // A result without a summary, or one that says so.
  predicate IsSuccess(res: OpResult) {
    res.summary.Some? ==> res.summary.value.result == "succeeded"
  }

  // The stream broke with an error that carries no gRPC status.
  ghost predicate BreaksForeign(script: Script) {
    exists k :: 0 <= k < |script| && script[k].ForeignError? && AllEvents(script, k)
  }

  ghost predicate AllEvents(script: Script, k: nat)
    requires k <= |script|
  {
    forall j :: 0 <= j < k ==> script[j] == Event
  }

  lemma {:induction false} DecisiveStandsFirst(script: Script)
    ensures Decisive(script) != Event
    ensures Decisive(script) != Eof ==>
              exists k :: 0 <= k < |script| && script[k] == Decisive(script) && AllEvents(script, k)
  {
    if script != [] {
      if script[0] == Event {
        DecisiveStandsFirst(script[1..]);
        if Decisive(script) != Eof {
          var k :| 0 <= k < |script[1..]| && script[1..][k] == Decisive(script) && AllEvents(script[1..], k);
          forall j | 0 <= j < k + 1 ensures script[j] == Event {
            if j > 0 { assert script[1..][j - 1] == script[j]; }
          }
          assert script[k + 1] == Decisive(script) && AllEvents(script, k + 1);
        }
      } else if script[0] != Eof {
        assert AllEvents(script, 0);
      }
    }
  }

  lemma {:induction false} FirstNonEventDecides(script: Script, k: nat)
    requires k < |script| && script[k] != Event && AllEvents(script, k)
    ensures Decisive(script) == script[k]
  {
    if k > 0 {
      assert script[0] == Event;
      forall j | 0 <= j < k - 1 ensures script[1..][j] == Event { assert script[1..][j] == script[j + 1]; }
      FirstNonEventDecides(script[1..], k - 1);
    }
  }

  /**
   What a stream leaves behind, exactly.  Started from an Update in flight: it is left in flight
   just when the stream ended without deciding; it is done and failed just when the first decisive
   item was a failed result or a gRPC status error; and it is done and succeeded just when the
   first decisive item was a result that did not fail, or an error that is no gRPC status.
   */
  lemma {:induction false} VerdictIsExact(st: UpdateStatus, script: Script)
    requires InFlight(st)
    ensures var end := Apply(st, Decisive(script));
            && LegalTriple(end)
            && (InFlight(end) <==> Decisive(script) == Eof)
            && (DoneSucceeded(end) <==> DeliversSuccess(script) || BreaksForeign(script))
  {
    DecisiveStandsFirst(script);
    var end := Apply(st, Decisive(script));
    if DoneSucceeded(end) {
      var k :| 0 <= k < |script| && script[k] == Decisive(script) && AllEvents(script, k);
    }
    if DeliversSuccess(script) {
      var k :| 0 <= k < |script| && script[k].Result? && IsSuccess(script[k].res) && AllEvents(script, k);
      FirstNonEventDecides(script, k);
    }
    if BreaksForeign(script) {
      var k :| 0 <= k < |script| && script[k].ForeignError? && AllEvents(script, k);
      FirstNonEventDecides(script, k);
    }
  }

  /** An operation that was never reported to succeed can be recorded as a success: a foreign error is enough. */
  lemma {:induction false} ForeignErrorReadsAsSuccess(st: UpdateStatus)
    requires InFlight(st)
    ensures DoneSucceeded(Apply(st, Decisive([Event, ForeignError])))
    ensures !DeliversSuccess([Event, ForeignError])
  {
    assert Decisive([Event, ForeignError]) == Decisive([Event, ForeignError][1..]);
    assert [Event, ForeignError][1..] == [ForeignError];
  }
}
