/**
 * The job progress panel: one socket per job id, and a classification of
 * each incoming message into the four state cells the panel shows (the
 * status handed to the parent, the error, the progress and the success
 * text).
 */
module JobProgress {
  import opened Wrappers
  import opened Domain
  import opened Browser
  import opened Messages
  import Api
  import TranscodeWorker

  const NotFoundStatus := "not_found"
  const CompletedStatus := "completed"
  const FailedStatus := "failed"
  const InProgressStatus := "in_progress"
  const SuccessText := "Job Completed Successfully"
  const SocketErrorText := "Failed to retrieve Job Progress"

  /** What the panel does with one message. */
  datatype Reaction =
    | ShowNotFound(message: string)
    | ShowCompleted
    | ShowFailed(failure: Field<string>)
    | ShowProgress(progress: Field<real>)
    | Ignore

  /** An error-shaped message with a truthy `error`. */
  predicate Errs(m: WireMessage)
  {
    IsError(m) && Truthy(m.error)
  }

  /**
   * The `onmessage` chain as written: a truthy error wins over every other
   * shape; then a completed or failed result; then a progress report; any
   * other message is ignored.
   */
  function Classify(m: WireMessage): (r: Reaction)
    ensures r.ShowNotFound? <==> Errs(m)
    ensures r.ShowNotFound? ==> m.error == Value(r.message)
    ensures r == ShowCompleted <==> !Errs(m) && m.status == Value(Completed)
    ensures r.ShowFailed? <==> !Errs(m) && m.status == Value(Failed)
    ensures r.ShowFailed? ==> r.failure == m.error
    ensures r.ShowProgress? <==>
      !Errs(m) && m.status != Value(Completed) && m.status != Value(Failed) && IsProgress(m)
    ensures r.ShowProgress? ==> r.progress == m.progress
  {
    if Errs(m) then ShowNotFound(m.error.value)
    else if IsJobResult(m) && m.status == Value(Completed) then ShowCompleted
    else if IsJobResult(m) && m.status == Value(Failed) then ShowFailed(m.error)
    else if IsProgress(m) then ShowProgress(m.progress)
    else Ignore
  }

  /** A result whose status is neither completed nor failed, with no truthy error and no progress, changes nothing. */
  lemma OtherResultsIgnored(m: WireMessage)
    requires IsJobResult(m) && m.status != Value(Completed) && m.status != Value(Failed)
    requires !Truthy(m.error) && !IsProgress(m)
    ensures Classify(m) == Ignore
  {
  }

  /**
   * The classification with results tested before the error field: a
   * result message is shown by its status, whatever its `error` holds.
   */
  function ClassifyByStatus(m: WireMessage): (r: Reaction)
    ensures m.status == Value(Completed) ==> r == ShowCompleted
    ensures m.status == Value(Failed) ==> r == ShowFailed(m.error)
    ensures !IsJobResult(m) ==> r == Classify(m)
  {
    if IsJobResult(m) && m.status == Value(Completed) then ShowCompleted
    else if IsJobResult(m) && m.status == Value(Failed) then ShowFailed(m.error)
    else Classify(m)
  }

  /** Every result the worker publishes is shown by its status once results are tested first. */
  lemma {:induction false} ResultsShownByStatus(r: ResultMessage)
    requires r.status == Completed || r.status == Failed
    ensures var m := Received(ResultUpdate(r));
      ClassifyByStatus(m) == if r.status == Completed then ShowCompleted else ShowFailed(FromOption(r.error))
  {
    var m := Received(ResultUpdate(r));
    assert m.status == Value(r.status);
  }

  /**
   * A watcher that opens the panel after the worker completed the job is
   * greeted with the stored row, whose error is the text "None"; the chain
   * as written reads that as an error and reports the job as not found.
   */
  lemma CompletedJobShownAsNotFound(job: Job, now: nat, lastProgress: map<string, ProgressMessage>, ws: nat)
    ensures var row := TranscodeWorker.Settled(job, Completed, None, None, now);
      var g := Api.GreetKnown(row, lastProgress, job.jobId, ws);
      g.trace[0].Sent? && g.trace[0].payload.ResultUpdate?
      && Classify(Received(g.trace[0].payload)) == ShowNotFound("None")
      && ClassifyByStatus(Received(g.trace[0].payload)) == ShowCompleted
  {
    var row := TranscodeWorker.Settled(job, Completed, None, None, now);
    TranscodeWorker.CompletedErrorIsNoneText(job, now);
    assert !Api.Running(row);
  }

  /** The panel's state cells and whether its socket is open. */
  class ProgressPanel {
    /** The last status handed to the parent through `setJobStatus`, if any. */
    var reported: Option<string>
    var error: Field<string>
    var progress: Field<real>
    var success: Option<string>
    var socketOpen: bool

    /** Success and error are never shown together. */
    predicate Exclusive()
      reads this
    {
      success.Some? ==> !error.Value?
    }

    constructor ()
      ensures reported.None? && error == Null && progress == Null && success.None? && !socketOpen
      ensures Exclusive()
    {
      reported := None;
      error := Null;
      progress := Null;
      success := None;
      socketOpen := false;
    }

    /** The effect for `jobId`: a socket is opened only for a non-empty id. */
    method Subscribe(jobId: string)
      modifies this
      ensures socketOpen == (jobId != "")
      ensures reported == old(reported) && error == old(error) && progress == old(progress) && success == old(success)
    {
      socketOpen := jobId != "";
    }

    /** The effect's cleanup closes the socket. */
    method Unsubscribe()
      modifies this
      ensures !socketOpen
      ensures reported == old(reported) && error == old(error) && progress == old(progress) && success == old(success)
    {
      socketOpen := false;
    }

    /** `onmessage`: set the four cells as the classification says. */
    method OnMessage(m: WireMessage)
      modifies this
      ensures socketOpen == old(socketOpen)
      ensures match Classify(m)
        case ShowNotFound(e) =>
          reported == Some(NotFoundStatus) && error == Value(e) && progress == Null && success.None?
        case ShowCompleted =>
          reported == Some(CompletedStatus) && error == Null && progress == Value(100.0) && success == Some(SuccessText)
        case ShowFailed(e) =>
          reported == Some(FailedStatus) && error == e && progress == Null && success.None?
        case ShowProgress(p) =>
          reported == Some(InProgressStatus) && error == Null && progress == p && success.None?
        case Ignore =>
          reported == old(reported) && error == old(error) && progress == old(progress) && success == old(success)
      ensures Classify(m) != Ignore ==> Exclusive()
      ensures old(Exclusive()) ==> Exclusive()
    {
      match Classify(m)
      case ShowNotFound(e) =>
        reported, error, progress, success := Some(NotFoundStatus), Value(e), Null, None;
      case ShowCompleted =>
        reported, error, progress, success := Some(CompletedStatus), Null, Value(100.0), Some(SuccessText);
      case ShowFailed(e) =>
        reported, error, progress, success := Some(FailedStatus), e, Null, None;
      case ShowProgress(p) =>
        reported, error, progress, success := Some(InProgressStatus), Null, p, None;
      case Ignore =>
    }

    /** `onerror`: the job is reported as not found. */
    method OnSocketError()
      modifies this
      ensures socketOpen == old(socketOpen)
      ensures reported == Some(NotFoundStatus) && error == Value(SocketErrorText) && progress == Null && success.None?
      ensures Exclusive()
    {
      reported, error, progress, success := Some(NotFoundStatus), Value(SocketErrorText), Null, None;
    }
  }
}
