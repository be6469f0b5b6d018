/**
 * The transcoding worker: it takes a submission from the jobs queue, claims
 * the job, downloads the input, runs the GStreamer pipeline, uploads the
 * output and publishes the result, acknowledging the delivery once on every
 * path. Object storage and GStreamer are oracles: what a download, an
 * upload or a pipeline run does is given as a parameter.
 */
module TranscodeWorker {
  import opened Wrappers
  import opened Text
  import opened Domain
  import opened Pipelines
  import opened TranscodeErrors

  /** What `{{progress}}` becomes: a progress reporter every ten seconds. */
  const ProgressElement := "progressreport update-freq=10 silent=true"

  /** How long the watchdog lets a pipeline go without progress. */
  const TimeoutSeconds := 60

  // ---------------------------------------------------------------- placeholder substitution

  /** The launch line: output file first, then input file, then the progress element, every occurrence each. */
  function Substitute(options: string, input: string, output: string): string
  {
    ReplaceAll(ReplaceAll(ReplaceAll(options, Placeholder(OutputFile), output), Placeholder(InputFile), input),
               Placeholder(Progress), ProgressElement)
  }

  /**
   * For a pipeline made of brace-free literals and placeholders, and file
   * names without a brace, substitution fills exactly the three slots.
   */
  lemma SubstituteFillsSlots(ps: seq<Piece>, input: string, output: string)
    requires BracelessLiterals(ps)
    requires '{' !in input && '{' !in output
    ensures Substitute(Render(ps, Placeholders()), input, output) == Render(ps, Fill(input, output, ProgressElement))
  {
    ProgressElementBraceless();
    ReplacementsFillSlots(ps, input, output, ProgressElement);
  }

  lemma ProgressElementBraceless()
    ensures '{' !in ProgressElement
  {
  }

  /** The three replacements, in the order the worker makes them, fill the three slots. */
  lemma ReplacementsFillSlots(ps: seq<Piece>, input: string, output: string, progress: string)
    requires BracelessLiterals(ps)
    requires '{' !in input && '{' !in output && '{' !in progress
    ensures ReplaceAll(ReplaceAll(ReplaceAll(Render(ps, Placeholders()), Placeholder(OutputFile), output),
                                  Placeholder(InputFile), input), Placeholder(Progress), progress)
         == Render(ps, Fill(input, output, progress))
  {
    var f0 := Placeholders();
    var f1 := Fill(Placeholder(InputFile), output, Placeholder(Progress));
    var f2 := Fill(input, output, Placeholder(Progress));
    assert f0.With(OutputFile, output) == f1;
    ReplaceFillsSlot(ps, f0, OutputFile, output);
    assert f1.With(InputFile, input) == f2;
    ReplaceFillsSlot(ps, f1, InputFile, input);
    assert f2.With(Progress, progress) == Fill(input, output, progress);
    ReplaceFillsSlot(ps, f2, Progress, progress);
  }

  /** Every built-in pipeline becomes the launch line with the two files and the progress element. */
  lemma SubstituteBuiltIn(demux: string, mux: string, width: string, height: string,
                          encoder: string, bitrate: string, parser: string, input: string, output: string)
    requires '{' !in demux && '{' !in mux && '{' !in width && '{' !in height
    requires '{' !in encoder && '{' !in bitrate && '{' !in parser
    requires '{' !in input && '{' !in output
    ensures Substitute(PipelineTemplate(demux, mux, width, height, encoder, bitrate, parser), input, output)
         == Render(TemplatePieces(demux, mux, width, height, encoder, bitrate, parser), Fill(input, output, ProgressElement))
  {
    TemplateBraceless(demux, mux, width, height, encoder, bitrate, parser);
    SubstituteFillsSlots(TemplatePieces(demux, mux, width, height, encoder, bitrate, parser), input, output);
  }

  /**
   * The output file is substituted before the input file: an output path
   * that itself reads `{{input_file}}` ends up as the input path.
   */
  lemma OutputSubstitutedFirst(input: string)
    requires '{' !in input
    ensures Substitute(Placeholder(OutputFile), input, Placeholder(InputFile)) == input
  {
    ReplaceAllHits("", Placeholder(OutputFile), Placeholder(InputFile));
    assert Placeholder(OutputFile) + "" == Placeholder(OutputFile);
    assert Placeholder(InputFile) + "" == Placeholder(InputFile);
    ReplaceAllHits("", Placeholder(InputFile), input);
    assert input + "" == input;
    BracelessHasNoPlaceholder(input, "", Progress);
    ReplaceAllSkips(input, "", Placeholder(Progress), ProgressElement);
  }

  // ---------------------------------------------------------------- one pipeline run

  /** What the pipeline run left in the worker's error slot. */
  datatype Recorded =
    | NothingRecorded
      /** The watchdog's pair of error type and message. */
    | ErrorPair(errorType: string, message: string)
      /** The bus handler's plain error text. */
    | ErrorText(text: string)

  /** How GStreamer treats one launch line. */
  datatype GstRun = GstRun(parseError: Option<string>, playFails: bool, loopError: Option<string>, recorded: Recorded)

  /** What `transcode` raises: one of the typed exceptions, or any other exception with its text. */
  datatype Raised = Typed(e: TranscodeException) | Untyped(message: string)

  /** The text the bus handler stores for a GStreamer error. */
  function GstErrorText(error: string): string
  {
    "Error received from Pipeline Execution: " + error
  }

  /** The text the watchdog stores when the pipeline stops progressing. */
  function TimeoutMessage(): string
  {
    "Pipeline failed to progress after " + NatToString(TimeoutSeconds) + " seconds"
  }

  /** A sample of the watchdog: whether the job finished, the clock and the time of the last progress report. */
  datatype Tick = Tick(finished: bool, now: nat, lastProgress: nat)

  /** The tick at which the watchdog stops: the first finished or timed-out one, or the end of the samples. */
  function WatchdogStop(ticks: seq<Tick>, i: nat): (k: nat)
    requires i <= |ticks|
    ensures i <= k <= |ticks|
    ensures forall j :: i <= j < k ==> !ticks[j].finished && ticks[j].now <= ticks[j].lastProgress + TimeoutSeconds
    ensures k < |ticks| ==> ticks[k].finished || ticks[k].now > ticks[k].lastProgress + TimeoutSeconds
    decreases |ticks| - i
  {
    if i == |ticks| then i
    else if ticks[i].finished || ticks[i].now > ticks[i].lastProgress + TimeoutSeconds then i
    else WatchdogStop(ticks, i + 1)
  }

  /**
   * The watchdog thread: once a second it stops if the job finished, and
   * records a timeout if no progress came for more than a minute.
   */
  method CheckTimeout(ticks: seq<Tick>) returns (recorded: Recorded, polls: nat)
    ensures polls == WatchdogStop(ticks, 0)
    ensures recorded != NothingRecorded <==> polls < |ticks| && !ticks[polls].finished
    ensures recorded != NothingRecorded ==> recorded == ErrorPair(ErrorType(PipelineTimeout), TimeoutMessage())
  {
    recorded := NothingRecorded;
    polls := 0;
    while polls < |ticks|
      invariant polls <= |ticks|
      invariant WatchdogStop(ticks, polls) == WatchdogStop(ticks, 0)
    {
      var tick := ticks[polls];
      if tick.finished {
        return;
      }
      if tick.now > tick.lastProgress + TimeoutSeconds {
        recorded := ErrorPair(ErrorType(PipelineTimeout), TimeoutMessage());
        return;
      }
      polls := polls + 1;
    }
  }

  /**
   * `transcode` as written. A plain error text from the bus handler is
   * unpacked as if it were a pair: its first character is never None, and
   * unpacking a string into two names fails unless it has exactly two
   * characters.
   */
  function TranscodeAsWritten(input: string, output: string, options: string, gst: string -> GstRun): (r: Result<string, Raised>)
    ensures r.Success? <==>
      var run := gst(Substitute(options, input, output));
      run.parseError.None? && !run.playFails && run.loopError.None? && run.recorded == NothingRecorded
    ensures r.Success? ==> r.value == output
    ensures var run := gst(Substitute(options, input, output));
      run.parseError.None? && !run.playFails && run.loopError.None? && run.recorded.ErrorText? ==>
        (r.error.Untyped? <==> |run.recorded.text| != 2)
        && (|run.recorded.text| > 2 ==> r.error == Untyped("too many values to unpack (expected 2)"))
  {
    var run := gst(Substitute(options, input, output));
    if run.parseError.Some? then Failure(Typed(Raise(FailedToParsePipeline, run.parseError.value)))
    else if run.playFails then Failure(Typed(Raise(FailedToPlay, "Unable to set the pipeline to the playing state.")))
    else if run.loopError.Some? then Failure(Typed(Raise(FailedMidTranscode, run.loopError.value)))
    else match run.recorded
      case NothingRecorded => Success(output)
      case ErrorPair(t, m) => Failure(Typed(Raise(if t == ErrorType(PipelineTimeout) then PipelineTimeout else FailedMidTranscode, m)))
      case ErrorText(text) =>
        if |text| == 0 then Failure(Untyped("string index out of range"))
        else if |text| == 1 then Failure(Untyped("not enough values to unpack (expected 2, got 1)"))
        else if |text| > 2 then Failure(Untyped("too many values to unpack (expected 2)"))
        else Failure(Typed(Raise(FailedMidTranscode, [text[1]])))
  }

  /**
   * `transcode` as corrected: the bus handler's error text is treated as
   * the mid-transcode failure it reports, instead of being unpacked as a
   * pair as `TranscodeAsWritten` does.
   */
  function Transcode(input: string, output: string, options: string, gst: string -> GstRun): (r: Result<string, Raised>)
    ensures r.Success? <==>
      var run := gst(Substitute(options, input, output));
      run.parseError.None? && !run.playFails && run.loopError.None? && run.recorded == NothingRecorded
    ensures r.Success? ==> r.value == output
    ensures r.Failure? ==> r.error.Typed?
    ensures var run := gst(Substitute(options, input, output));
      run.parseError.None? && !run.playFails && run.loopError.None? && run.recorded.ErrorPair? ==>
        r.error.e.errorType == if run.recorded.errorType == ErrorType(PipelineTimeout)
                               then ErrorType(PipelineTimeout) else ErrorType(FailedMidTranscode)
  {
    var run := gst(Substitute(options, input, output));
    if run.parseError.Some? then Failure(Typed(Raise(FailedToParsePipeline, run.parseError.value)))
    else if run.playFails then Failure(Typed(Raise(FailedToPlay, "Unable to set the pipeline to the playing state.")))
    else if run.loopError.Some? then Failure(Typed(Raise(FailedMidTranscode, run.loopError.value)))
    else match run.recorded
      case NothingRecorded => Success(output)
      case ErrorPair(t, m) => Failure(Typed(Raise(if t == ErrorType(PipelineTimeout) then PipelineTimeout else FailedMidTranscode, m)))
      case ErrorText(text) => Failure(Typed(Raise(FailedMidTranscode, text)))
  }

  /** The two versions agree on every run except one that ends with the bus handler's error text. */
  lemma TranscodeVersionsAgree(input: string, output: string, options: string, gst: string -> GstRun)
    requires !gst(Substitute(options, input, output)).recorded.ErrorText?
    ensures TranscodeAsWritten(input, output, options, gst) == Transcode(input, output, options, gst)
  {
  }

  /** `handle_transcode_exception` and the catch-all: the error type and text a failed run is reported with. */
  function Classify(r: Raised): (e: TranscodeException)
    ensures r.Typed? ==> e == r.e
    ensures r.Untyped? ==> e.errorType == Unknown && e.message == r.message
  {
    match r
    case Typed(e) => e
    case Untyped(m) => TranscodeException(Unknown, m)
  }

  // ---------------------------------------------------------------- dispatch

  /** The effects of the outside world on one delivery: temporary files, storage and GStreamer. */
  datatype WorkerIo = WorkerIo(
    inputTemp: string, outputTemp: string,
    downloadError: Option<string>, gst: string -> GstRun, uploadError: Option<string>)

  /** How a delivery ends: skipped, or finished with a result. */
  datatype Outcome =
    | Skip
    | Finish(status: string, outputPath: Option<string>, error: Option<string>, errorType: Option<string>)

  /**
   * What the worker decides for a delivery, given the job's state in the
   * database (None when there is no such job) and how the transcode went.
   */
  function Verdict(state: Option<string>, msg: SubmissionMessage, downloadError: Option<string>,
                   transcoded: Result<string, Raised>, uploadError: Option<string>): (v: Outcome)
    ensures v.Skip? <==> state != Some(Queued)
    ensures v.Finish? ==> v.status == Completed || v.status == Failed
    ensures v.Finish? && v.status == Completed <==>
      state == Some(Queued) && downloadError.None? && transcoded.Success? && uploadError.None?
    ensures v.Finish? && v.status == Completed ==>
      v.outputPath == Some(msg.outputPath) && v.error.None? && v.errorType.None?
    ensures v.Finish? && v.status == Failed ==>
      v.outputPath.None?
      && (downloadError.Some? ==> v.error == downloadError && v.errorType == Some(S3Download))
      && (downloadError.None? && transcoded.Failure? ==>
            v.error == Some(Classify(transcoded.error).message) && v.errorType == Some(Classify(transcoded.error).errorType))
      && (downloadError.None? && transcoded.Success? ==> v.error == uploadError && v.errorType == Some(S3Upload))
  {
    if state != Some(Queued) then Skip
    else if downloadError.Some? then Finish(Failed, None, downloadError, Some(S3Download))
    else if transcoded.Failure? then
      var e := Classify(transcoded.error);
      Finish(Failed, None, Some(e.message), Some(e.errorType))
    else if uploadError.Some? then Finish(Failed, None, uploadError, Some(S3Upload))
    else Finish(Completed, Some(msg.outputPath), None, None)
  }

  /** Python's `str` of an optional string: None becomes the text "None". */
  function PyStr(o: Option<string>): string
  {
    if o.None? then "None" else o.value
  }

  /** The job row once `send_transcode_result` has saved it. */
  function Settled(job: Job, status: string, error: Option<string>, errorType: Option<string>, now: nat): Job
  {
    job.(state := status, error := Some(PyStr(error)), errorType := errorType, completedAt := Some(now), updatedAt := now)
  }

  /** The job row once the worker has claimed it. */
  function Claimed(job: Job, now: nat): Job
  {
    job.(state := InProgress, startedAt := Some(now), updatedAt := now)
  }

  /** A job that completes stores the text "None" as its error, not a null. */
  lemma CompletedErrorIsNoneText(job: Job, now: nat)
    ensures Settled(job, Completed, None, None, now).error == Some("None")
    ensures Settled(job, Completed, None, None, now).errorType.None?
  {
  }

  /** Every result the worker publishes is one the API forwards to a job's watchers as a completion. */
  lemma FinishedResultsAreTerminal(state: Option<string>, msg: SubmissionMessage, io: WorkerIo)
    ensures var v := Verdict(state, msg, io.downloadError, Transcode(io.inputTemp, io.outputTemp, msg.transcodeOptions, io.gst), io.uploadError);
      v.Finish? ==> v.status == Completed || v.status == Failed
  {
  }

  class Worker {
    /** The jobs table as the worker sees it. */
    var jobs: map<string, Job>
    /** Result messages published on the results queue, oldest first. */
    var published: seq<ResultMessage>
    /** Delivery tags acknowledged, in order. */
    var acked: seq<nat>
    const workerId: string

    constructor (workerId: string, jobs: map<string, Job>)
      ensures this.workerId == workerId && this.jobs == jobs && published == [] && acked == []
    {
      this.workerId := workerId;
      this.jobs := jobs;
      published := [];
      acked := [];
    }

    /** `send_transcode_result`: publish the result, record it on the job if the job exists, acknowledge. */
    method SendTranscodeResult(tag: nat, status: string, jobId: string, outputPath: Option<string>,
                               error: Option<string>, errorType: Option<string>, now: nat)
      modifies this
      ensures published == old(published) + [ResultMessage(jobId, status, Some(now), Some(workerId), outputPath, error, errorType)]
      ensures jobs == if jobId in old(jobs) then old(jobs)[jobId := Settled(old(jobs)[jobId], status, error, errorType, now)]
                      else old(jobs)
      ensures acked == old(acked) + [tag]
    {
      published := published + [ResultMessage(jobId, status, Some(now), Some(workerId), outputPath, error, errorType)];
      if jobId in jobs {
        jobs := jobs[jobId := Settled(jobs[jobId], status, error, errorType, now)];
      }
      acked := acked + [tag];
    }

    /**
     * `process_workqueue_message`: skip a missing, cancelled, running,
     * stalled or otherwise unexpected job; claim a queued one and carry it
     * through download, transcode and upload. Every path acknowledges the
     * delivery exactly once. The transcode step is the corrected
     * `Transcode`; with `TranscodeAsWritten` a run whose bus recorded an
     * error text ends `unknown` instead (see `GstErrorMisreported`).
     */
    method ProcessMessage(msg: SubmissionMessage, tag: nat, claimedAt: nat, finishedAt: nat, io: WorkerIo)
      returns (v: Outcome)
      modifies this
      ensures v == Verdict(if msg.jobId in old(jobs) then Some(old(jobs)[msg.jobId].state) else None, msg,
                           io.downloadError, Transcode(io.inputTemp, io.outputTemp, msg.transcodeOptions, io.gst), io.uploadError)
      ensures acked == old(acked) + [tag]
      ensures v.Skip? ==> jobs == old(jobs) && published == old(published)
      ensures v.Finish? ==>
        msg.jobId in old(jobs)
        && published == old(published) + [ResultMessage(msg.jobId, v.status, Some(finishedAt), Some(workerId), v.outputPath, v.error, v.errorType)]
        && jobs == old(jobs)[msg.jobId := Settled(Claimed(old(jobs)[msg.jobId], claimedAt), v.status, v.error, v.errorType, finishedAt)]
    {
      var transcoded := Transcode(io.inputTemp, io.outputTemp, msg.transcodeOptions, io.gst);
      v := Verdict(if msg.jobId in jobs then Some(jobs[msg.jobId].state) else None, msg, io.downloadError, transcoded, io.uploadError);
      if msg.jobId !in jobs {
        acked := acked + [tag];
        return;
      }
      var job := jobs[msg.jobId];
      if job.state == Cancelled || job.state == InProgress || job.state == Stalled {
        acked := acked + [tag];
        return;
      }
      if job.state != Queued {
        acked := acked + [tag];
        return;
      }
      jobs := jobs[msg.jobId := Claimed(job, claimedAt)];
      if io.downloadError.Some? {
        SendTranscodeResult(tag, Failed, msg.jobId, None, io.downloadError, Some(S3Download), finishedAt);
        return;
      }
      if transcoded.Failure? {
        var e := Classify(transcoded.error);
        SendTranscodeResult(tag, Failed, msg.jobId, None, Some(e.message), Some(e.errorType), finishedAt);
        return;
      }
      if io.uploadError.Some? {
        SendTranscodeResult(tag, Failed, msg.jobId, None, io.uploadError, Some(S3Upload), finishedAt);
        return;
      }
      SendTranscodeResult(tag, Completed, msg.jobId, Some(msg.outputPath), None, None, finishedAt);
    }
  }

  /**
   * A GStreamer error reported on the bus ends the job as `failed` with
   * error type `unknown` and an unpacking error as its text, where the
   * corrected worker reports `mid_transcode` with the GStreamer message.
   */
  lemma GstErrorMisreported(msg: SubmissionMessage, io: WorkerIo, error: string)
    requires var run := io.gst(Substitute(msg.transcodeOptions, io.inputTemp, io.outputTemp));
      run.parseError.None? && !run.playFails && run.loopError.None? && run.recorded == ErrorText(GstErrorText(error))
    requires io.downloadError.None?
    ensures Verdict(Some(Queued), msg, None, TranscodeAsWritten(io.inputTemp, io.outputTemp, msg.transcodeOptions, io.gst), io.uploadError)
         == Finish(Failed, None, Some("too many values to unpack (expected 2)"), Some(Unknown))
    ensures Verdict(Some(Queued), msg, None, Transcode(io.inputTemp, io.outputTemp, msg.transcodeOptions, io.gst), io.uploadError)
         == Finish(Failed, None, Some(GstErrorText(error)), Some(ErrorType(FailedMidTranscode)))
  {
    assert |GstErrorText(error)| > 2;
  }
}
