/**
 * The older job form that takes a raw pipeline: it reports the submission
 * to its parent before the request is made, whatever the outcome.
 */
module SubmitJob {
  import opened Wrappers
  import opened Domain
  import opened Browser

  /** The body posted to the submit endpoint. */
  datatype RawJobPayload = RawJobPayload(jobId: string, inputPath: string, outputPath: string, transcodeOptions: string)

  class SubmitJobForm {
    const jobId: string
    const inputPath: string
    var outputPath: string
    var transcodeOptions: string
    var submitting: bool
    var error: Option<string>
    /** Bodies posted, oldest first. */
    var posted: seq<RawJobPayload>
    /** Arguments handed to `onJobSubmit`: id, output path and options. */
    var reported: seq<(string, string, string)>

    constructor (jobId: string, inputPath: string)
      ensures this.jobId == jobId && this.inputPath == inputPath
      ensures outputPath == "" && transcodeOptions == "" && !submitting && error.None?
      ensures posted == [] && reported == []
    {
      this.jobId := jobId;
      this.inputPath := inputPath;
      outputPath := "";
      transcodeOptions := "";
      submitting := false;
      error := None;
      posted := [];
      reported := [];
    }

    /** The four inputs the guard checks are all non-empty. */
    predicate Ready()
      reads this
    {
      inputPath != "" && outputPath != "" && jobId != "" && transcodeOptions != ""
    }

    /**
     * `handleSubmit`: refuse an incomplete form; otherwise report the job to
     * the parent, post it with the options as `transcode_options`, and show
     * the response text of a refused request.
     */
    method Submit(reply: Reply<()>)
      modifies this
      ensures outputPath == old(outputPath) && transcodeOptions == old(transcodeOptions)
      ensures !old(Ready()) ==>
        error == Some("All fields are required") && posted == old(posted) && reported == old(reported)
        && submitting == old(submitting)
      ensures old(Ready()) ==>
        reported == old(reported) + [(jobId, outputPath, transcodeOptions)]
        && posted == old(posted) + [RawJobPayload(jobId, inputPath, outputPath, transcodeOptions)]
        && !submitting
        && error == match reply
                    case Ok(_) => None
                    case NotOk(_, text) => Some(text)
                    case Thrown(message) => Some(message)
    {
      if !Ready() {
        error := Some("All fields are required");
        return;
      }
      submitting := true;
      error := None;
      var body := RawJobPayload(jobId, inputPath, outputPath, transcodeOptions);
      reported := reported + [(jobId, outputPath, transcodeOptions)];
      posted := posted + [body];
      match reply {
        case Ok(_) =>
        case NotOk(_, text) =>
          error := Some(text);
        case Thrown(message) =>
          error := Some(message);
      }
      submitting := false;
    }
  }
}
