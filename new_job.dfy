/**
 * The new-job page: a job id checked against the server, then the upload,
 * the submission and the progress panels for that id.
 */
module NewJob {
  import opened Wrappers
  import opened Browser

  class NewJobPage {
    var provisionalId: string
    var jobId: string
    var outputPath: string
    var inputPath: string
    var jobStatus: string
    var submitted: bool
    var alert: Option<Alert>

    constructor ()
      ensures provisionalId == "" && jobId == "" && outputPath == "" && inputPath == "" && jobStatus == ""
      ensures !submitted && alert.None?
    {
      provisionalId := "";
      jobId := "";
      outputPath := "";
      inputPath := "";
      jobStatus := "";
      submitted := false;
      alert := None;
    }

    /** The id field's `onChange`. */
    method EditId(text: string)
      requires !IdLocked()
      modifies this
      ensures provisionalId == text
      ensures jobId == old(jobId) && outputPath == old(outputPath) && inputPath == old(inputPath)
      ensures jobStatus == old(jobStatus) && submitted == old(submitted) && alert == old(alert)
    {
      provisionalId := text;
    }

    /**
     * `handleJobIDChange`, run when the id field loses focus: an empty id
     * does nothing; a 404 from `GET /jobs/<id>` adopts the id; a 200 or a
     * thrown error raises an alert; any other status changes nothing.
     */
    method CheckId(lookup: Lookup)
      requires !IdLocked()
      modifies this
      ensures provisionalId == old(provisionalId) && outputPath == old(outputPath) && inputPath == old(inputPath)
      ensures jobStatus == old(jobStatus) && submitted == old(submitted)
      ensures jobId == if provisionalId != "" && lookup == Status(404) then provisionalId else old(jobId)
      ensures alert ==
        if provisionalId == "" then old(alert)
        else match lookup
          case Status(code) =>
            if code == 200 then Some(Alert(ErrorAlert, "A Job with ID (" + provisionalId
                                           + ") already exists, please use a different Job ID.", true))
            else old(alert)
          case LookupFailed(message) => Some(Alert(ErrorAlert, "Failed to validate Job ID: " + message, true))
    {
      if provisionalId != "" {
        match lookup {
          case Status(code) =>
            if code == 404 {
              jobId := provisionalId;
              return;
            } else if code == 200 {
              alert := Some(Alert(ErrorAlert, "A Job with ID (" + provisionalId
                                  + ") already exists, please use a different Job ID.", true));
            }
          case LookupFailed(message) =>
            alert := Some(Alert(ErrorAlert, "Failed to validate Job ID: " + message, true));
        }
      }
    }

    /** `handleUpload`. */
    method HandleUpload(path: string)
      modifies this
      ensures inputPath == path
      ensures provisionalId == old(provisionalId) && jobId == old(jobId) && outputPath == old(outputPath)
      ensures jobStatus == old(jobStatus) && submitted == old(submitted) && alert == old(alert)
    {
      inputPath := path;
    }

    /** `handleJobSubmit`: adopt the submitted id and output path and lock the id field. */
    method HandleJobSubmit(id: string, path: string)
      modifies this
      ensures jobId == id && outputPath == path && submitted && IdLocked()
      ensures provisionalId == old(provisionalId) && inputPath == old(inputPath)
      ensures jobStatus == old(jobStatus) && alert == old(alert)
    {
      jobId := id;
      outputPath := path;
      submitted := true;
    }

    /** The id input is disabled once a job has been submitted. */
    predicate IdLocked()
      reads this
    {
      submitted
    }
  }
}
