/**
 * The two upload widgets: the job page's, which renames the chosen file
 * after the job id, and the older stand-alone one, which keeps the file as
 * chosen. Both post the file and report the name the server stored it as.
 */
module Uploads {
  import opened Wrappers
  import opened Text
  import opened Browser

  /** What an upload request gives: a 200 with the stored name, another status with its body, or a thrown error. */
  datatype UploadReply = Stored(filename: string) | Refused(status: int, body: string) | Failed(message: string)

  /**
   * The name the job page gives a chosen file: `<jobId>_in.<ext>`, where
   * `ext` is the text after the original name's last `.` (the whole name
   * when it has none, and "undefined" when no file was chosen).
   */
  function RenamedFile(jobId: string, chosen: Option<string>): (r: string)
    ensures chosen.None? ==> r == jobId + "_in.undefined"
    ensures chosen.Some? ==>
      |r| >= |jobId| + 4 && r[..|jobId| + 4] == jobId + "_in."
      && var ext := r[|jobId| + 4..];
         '.' !in ext && |ext| <= |chosen.value| && ext == chosen.value[|chosen.value| - |ext|..]
         && (|ext| == |chosen.value| || chosen.value[|chosen.value| - |ext| - 1] == '.')
  {
    var ext := if chosen.None? then "undefined" else AfterLast(chosen.value, '.');
    jobId + "_in." + ext
  }

  /** The extension is kept: renaming twice for the same job gives the same name. */
  lemma {:induction false} RenameKeepsExtension(jobId: string, name: string)
    ensures RenamedFile(jobId, Some(RenamedFile(jobId, Some(name)))) == RenamedFile(jobId, Some(name))
  {
    var ext := AfterLast(name, '.');
    var once := jobId + "_in." + ext;
    assert once == (jobId + "_in") + ['.'] + ext;
    AfterLastOfSuffix(jobId + "_in", ext);
  }

  /** The text after the last `.` of `a.b`, when `b` has no `.`, is `b`. */
  lemma {:induction false} AfterLastOfSuffix(a: string, b: string)
    requires '.' !in b
    ensures AfterLast(a + ['.'] + b, '.') == b
    decreases |b|
  {
    var s := a + ['.'] + b;
    if b == [] {
      assert s[|s| - 1] == '.';
    } else {
      var init := b[..|b| - 1];
      assert s[..|s| - 1] == a + ['.'] + init;
      assert s[|s| - 1] == b[|b| - 1];
      AfterLastOfSuffix(a, init);
      assert init + [b[|b| - 1]] == b;
    }
  }

  /** The job page's upload widget. */
  class JobUpload {
    const jobId: string
    /** The file to post, already renamed. */
    var file: Option<string>
    var uploading: bool
    /** Upload progress; kept only as whether a value is shown. */
    var progressShown: bool
    var inputS3Path: Option<string>
    var error: Option<string>
    /** Files posted, oldest first. */
    var posted: seq<string>
    /** Names handed to `onUpload`, oldest first. */
    var uploaded: seq<string>

    constructor (jobId: string)
      ensures this.jobId == jobId && file.None? && !uploading && !progressShown
      ensures inputS3Path.None? && error.None? && posted == [] && uploaded == []
    {
      this.jobId := jobId;
      file := None;
      uploading := false;
      progressShown := false;
      inputS3Path := None;
      error := None;
      posted := [];
      uploaded := [];
    }

    /** `handleFileChange`: even no choice yields a file, named with the extension "undefined". */
    method ChooseFile(chosen: Option<string>)
      modifies this
      ensures file == Some(RenamedFile(jobId, chosen)) && !progressShown
      ensures uploading == old(uploading) && inputS3Path == old(inputS3Path) && error == old(error)
      ensures posted == old(posted) && uploaded == old(uploaded)
    {
      file := Some(RenamedFile(jobId, chosen));
      progressShown := false;
    }

    /** `uploadFile`: refuse without a file; otherwise post it and record the stored name or the error. */
    method Upload(reply: UploadReply)
      modifies this
      ensures file == old(file)
      ensures old(file).None? ==>
        error == Some("No file selected") && posted == old(posted) && uploaded == old(uploaded)
        && inputS3Path == old(inputS3Path) && uploading == old(uploading) && progressShown == old(progressShown)
      ensures old(file).Some? ==>
        posted == old(posted) + [old(file).value] && !uploading && !progressShown
        && match reply
           case Stored(name) => inputS3Path == Some(name) && uploaded == old(uploaded) + [name] && error.None?
           case Refused(_, body) => error == Some(body) && inputS3Path == old(inputS3Path) && uploaded == old(uploaded)
           case Failed(message) => error == Some(message) && inputS3Path == old(inputS3Path) && uploaded == old(uploaded)
    {
      if file.None? {
        error := Some("No file selected");
        return;
      }
      uploading := true;
      error := None;
      posted := posted + [file.value];
      match reply {
        case Stored(name) =>
          inputS3Path := Some(name);
          uploaded := uploaded + [name];
        case Refused(_, body) =>
          error := Some(body);
        case Failed(message) =>
          error := Some(message);
      }
      uploading := false;
      progressShown := false;
    }
  }

  /** The stand-alone upload widget. */
  class VideoUpload {
    var file: Option<string>
    var uploading: bool
    var progressShown: bool
    var inputS3Path: Option<string>
    var error: Option<string>
    var posted: seq<string>
    var uploaded: seq<string>

    constructor ()
      ensures file.None? && !uploading && !progressShown && inputS3Path.None? && error.None?
      ensures posted == [] && uploaded == []
    {
      file := None;
      uploading := false;
      progressShown := false;
      inputS3Path := None;
      error := None;
      posted := [];
      uploaded := [];
    }

    /** `handleFileChange`: the file is kept as chosen. */
    method ChooseFile(chosen: Option<string>)
      modifies this
      ensures file == chosen && !progressShown
      ensures uploading == old(uploading) && inputS3Path == old(inputS3Path) && error == old(error)
      ensures posted == old(posted) && uploaded == old(uploaded)
    {
      file := chosen;
      progressShown := false;
    }

    method Upload(reply: UploadReply)
      modifies this
      ensures file == old(file)
      ensures old(file).None? ==>
        error == Some("No file selected") && posted == old(posted) && uploaded == old(uploaded)
        && inputS3Path == old(inputS3Path) && uploading == old(uploading) && progressShown == old(progressShown)
      ensures old(file).Some? ==>
        posted == old(posted) + [old(file).value] && !uploading && !progressShown
        && match reply
           case Stored(name) => inputS3Path == Some(name) && uploaded == old(uploaded) + [name] && error.None?
           case Refused(_, body) => error == Some(body) && inputS3Path == old(inputS3Path) && uploaded == old(uploaded)
           case Failed(message) => error == Some(message) && inputS3Path == old(inputS3Path) && uploaded == old(uploaded)
    {
      if file.None? {
        error := Some("No file selected");
        return;
      }
      uploading := true;
      error := None;
      posted := posted + [file.value];
      match reply {
        case Stored(name) =>
          inputS3Path := Some(name);
          uploaded := uploaded + [name];
        case Refused(_, body) =>
          error := Some(body);
        case Failed(message) =>
          error := Some(message);
      }
      uploading := false;
      progressShown := false;
    }
  }
}
