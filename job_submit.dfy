/**
 * The job submission form: a preset picker (or a free pipeline), an output
 * path derived from the input path and the chosen preset, and the request
 * that submits the job.
 */
module JobSubmit {
  import opened Wrappers
  import opened Text
  import opened Domain
  import opened Browser

  /** The input type the preset list is filtered by: the text after the input path's last `.`. */
  function FileType(inputPath: string): (t: Option<string>)
    ensures t.None? <==> inputPath == ""
    ensures t.Some? ==> '.' !in t.value && |t.value| <= |inputPath| && t.value == inputPath[|inputPath| - |t.value|..]
    ensures t.Some? ==> |t.value| == |inputPath| || inputPath[|inputPath| - |t.value| - 1] == '.'
  {
    if inputPath == "" then None else Some(AfterLast(inputPath, '.'))
  }

  /** `presets.find`: the first preset with the id, if any. */
  function FindPreset(presets: seq<Preset>, id: string): (r: Option<Preset>)
    ensures r.None? <==> forall k :: 0 <= k < |presets| ==> presets[k].presetId != id
    ensures r.Some? ==> exists k :: 0 <= k < |presets| && presets[k] == r.value && r.value.presetId == id
                                    && forall j :: 0 <= j < k ==> presets[j].presetId != id
    decreases |presets|
  {
    if presets == [] then None
    else if presets[0].presetId == id then Some(presets[0])
    else
      var r := FindPreset(presets[1..], id);
      if r.Some? then
        var k :| 0 <= k < |presets[1..]| && presets[1..][k] == r.value && r.value.presetId == id
                 && forall j :: 0 <= j < k ==> presets[1..][j].presetId != id;
        assert presets[k + 1] == r.value;
        r
      else r
  }

  /** A template literal's rendering of `preset?.field`: the text "undefined" when there is no preset. */
  function Shown(preset: Option<Preset>, output: bool): string
  {
    match preset
    case None => "undefined"
    case Some(p) => if output then p.outputType else p.inputType
  }

  /** The output path a chosen preset suggests: the first `_in.<input type>` becomes `_out.<output type>`. */
  function OutputPathFor(inputPath: string, preset: Option<Preset>): (r: string)
    ensures !Contains(inputPath, "_in." + Shown(preset, false)) ==> r == inputPath
  {
    ReplaceFirst(inputPath, "_in." + Shown(preset, false), "_out." + Shown(preset, true))
  }

  /**
   * A file uploaded for job `jobId` is stored as `<jobId>_in.<ext>`; choosing
   * a preset whose input type is `ext` then suggests `<jobId>_out.<output type>`.
   */
  lemma UploadedInputGetsOutputPath(jobId: string, preset: Preset)
    requires '_' !in jobId
    ensures OutputPathFor(jobId + "_in." + preset.inputType, Some(preset)) == jobId + "_out." + preset.outputType
  {
    var s := jobId + "_in." + preset.inputType;
    var p := "_in." + preset.inputType;
    assert s == jobId + p;
    assert OccursAt(s, p, |jobId|) by {
      assert s[|jobId|..|jobId| + |p|] == p;
    }
    forall j: nat | j < |jobId| ensures !OccursAt(s, p, j) {
      if j + |p| <= |s| {
        assert s[j] == jobId[j] && jobId[j] != '_' && p[0] == '_';
        assert s[j..j + |p|][0] == s[j];
      }
    }
    ContainsInfix(jobId, p, []);
    assert s == jobId + p + [];
    var i := IndexOf(s, p).value;
    assert i == |jobId|;
    assert s[..i] == jobId && s[i + |p|..] == [];
  }

  /** How the job is specified: by a preset id (possibly null) or by a pipeline, never both. */
  datatype Choice = ByPreset(presetId: Option<string>) | ByPipeline(pipeline: string)

  /** The body posted to the submit endpoint. */
  datatype JobPayload = JobPayload(jobId: string, inputPath: string, outputPath: string, choice: Choice)

  /** A truthy preset selection: present and non-empty. */
  predicate Selected(selected: Option<string>)
  {
    selected.Some? && selected.value != ""
  }

  /** The form state and what it has sent. */
  class JobSubmitForm {
    const jobId: string
    const inputPath: string
    var presets: seq<Preset>
    var outputPath: string
    var pipeline: string
    var selectedPreset: Option<string>
    var usePreset: bool
    var error: Option<string>
    var submitting: bool
    /** Bodies posted to the submit endpoint, oldest first. */
    var posted: seq<JobPayload>
    /** Arguments handed to `onJobSubmit`: the job id and the output path. */
    var submitted: seq<(string, string)>

    constructor (jobId: string, inputPath: string)
      ensures this.jobId == jobId && this.inputPath == inputPath
      ensures presets == [] && outputPath == "" && pipeline == "" && selectedPreset.None? && usePreset
      ensures error.None? && !submitting && posted == [] && submitted == []
    {
      this.jobId := jobId;
      this.inputPath := inputPath;
      presets := [];
      outputPath := "";
      pipeline := "";
      selectedPreset := None;
      usePreset := true;
      error := None;
      submitting := false;
      posted := [];
      submitted := [];
    }

    /** The preset listing for the input type arrives; a failed fetch leaves the list alone. */
    method LoadPresets(reply: Reply<seq<Preset>>)
      modifies this
      ensures presets == if reply.Ok? then reply.body else old(presets)
      ensures outputPath == old(outputPath) && pipeline == old(pipeline) && selectedPreset == old(selectedPreset)
      ensures usePreset == old(usePreset) && error == old(error) && submitting == old(submitting)
      ensures posted == old(posted) && submitted == old(submitted)
    {
      if reply.Ok? {
        presets := reply.body;
      }
    }

    /**
     * `handlePresetChange`: record the selection; a non-empty one also
     * derives the output path and clears the pipeline.
     */
    method ChoosePreset(presetId: string)
      modifies this
      ensures selectedPreset == Some(presetId)
      ensures presetId != "" ==>
        outputPath == OutputPathFor(inputPath, FindPreset(presets, presetId)) && pipeline == ""
      ensures presetId == "" ==> outputPath == old(outputPath) && pipeline == old(pipeline)
      ensures presets == old(presets) && usePreset == old(usePreset) && error == old(error)
      ensures submitting == old(submitting) && posted == old(posted) && submitted == old(submitted)
    {
      var preset := FindPreset(presets, presetId);
      selectedPreset := Some(presetId);
      if presetId != "" {
        outputPath := OutputPathFor(inputPath, preset);
        pipeline := "";
      }
    }

    /** The output path field's `onChange`: only the output path changes. */
    method EditOutputPath(text: string)
      modifies this
      ensures outputPath == text
      ensures presets == old(presets) && pipeline == old(pipeline) && selectedPreset == old(selectedPreset)
      ensures usePreset == old(usePreset) && error == old(error) && submitting == old(submitting)
      ensures posted == old(posted) && submitted == old(submitted)
    {
      outputPath := text;
    }

    /** The pipeline field's `onChange`; the field is disabled while presets are in use. */
    method EditPipeline(text: string)
      requires !usePreset
      modifies this
      ensures pipeline == text
      ensures presets == old(presets) && outputPath == old(outputPath) && selectedPreset == old(selectedPreset)
      ensures usePreset == old(usePreset) && error == old(error) && submitting == old(submitting)
      ensures posted == old(posted) && submitted == old(submitted)
    {
      pipeline := text;
    }

    /** `handleToggleChange`: switching presets off clears the selection and the pipeline. */
    method Toggle(checked: bool)
      modifies this
      ensures usePreset == checked
      ensures !checked ==> selectedPreset.None? && pipeline == ""
      ensures checked ==> selectedPreset == old(selectedPreset) && pipeline == old(pipeline)
      ensures presets == old(presets) && outputPath == old(outputPath) && error == old(error)
      ensures submitting == old(submitting) && posted == old(posted) && submitted == old(submitted)
    {
      usePreset := checked;
      if !checked {
        selectedPreset := None;
        pipeline := "";
      }
    }

    /** The fields the submit guard checks are all filled. */
    predicate Ready()
      reads this
    {
      inputPath != "" && outputPath != "" && jobId != "" && (pipeline != "" || Selected(selectedPreset))
    }

    /** The body a submission posts. */
    function Payload(): (p: JobPayload)
      reads this
      ensures p.choice.ByPreset? <==> usePreset
      ensures p.choice.ByPreset? ==> p.choice.presetId == selectedPreset
      ensures p.choice.ByPipeline? ==> p.choice.pipeline == pipeline
      ensures p.jobId == jobId && p.inputPath == inputPath && p.outputPath == outputPath
    {
      JobPayload(jobId, inputPath, outputPath, if usePreset then ByPreset(selectedPreset) else ByPipeline(pipeline))
    }

    /**
     * `handleSubmit`: refuse an incomplete form; otherwise post the job; on
     * success reset the draft and report the job id with the output path it
     * was submitted with; on failure show the response text or the error.
     */
    method Submit(reply: Reply<()>)
      modifies this
      ensures !old(Ready()) ==>
        error == Some("All fields are required") && posted == old(posted) && submitted == old(submitted)
        && outputPath == old(outputPath) && pipeline == old(pipeline) && selectedPreset == old(selectedPreset)
        && usePreset == old(usePreset) && submitting == old(submitting)
      ensures old(Ready()) ==>
        posted == old(posted) + [old(Payload())] && !submitting
        && match reply
           case Ok(_) =>
             submitted == old(submitted) + [(jobId, old(outputPath))] && error.None?
             && outputPath == "" && pipeline == "" && selectedPreset.None? && usePreset
           case NotOk(_, text) =>
             error == Some(text) && submitted == old(submitted) && outputPath == old(outputPath)
             && pipeline == old(pipeline) && selectedPreset == old(selectedPreset) && usePreset == old(usePreset)
           case Thrown(message) =>
             error == Some(message) && submitted == old(submitted) && outputPath == old(outputPath)
             && pipeline == old(pipeline) && selectedPreset == old(selectedPreset) && usePreset == old(usePreset)
      ensures presets == old(presets)
    {
      if !Ready() {
        error := Some("All fields are required");
        return;
      }
      submitting := true;
      error := None;
      posted := posted + [Payload()];
      match reply {
        case Ok(_) =>
          var sentOutputPath := outputPath;
          outputPath := "";
          pipeline := "";
          submitting := false;
          error := None;
          selectedPreset := None;
          usePreset := true;
          submitted := submitted + [(jobId, sentOutputPath)];
        case NotOk(_, text) =>
          error := Some(text);
        case Thrown(message) =>
          error := Some(message);
      }
      submitting := false;
    }
  }
}
