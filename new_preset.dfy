/**
 * The new-preset form: nine text fields, a validation that every field is
 * filled and that the pipeline names all three placeholders, and the
 * request that saves the preset.
 */
module NewPreset {
  import opened Wrappers
  import opened Text
  import opened Pipelines
  import opened Browser

  /** The form's nine fields, as the request body carries them. */
  datatype PresetDraft = PresetDraft(
    name: string,
    inputType: string,
    outputType: string,
    pipeline: string,
    videoEncoding: string,
    videoBitrate: string,
    resolution: string,
    audioEncoding: string,
    audioBitrate: string)

  /** The pipeline the form starts with: Matroska in, MP4 out, 1080p H.264 at 1024 kbit. */
  function DefaultPipeline(): string
  {
    PipelineTemplate("matroskademux", "mp4mux", "1920", "1080", "x264enc", "1024", "h264parse")
  }

  /** A cleared form: every field empty except the pipeline, which is `pipeline`. */
  function Blank(pipeline: string): PresetDraft
  {
    PresetDraft("", "", "", pipeline, "", "", "", "", "")
  }

  /** `Object.values(preset)`, in the order the body lists the fields. */
  function Values(d: PresetDraft): seq<string>
  {
    [d.name, d.inputType, d.outputType, d.pipeline, d.videoEncoding, d.videoBitrate,
     d.resolution, d.audioEncoding, d.audioBitrate]
  }

  const RequiredMessage := "All fields are required."
  const PlaceholderMessage := "Pipeline must contain {{input_file}}, {{output_file}}, and {{progress}} exactly once."

  /** The required placeholders the pipeline contains, in the order they are listed. */
  function PresentVariables(pipeline: string): (r: seq<string>)
    ensures |r| == 3 <==> forall h :: Contains(pipeline, Placeholder(h))
  {
    var wanted := [Placeholder(InputFile), Placeholder(OutputFile), Placeholder(Progress)];
    var kept := seq(3, i requires 0 <= i < 3 => Contains(pipeline, wanted[i]));
    (if kept[0] then [wanted[0]] else []) + (if kept[1] then [wanted[1]] else [])
      + (if kept[2] then [wanted[2]] else [])
  }

  /**
   * The checks before any request: first that no field is empty, then that
   * each placeholder occurs. `None` lets the request go ahead.
   */
  function Validate(d: PresetDraft): (r: Option<string>)
    ensures r == Some(RequiredMessage) <==> exists i :: 0 <= i < 9 && Values(d)[i] == ""
    ensures r == Some(PlaceholderMessage) <==>
      (forall i :: 0 <= i < 9 ==> Values(d)[i] != "") && exists h :: !Contains(d.pipeline, Placeholder(h))
    ensures r.None? <==>
      (forall i :: 0 <= i < 9 ==> Values(d)[i] != "") && forall h :: Contains(d.pipeline, Placeholder(h))
  {
    if exists i :: 0 <= i < 9 && Values(d)[i] == "" then Some(RequiredMessage)
    else if |PresentVariables(d.pipeline)| != 3 then Some(PlaceholderMessage)
    else None
  }

  /** The default pipeline passes the placeholder check. */
  lemma DefaultPipelineHasPlaceholders(h: Hole)
    ensures Contains(DefaultPipeline(), Placeholder(h))
  {
    TemplateHasPlaceholders("matroskademux", "mp4mux", "1920", "1080", "x264enc", "1024", "h264parse", h);
  }

  /** Only presence is checked: a pipeline naming the input twice is accepted. */
  lemma RepeatedPlaceholderAccepted(d: PresetDraft)
    requires forall i :: 0 <= i < 9 ==> Values(d)[i] != ""
    requires d.pipeline == Placeholder(InputFile) + Placeholder(InputFile) + Placeholder(OutputFile) + Placeholder(Progress)
    ensures Validate(d).None?
  {
    var p := d.pipeline;
    var a, b, c := Placeholder(InputFile), Placeholder(OutputFile), Placeholder(Progress);
    ContainsInfix([], a, a + b + c);
    assert p == [] + a + (a + b + c);
    ContainsInfix(a + a, b, c);
    assert p == (a + a) + b + c;
    ContainsInfix(a + a + b, c, []);
    assert p == (a + a + b) + c + [];
  }

  /** The form's state and what it has sent. */
  class NewPresetForm {
    /** The pipeline a cleared form shows. */
    const defaultPipeline: string
    var draft: PresetDraft
    var alert: Option<Alert>
    var submitting: bool
    /** Bodies posted to the presets endpoint, oldest first. */
    var posted: seq<PresetDraft>
    /** Presets handed to `onSuccess`, oldest first. */
    var delivered: seq<PresetDraft>

    constructor ()
      ensures defaultPipeline == DefaultPipeline()
      ensures draft == Blank(defaultPipeline) && alert.None? && !submitting && posted == [] && delivered == []
    {
      var pipeline := DefaultPipeline();
      defaultPipeline := pipeline;
      draft := Blank(pipeline);
      alert := None;
      submitting := false;
      posted := [];
      delivered := [];
    }

    /**
     * `handleSubmit`: validate; post the draft; on success clear the form
     * and hand the submitted draft on, otherwise keep every field and show
     * why the save failed.
     */
    method Submit(reply: Reply<()>)
      modifies this
      ensures Validate(old(draft)).Some? ==>
        draft == old(draft) && posted == old(posted) && delivered == old(delivered)
        && alert == Some(Alert(ErrorAlert, Validate(old(draft)).value, false)) && submitting == old(submitting)
      ensures Validate(old(draft)).None? ==>
        posted == old(posted) + [old(draft)] && !submitting
        && match reply
           case Ok(_) =>
             draft == Blank(defaultPipeline) && delivered == old(delivered) + [old(draft)]
             && alert == Some(Alert(SuccessAlert, "Preset successfully created!", true))
           case NotOk(_, text) =>
             draft == old(draft) && delivered == old(delivered)
             && alert == Some(Alert(ErrorAlert, "Failed to Save Preset: " + text, false))
           case Thrown(message) =>
             draft == old(draft) && delivered == old(delivered)
             && alert == Some(Alert(ErrorAlert, "Failed to Save Preset: " + message, false))
    {
      var preset := draft;
      var problem := Validate(preset);
      if problem.Some? {
        alert := Some(Alert(ErrorAlert, problem.value, false));
        return;
      }
      posted := posted + [preset];
      match reply {
        case Ok(_) =>
          draft := Blank(defaultPipeline);
          alert := Some(Alert(SuccessAlert, "Preset successfully created!", true));
          delivered := delivered + [preset];
        case NotOk(_, text) =>
          alert := Some(Alert(ErrorAlert, "Failed to Save Preset: " + text, false));
        case Thrown(message) =>
          alert := Some(Alert(ErrorAlert, "Failed to Save Preset: " + message, false));
      }
      submitting := false;
    }
  }
}
