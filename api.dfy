/**
 * The HTTP and WebSocket endpoints of the API: job submission, paged
 * listings, partial updates, playlist creation and the greeting a progress
 * socket receives. The database is a set of tables keyed by id and the job
 * queue is the sequence of messages published so far.
 */
module Api {
  import opened Wrappers
  import opened Collections
  import opened Text
  import opened Domain
  import opened Managers
  import opened WorkQueues

  /** An error response: an explicit HTTP error, a unique-constraint violation or a rejected query parameter. */
  datatype ApiError = HttpError(status: nat, detail: string) | IntegrityError | ValidationError

  /** The HTTP status each error is answered with. */
  function StatusCode(e: ApiError): nat
  {
    match e
    case HttpError(status, _) => status
    case IntegrityError => 422
    case ValidationError => 422
  }

  /** Python truthiness of an optional string: present and non-empty. */
  predicate Truthy(o: Option<string>)
  {
    o.Some? && o.value != ""
  }

  // ---------------------------------------------------------------- submit

  /** The body of a job submission. */
  datatype TranscodingJob = TranscodingJob(
    jobId: string, inputPath: string, outputPath: string, pipeline: Option<string>, presetId: Option<string>)

  /** The pipeline and preset a submission ends up with. */
  datatype Resolved = Resolved(pipeline: string, presetId: Option<string>)

  /**
   * Where a submitted job's pipeline comes from: a non-empty preset id wins
   * and must name an existing preset; otherwise the request must carry a
   * pipeline of its own.
   */
  function Resolve(req: TranscodingJob, presets: map<string, Preset>): (r: Result<Resolved, ApiError>)
    ensures r.Failure? <==> (Truthy(req.presetId) && req.presetId.value !in presets)
                            || (!Truthy(req.presetId) && req.pipeline.None?)
    ensures r.Failure? ==>
      r.error == if Truthy(req.presetId) then HttpError(404, "Preset not found")
                 else HttpError(400, "Either preset_id or pipeline must be provided")
    ensures r.Success? && Truthy(req.presetId) ==>
      r.value.pipeline == presets[req.presetId.value].pipeline && r.value.presetId == req.presetId
    ensures r.Success? && !Truthy(req.presetId) ==> req.pipeline == Some(r.value.pipeline) && r.value.presetId == req.presetId
  {
    if Truthy(req.presetId) then
      if req.presetId.value !in presets then Failure(HttpError(404, "Preset not found"))
      else Success(Resolved(presets[req.presetId.value].pipeline, req.presetId))
    else if req.pipeline.None? then Failure(HttpError(400, "Either preset_id or pipeline must be provided"))
    else Success(Resolved(req.pipeline.value, req.presetId))
  }

  /** The queued job row a submission creates. */
  function NewJob(jobId: string, inputPath: string, outputPath: string, res: Resolved, now: nat): Job
  {
    Job(jobId, inputPath, outputPath, res.pipeline, res.presetId, Queued, None, None, now, now, None, None)
  }

  /** The queue message announcing a job to the workers. */
  function Submission(job: Job): (m: SubmissionMessage)
    ensures m.jobId == job.jobId && m.transcodeOptions == job.pipeline
    ensures m.inputPath == job.inputPath && m.outputPath == job.outputPath
  {
    SubmissionMessage(job.jobId, job.inputPath, job.outputPath, job.pipeline)
  }

  // ---------------------------------------------------------------- listings

  /**
   * The rows `offset(skip).limit(limit)` returns: those from `skip` on, in
   * order, as many as `limit` allows or as remain.
   */
  ghost predicate IsWindow<T>(page: seq<T>, items: seq<T>, skip: int, limit: int)
  {
    0 <= skip && |page| <= limit && skip + |page| <= |items|
    && (|page| == limit || skip + |page| == |items|)
    && forall k :: 0 <= k < |page| ==> page[k] == items[skip + k]
  }

  /**
   * `offset(skip).limit(limit)` over rows in query order, with the query
   * parameter bounds (skip at least 0, limit from 1 to 100) and a 404 when
   * the page is empty.
   */
  function Page<T>(items: seq<T>, skip: int, limit: int, notFound: string): (r: Result<seq<T>, ApiError>)
    ensures r == Failure(ValidationError) <==> skip < 0 || limit < 1 || limit > 100
    ensures r == Failure(HttpError(404, notFound)) <==> 0 <= skip && 1 <= limit <= 100 && |items| <= skip
    ensures r.Success? ==> 0 < |r.value| && IsWindow(r.value, items, skip, limit)
  {
    if skip < 0 || limit < 1 || limit > 100 then Failure(ValidationError)
    else if |items| <= skip then Failure(HttpError(404, notFound))
    else
      var end := if skip + limit <= |items| then skip + limit else |items|;
      Success(items[skip..end])
  }

  /** `GET /jobs` over the jobs in the table's order (newest first). */
  function ListJobs(ordered: seq<Job>, skip: int, limit: int): (r: Result<seq<Job>, ApiError>)
    ensures r == Failure(ValidationError) <==> skip < 0 || limit < 1 || limit > 100
    ensures r == Failure(HttpError(404, "No jobs found")) <==> 0 <= skip && 1 <= limit <= 100 && |ordered| <= skip
    ensures r.Success? ==> 0 < |r.value| && IsWindow(r.value, ordered, skip, limit)
  {
    Page(ordered, skip, limit, "No jobs found")
  }

  /** The presets a listing keeps: each type filter applies only when it is non-empty. */
  predicate PresetMatches(p: Preset, inputType: Option<string>, outputType: Option<string>)
  {
    (!Truthy(inputType) || p.inputType == inputType.value)
    && (!Truthy(outputType) || p.outputType == outputType.value)
  }

  /** `GET /presets` over the presets in name order, with the optional type filters. */
  function ListPresets(ordered: seq<Preset>, skip: int, limit: int, inputType: Option<string>, outputType: Option<string>)
    : (r: Result<seq<Preset>, ApiError>)
    ensures r == Failure(ValidationError) <==> skip < 0 || limit < 1 || limit > 100
    ensures r == Failure(HttpError(404, "No presets found")) <==>
      0 <= skip && 1 <= limit <= 100 && |Filter(ordered, p => PresetMatches(p, inputType, outputType))| <= skip
    ensures r.Success? ==>
      0 < |r.value| && IsWindow(r.value, Filter(ordered, p => PresetMatches(p, inputType, outputType)), skip, limit)
    ensures r.Success? ==> forall k :: 0 <= k < |r.value| ==> r.value[k] in ordered && PresetMatches(r.value[k], inputType, outputType)
  {
    Page(Filter(ordered, p => PresetMatches(p, inputType, outputType)), skip, limit, "No presets found")
  }

  /**
   * A playlist as listed: with its jobs, or with its id, its name and the
   * primary keys of its job rows.
   */
  datatype PlaylistView = Deep(playlist: Playlist) | Shallow(id: string, name: string, jobRowIds: seq<string>)

  /**
   * The view of one playlist; `rowId` gives the primary key the database
   * assigned to the job row with each job id.
   */
  function View(p: Playlist, deep: bool, rowId: string -> string): PlaylistView
  {
    if deep then Deep(p) else Shallow(p.id, p.name, seq(|p.jobs|, j requires 0 <= j < |p.jobs| => rowId(p.jobs[j])))
  }

  /** The playlists a listing keeps: all of them, or those with the name when one is given. */
  function NamedPlaylists(ordered: seq<Playlist>, name: Option<string>): seq<Playlist>
  {
    Filter(ordered, (p: Playlist) => !Truthy(name) || p.name == name.value)
  }

  /**
   * `GET /playlists` over the playlists in name order, optionally filtered
   * by exact name; a shallow listing names each playlist's job rows by
   * their primary keys.
   */
  function ListPlaylists(ordered: seq<Playlist>, skip: int, deep: bool, limit: int, name: Option<string>, rowId: string -> string)
    : (r: Result<seq<PlaylistView>, ApiError>)
    ensures r == Failure(ValidationError) <==> skip < 0 || limit < 1 || limit > 100
    ensures r == Failure(HttpError(404, "No playlists found")) <==>
      0 <= skip && 1 <= limit <= 100 && |NamedPlaylists(ordered, name)| <= skip
    ensures r.Success? ==>
      0 <= skip && 0 < |r.value| <= limit && skip + |r.value| <= |NamedPlaylists(ordered, name)|
      && (|r.value| == limit || skip + |r.value| == |NamedPlaylists(ordered, name)|)
    ensures r.Success? ==> forall k :: 0 <= k < |r.value| ==>
      var p := NamedPlaylists(ordered, name)[skip + k];
      (Truthy(name) ==> p.name == name.value)
      && (deep ==> r.value[k] == Deep(p))
      && (!deep ==> r.value[k].Shallow? && r.value[k].id == p.id && r.value[k].name == p.name
                    && |r.value[k].jobRowIds| == |p.jobs|
                    && forall j :: 0 <= j < |p.jobs| ==> r.value[k].jobRowIds[j] == rowId(p.jobs[j]))
  {
    match Page(NamedPlaylists(ordered, name), skip, limit, "No playlists found")
    case Failure(e) => Failure(e)
    case Success(page) => Success(seq(|page|, k requires 0 <= k < |page| => View(page[k], deep, rowId)))
  }

  // ---------------------------------------------------------------- partial updates

  /** The body of `PUT /jobs/{job_id}`: the fields to change, in declaration order. */
  datatype JobUpdate = JobUpdate(
    inputPath: Option<string>, outputPath: Option<string>, pipeline: Option<string>, presetId: Option<string>,
    state: Option<string>, error: Option<string>, errorType: Option<string>)

  datatype JobAttr = InputPathAttr | OutputPathAttr | PipelineAttr | PresetIdAttr | StateAttr | ErrorAttr | ErrorTypeAttr

  function Present<A>(attr: A, v: Option<string>): seq<(A, string)>
  {
    if v.Some? then [(attr, v.value)] else []
  }

  /** `job.dict(exclude_none=True).items()`: the supplied fields with their values, in order. */
  function JobItems(u: JobUpdate): seq<(JobAttr, string)>
  {
    Present(InputPathAttr, u.inputPath) + Present(OutputPathAttr, u.outputPath) + Present(PipelineAttr, u.pipeline)
    + Present(PresetIdAttr, u.presetId) + Present(StateAttr, u.state) + Present(ErrorAttr, u.error)
    + Present(ErrorTypeAttr, u.errorType)
  }

  /** `setattr(job, key, value)` for one updatable column. */
  function SetJobAttr(job: Job, attr: JobAttr, v: string): Job
  {
    match attr
    case InputPathAttr => job.(inputPath := v)
    case OutputPathAttr => job.(outputPath := v)
    case PipelineAttr => job.(pipeline := v)
    case PresetIdAttr => job.(presetId := Some(v))
    case StateAttr => job.(state := v)
    case ErrorAttr => job.(error := Some(v))
    case ErrorTypeAttr => job.(errorType := Some(v))
  }

  /** The job after the `setattr` loop has run over `items`. */
  function SetJobAttrs(job: Job, items: seq<(JobAttr, string)>): Job
    decreases |items|
  {
    if items == [] then job else SetJobAttrs(SetJobAttr(job, items[0].0, items[0].1), items[1..])
  }

  /** The reference meaning of a partial update: a supplied field replaces the column, any other keeps it. */
  function PatchedJob(job: Job, u: JobUpdate): Job
  {
    job.(inputPath := u.inputPath.GetOr(job.inputPath),
         outputPath := u.outputPath.GetOr(job.outputPath),
         pipeline := u.pipeline.GetOr(job.pipeline),
         presetId := if u.presetId.Some? then u.presetId else job.presetId,
         state := u.state.GetOr(job.state),
         error := if u.error.Some? then u.error else job.error,
         errorType := if u.errorType.Some? then u.errorType else job.errorType)
  }

  lemma {:induction false} SetJobAttrsAppend(job: Job, a: seq<(JobAttr, string)>, b: seq<(JobAttr, string)>)
    ensures SetJobAttrs(job, a + b) == SetJobAttrs(SetJobAttrs(job, a), b)
    decreases |a|
  {
    if a == [] {
      assert a + b == b;
    } else {
      assert (a + b)[0] == a[0] && (a + b)[1..] == a[1..] + b;
      SetJobAttrsAppend(SetJobAttr(job, a[0].0, a[0].1), a[1..], b);
    }
  }

  lemma SetJobAttrsPresent(job: Job, attr: JobAttr, v: Option<string>)
    ensures SetJobAttrs(job, Present(attr, v)) == if v.Some? then SetJobAttr(job, attr, v.value) else job
  {
    if v.Some? {
      assert Present(attr, v)[1..] == [];
    }
  }

  /** The `setattr` loop over the supplied fields performs exactly the partial update. */
  lemma {:induction false} SetJobAttrsIsPatch(job: Job, u: JobUpdate)
    ensures SetJobAttrs(job, JobItems(u)) == PatchedJob(job, u)
  {
    var p1, p2, p3, p4 := Present(InputPathAttr, u.inputPath), Present(OutputPathAttr, u.outputPath),
                          Present(PipelineAttr, u.pipeline), Present(PresetIdAttr, u.presetId);
    var p5, p6, p7 := Present(StateAttr, u.state), Present(ErrorAttr, u.error), Present(ErrorTypeAttr, u.errorType);
    SetJobAttrsAppend(job, p1 + p2 + p3 + p4 + p5 + p6, p7);
    SetJobAttrsAppend(job, p1 + p2 + p3 + p4 + p5, p6);
    SetJobAttrsAppend(job, p1 + p2 + p3 + p4, p5);
    SetJobAttrsAppend(job, p1 + p2 + p3, p4);
    SetJobAttrsAppend(job, p1 + p2, p3);
    SetJobAttrsAppend(job, p1, p2);
    var j1 := SetJobAttrs(job, p1);
    SetJobAttrsPresent(job, InputPathAttr, u.inputPath);
    var j2 := SetJobAttrs(j1, p2);
    SetJobAttrsPresent(j1, OutputPathAttr, u.outputPath);
    var j3 := SetJobAttrs(j2, p3);
    SetJobAttrsPresent(j2, PipelineAttr, u.pipeline);
    var j4 := SetJobAttrs(j3, p4);
    SetJobAttrsPresent(j3, PresetIdAttr, u.presetId);
    var j5 := SetJobAttrs(j4, p5);
    SetJobAttrsPresent(j4, StateAttr, u.state);
    var j6 := SetJobAttrs(j5, p6);
    SetJobAttrsPresent(j5, ErrorAttr, u.error);
    SetJobAttrsPresent(j6, ErrorTypeAttr, u.errorType);
  }

  /** The body of `PUT /presets/{preset_id}`. */
  datatype PresetUpdate = PresetUpdate(
    name: Option<string>, inputType: Option<string>, outputType: Option<string>, pipeline: Option<string>,
    resolution: Option<string>, videoEncoding: Option<string>, videoBitrate: Option<string>,
    audioEncoding: Option<string>, audioBitrate: Option<string>)

  datatype PresetAttr = NameAttr | InputTypeAttr | OutputTypeAttr | PresetPipelineAttr | ResolutionAttr
                      | VideoEncodingAttr | VideoBitrateAttr | AudioEncodingAttr | AudioBitrateAttr

  function PresetItems(u: PresetUpdate): seq<(PresetAttr, string)>
  {
    Present(NameAttr, u.name) + Present(InputTypeAttr, u.inputType) + Present(OutputTypeAttr, u.outputType)
    + Present(PresetPipelineAttr, u.pipeline) + Present(ResolutionAttr, u.resolution)
    + Present(VideoEncodingAttr, u.videoEncoding) + Present(VideoBitrateAttr, u.videoBitrate)
    + Present(AudioEncodingAttr, u.audioEncoding) + Present(AudioBitrateAttr, u.audioBitrate)
  }

  function SetPresetAttr(p: Preset, attr: PresetAttr, v: string): Preset
  {
    match attr
    case NameAttr => p.(name := v)
    case InputTypeAttr => p.(inputType := v)
    case OutputTypeAttr => p.(outputType := v)
    case PresetPipelineAttr => p.(pipeline := v)
    case ResolutionAttr => p.(resolution := Some(v))
    case VideoEncodingAttr => p.(videoEncoding := Some(v))
    case VideoBitrateAttr => p.(videoBitrate := Some(v))
    case AudioEncodingAttr => p.(audioEncoding := Some(v))
    case AudioBitrateAttr => p.(audioBitrate := Some(v))
  }

  function SetPresetAttrs(p: Preset, items: seq<(PresetAttr, string)>): Preset
    decreases |items|
  {
    if items == [] then p else SetPresetAttrs(SetPresetAttr(p, items[0].0, items[0].1), items[1..])
  }

  function Keep(u: Option<string>, old_: Option<string>): Option<string>
  {
    if u.Some? then u else old_
  }

  function PatchedPreset(p: Preset, u: PresetUpdate): Preset
  {
    p.(name := u.name.GetOr(p.name),
       inputType := u.inputType.GetOr(p.inputType),
       outputType := u.outputType.GetOr(p.outputType),
       pipeline := u.pipeline.GetOr(p.pipeline),
       resolution := Keep(u.resolution, p.resolution),
       videoEncoding := Keep(u.videoEncoding, p.videoEncoding),
       videoBitrate := Keep(u.videoBitrate, p.videoBitrate),
       audioEncoding := Keep(u.audioEncoding, p.audioEncoding),
       audioBitrate := Keep(u.audioBitrate, p.audioBitrate))
  }

  lemma {:induction false} SetPresetAttrsAppend(p: Preset, a: seq<(PresetAttr, string)>, b: seq<(PresetAttr, string)>)
    ensures SetPresetAttrs(p, a + b) == SetPresetAttrs(SetPresetAttrs(p, a), b)
    decreases |a|
  {
    if a == [] {
      assert a + b == b;
    } else {
      assert (a + b)[0] == a[0] && (a + b)[1..] == a[1..] + b;
      SetPresetAttrsAppend(SetPresetAttr(p, a[0].0, a[0].1), a[1..], b);
    }
  }

  lemma SetPresetAttrsPresent(p: Preset, attr: PresetAttr, v: Option<string>)
    ensures SetPresetAttrs(p, Present(attr, v)) == if v.Some? then SetPresetAttr(p, attr, v.value) else p
  {
    if v.Some? {
      assert Present(attr, v)[1..] == [];
    }
  }

  lemma SetPresetAttrsThen(p: Preset, a: seq<(PresetAttr, string)>, attr: PresetAttr, v: Option<string>)
    ensures SetPresetAttrs(p, a + Present(attr, v))
         == if v.Some? then SetPresetAttr(SetPresetAttrs(p, a), attr, v.value) else SetPresetAttrs(p, a)
  {
    SetPresetAttrsAppend(p, a, Present(attr, v));
    SetPresetAttrsPresent(SetPresetAttrs(p, a), attr, v);
  }

  /** The `setattr` loop over the supplied preset fields performs exactly the partial update. */
  /** The fields a preset update names first: name, types and pipeline. */
  function HeadItems(u: PresetUpdate): seq<(PresetAttr, string)>
  {
    Present(NameAttr, u.name) + Present(InputTypeAttr, u.inputType) + Present(OutputTypeAttr, u.outputType)
    + Present(PresetPipelineAttr, u.pipeline)
  }

  /** The optional encoding fields a preset update names last. */
  function TailItems(u: PresetUpdate): seq<(PresetAttr, string)>
  {
    Present(ResolutionAttr, u.resolution) + Present(VideoEncodingAttr, u.videoEncoding)
    + Present(VideoBitrateAttr, u.videoBitrate) + Present(AudioEncodingAttr, u.audioEncoding)
    + Present(AudioBitrateAttr, u.audioBitrate)
  }

  lemma SetHeadItems(p: Preset, u: PresetUpdate)
    ensures SetPresetAttrs(p, HeadItems(u))
         == p.(name := u.name.GetOr(p.name), inputType := u.inputType.GetOr(p.inputType),
               outputType := u.outputType.GetOr(p.outputType), pipeline := u.pipeline.GetOr(p.pipeline))
  {
    var q1, q2, q3 := Present(NameAttr, u.name), Present(InputTypeAttr, u.inputType), Present(OutputTypeAttr, u.outputType);
    SetPresetAttrsPresent(p, NameAttr, u.name);
    SetPresetAttrsThen(p, q1, InputTypeAttr, u.inputType);
    SetPresetAttrsThen(p, q1 + q2, OutputTypeAttr, u.outputType);
    SetPresetAttrsThen(p, q1 + q2 + q3, PresetPipelineAttr, u.pipeline);
  }

  lemma SetTailItems(p: Preset, u: PresetUpdate)
    ensures SetPresetAttrs(p, TailItems(u))
         == p.(resolution := Keep(u.resolution, p.resolution), videoEncoding := Keep(u.videoEncoding, p.videoEncoding),
               videoBitrate := Keep(u.videoBitrate, p.videoBitrate), audioEncoding := Keep(u.audioEncoding, p.audioEncoding),
               audioBitrate := Keep(u.audioBitrate, p.audioBitrate))
  {
    var q5, q6 := Present(ResolutionAttr, u.resolution), Present(VideoEncodingAttr, u.videoEncoding);
    var q7, q8 := Present(VideoBitrateAttr, u.videoBitrate), Present(AudioEncodingAttr, u.audioEncoding);
    SetPresetAttrsPresent(p, ResolutionAttr, u.resolution);
    SetPresetAttrsThen(p, q5, VideoEncodingAttr, u.videoEncoding);
    SetPresetAttrsThen(p, q5 + q6, VideoBitrateAttr, u.videoBitrate);
    SetPresetAttrsThen(p, q5 + q6 + q7, AudioEncodingAttr, u.audioEncoding);
    SetPresetAttrsThen(p, q5 + q6 + q7 + q8, AudioBitrateAttr, u.audioBitrate);
  }

  /** The `setattr` loop over the supplied preset fields performs exactly the partial update. */
  lemma {:induction false} SetPresetAttrsIsPatch(p: Preset, u: PresetUpdate)
    ensures SetPresetAttrs(p, PresetItems(u)) == PatchedPreset(p, u)
  {
    assert PresetItems(u) == HeadItems(u) + TailItems(u);
    SetPresetAttrsAppend(p, HeadItems(u), TailItems(u));
    SetHeadItems(p, u);
    SetTailItems(SetPresetAttrs(p, HeadItems(u)), u);
  }

  /** Some preset other than `except` already has `name` (the name column is unique). */
  predicate NameTaken(presets: map<string, Preset>, name: string, except: string)
  {
    exists id :: id in presets && id != except && presets[id].name == name
  }

  // ---------------------------------------------------------------- playlists

  /** The body of `POST /playlists`. */
  datatype PlaylistCreate = PlaylistCreate(name: string, inputPath: string, presets: seq<string>)

  /** The answer of `POST /playlists`. */
  datatype PlaylistCreateOut = PlaylistCreateOut(playlistId: string, inputPath: string, jobs: seq<string>)

  /** The id of a playlist's i-th job: `{name}-{i}`. */
  function PlaylistJobName(name: string, i: nat): string
  {
    name + "-" + NatToString(i)
  }

  /** Where a playlist job writes its output: `{playlist_id}/{preset_id}/{job_id}.mp4`. */
  function PlaylistOutputPath(playlistId: string, presetId: string, jobId: string): string
  {
    playlistId + "/" + presetId + "/" + jobId + ".mp4"
  }

  /** The jobs of one playlist never share an id. */
  lemma PlaylistJobNamesDistinct(name: string, i: nat, j: nat)
    requires i != j
    ensures PlaylistJobName(name, i) != PlaylistJobName(name, j)
  {
    if PlaylistJobName(name, i) == PlaylistJobName(name, j) {
      var n := |name + "-"|;
      assert NatToString(i) == PlaylistJobName(name, i)[n..];
      assert NatToString(j) == PlaylistJobName(name, j)[n..];
      NatToStringInjective(i, j);
    }
  }

  /** A playlist job's output path starts with its playlist's id and names the job. */
  lemma PlaylistOutputPathShape(playlistId: string, presetId: string, jobId: string)
    ensures var path := PlaylistOutputPath(playlistId, presetId, jobId);
      path[..|playlistId| + 1] == playlistId + "/"
      && path[|path| - |jobId| - 4..] == jobId + ".mp4"
      && ('/' !in jobId ==> AfterLast(path, '/') == jobId + ".mp4")
  {
    var path := PlaylistOutputPath(playlistId, presetId, jobId);
    assert path == (playlistId + "/") + (presetId + "/" + jobId + ".mp4");
    assert path == (playlistId + "/" + presetId + "/") + (jobId + ".mp4");
    if '/' !in jobId {
      var tail := jobId + ".mp4";
      assert '/' !in tail;
      assert path[|path| - |tail| - 1] == '/';
    }
  }

  /** The i-th job a playlist creates. */
  function PlaylistJob(req: PlaylistCreate, playlistId: string, presets: map<string, Preset>, i: nat, now: nat): Job
    requires i < |req.presets| && req.presets[i] in presets
  {
    var jobId := PlaylistJobName(req.name, i);
    Job(jobId, req.inputPath, PlaylistOutputPath(playlistId, req.presets[i], jobId),
        presets[req.presets[i]].pipeline, Some(req.presets[i]), Queued, None, None, now, now, None, None)
  }

  /** The first `n` presets of the request exist. */
  predicate PresetsExist(req: PlaylistCreate, presets: map<string, Preset>, n: nat)
  {
    n <= |req.presets| && forall j :: 0 <= j < n ==> req.presets[j] in presets
  }

  /** The jobs table after the first `n` playlist jobs were created. */
  function WithPlaylistJobs(jobs: map<string, Job>, req: PlaylistCreate, playlistId: string,
                            presets: map<string, Preset>, now: nat, n: nat): map<string, Job>
    requires PresetsExist(req, presets, n)
    decreases n
  {
    if n == 0 then jobs
    else WithPlaylistJobs(jobs, req, playlistId, presets, now, n - 1)
           [PlaylistJobName(req.name, n - 1) := PlaylistJob(req, playlistId, presets, n - 1, now)]
  }

  /** The queue messages of the first `n` playlist jobs, in preset order. */
  function PlaylistMessages(req: PlaylistCreate, playlistId: string, presets: map<string, Preset>, now: nat, n: nat)
    : (r: seq<SubmissionMessage>)
    requires PresetsExist(req, presets, n)
    ensures |r| == n
    ensures forall k :: 0 <= k < n ==> r[k] == Submission(PlaylistJob(req, playlistId, presets, k, now))
    decreases n
  {
    if n == 0 then []
    else PlaylistMessages(req, playlistId, presets, now, n - 1) + [Submission(PlaylistJob(req, playlistId, presets, n - 1, now))]
  }

  /** The ids of the first `n` playlist jobs. */
  function PlaylistJobNames(name: string, n: nat): (r: seq<string>)
    ensures |r| == n && forall k :: 0 <= k < n ==> r[k] == PlaylistJobName(name, k)
  {
    if n == 0 then [] else PlaylistJobNames(name, n - 1) + [PlaylistJobName(name, n - 1)]
  }

  /**
   * The first `n` playlist jobs are all in the table with the rows the loop
   * gave them, and an id not among theirs keeps its old row.
   */
  lemma {:induction false} WithPlaylistJobsAt(jobs: map<string, Job>, req: PlaylistCreate, playlistId: string,
                                              presets: map<string, Preset>, now: nat, n: nat, id: string)
    requires PresetsExist(req, presets, n)
    ensures forall k :: 0 <= k < n ==> PlaylistJobName(req.name, k) in WithPlaylistJobs(jobs, req, playlistId, presets, now, n)
    ensures (forall k :: 0 <= k < n ==> id != PlaylistJobName(req.name, k)) ==>
      (id in WithPlaylistJobs(jobs, req, playlistId, presets, now, n) <==> id in jobs)
      && (id in jobs ==> WithPlaylistJobs(jobs, req, playlistId, presets, now, n)[id] == jobs[id])
    decreases n
  {
    if n > 0 {
      WithPlaylistJobsAt(jobs, req, playlistId, presets, now, n - 1, id);
    }
  }

  /** The id of the next playlist job is in use exactly when it was in use before the loop. */
  lemma PlaylistJobFresh(jobs: map<string, Job>, req: PlaylistCreate, playlistId: string,
                         presets: map<string, Preset>, now: nat, i: nat)
    requires PresetsExist(req, presets, i)
    ensures PlaylistJobName(req.name, i) in WithPlaylistJobs(jobs, req, playlistId, presets, now, i)
        <==> PlaylistJobName(req.name, i) in jobs
  {
    forall k | 0 <= k < i ensures PlaylistJobName(req.name, i) != PlaylistJobName(req.name, k) {
      PlaylistJobNamesDistinct(req.name, i, k);
    }
    WithPlaylistJobsAt(jobs, req, playlistId, presets, now, i, PlaylistJobName(req.name, i));
  }

  /** One more playlist job: one more row, one more queue message, one more linked id. */
  lemma PlaylistGrows(jobs: map<string, Job>, req: PlaylistCreate, playlistId: string,
                      presets: map<string, Preset>, now: nat, i: nat)
    requires PresetsExist(req, presets, i) && i < |req.presets| && req.presets[i] in presets
    ensures PresetsExist(req, presets, i + 1)
    ensures WithPlaylistJobs(jobs, req, playlistId, presets, now, i + 1)
         == WithPlaylistJobs(jobs, req, playlistId, presets, now, i)[PlaylistJobName(req.name, i) := PlaylistJob(req, playlistId, presets, i, now)]
    ensures PlaylistMessages(req, playlistId, presets, now, i + 1)
         == PlaylistMessages(req, playlistId, presets, now, i) + [Submission(PlaylistJob(req, playlistId, presets, i, now))]
  {
  }

  /** A playlist job may be created at step `i`: its preset exists and its id is still free. */
  predicate PlaylistStepOk(req: PlaylistCreate, presets: map<string, Preset>, jobs: map<string, Job>, i: nat)
    requires i < |req.presets|
  {
    req.presets[i] in presets && PlaylistJobName(req.name, i) !in jobs
  }

  /**
   * Where the playlist loop started at step `i` stops: the first step at or
   * after `i` that may not go ahead, or the number of presets when all may.
   */
  function PlaylistStop(req: PlaylistCreate, presets: map<string, Preset>, jobs: map<string, Job>, i: nat): (k: nat)
    requires i <= |req.presets|
    ensures i <= k <= |req.presets|
    ensures forall j :: i <= j < k ==> PlaylistStepOk(req, presets, jobs, j)
    ensures k < |req.presets| ==> !PlaylistStepOk(req, presets, jobs, k)
    ensures PresetsExist(req, presets, i) ==> PresetsExist(req, presets, k)
    decreases |req.presets| - i
  {
    if i == |req.presets| then i
    else if !PlaylistStepOk(req, presets, jobs, i) then i
    else PlaylistStop(req, presets, jobs, i + 1)
  }

  /** Some playlist already has this name. */
  predicate PlaylistNameTaken(playlists: map<string, Playlist>, name: string)
  {
    exists id :: id in playlists && playlists[id].name == name
  }

  // ---------------------------------------------------------------- progress socket greeting

  /** How a progress socket's handler ends its first phase. */
  datatype Ending = Ended | Crashed | Watching

  /** The messages a new progress socket receives first, and how its handler carries on. */
  datatype Greeting = Greeting(trace: seq<SocketEvent>, ending: Ending)

  /** A job that still has progress to report. */
  predicate Running(job: Job)
  {
    job.state == InProgress || job.state == Queued
  }

  /** The result message describing a finished job. */
  function Outcome(job: Job): ResultMessage
  {
    ResultMessage(job.jobId, job.state, None, None, Some(job.outputPath), job.error, job.errorType)
  }

  /**
   * The handler as written: after telling a client that the job does not
   * exist it goes on to read the missing job's state, which raises.
   */
  function GreetAsWritten(job: Option<Job>, lastProgress: map<string, ProgressMessage>, jobId: string, ws: Socket): (g: Greeting)
    ensures job.None? ==> g.trace == [Sent(ws, ErrorNotice("Job not yet submitted"))] && g.ending == Crashed
  {
    match job
    case None => Greeting([Sent(ws, ErrorNotice("Job not yet submitted"))], Crashed)
    case Some(j) => GreetKnown(j, lastProgress, jobId, ws)
  }

  /** The handler with the missing `return` after the "not yet submitted" notice. */
  function Greet(job: Option<Job>, lastProgress: map<string, ProgressMessage>, jobId: string, ws: Socket): (g: Greeting)
    ensures g.ending != Crashed
    ensures job.None? ==> g == Greeting([Sent(ws, ErrorNotice("Job not yet submitted"))], Ended)
    ensures g.ending == Watching <==> job.Some? && Running(job.value)
  {
    match job
    case None => Greeting([Sent(ws, ErrorNotice("Job not yet submitted"))], Ended)
    case Some(j) => GreetKnown(j, lastProgress, jobId, ws)
  }

  /**
   * For an existing job: a finished job's watcher gets one result message
   * with the job's state, error and error type, and is closed; a running
   * job's watcher gets the newest progress report, if any, and is registered.
   */
  function GreetKnown(job: Job, lastProgress: map<string, ProgressMessage>, jobId: string, ws: Socket): (g: Greeting)
    ensures !Running(job) ==>
      (g.ending == Ended && |g.trace| == 2 && g.trace[1] == Closed(ws)
       && g.trace[0].Sent? && g.trace[0].payload.ResultUpdate?
       && g.trace[0].payload.result.status == job.state
       && g.trace[0].payload.result.error == job.error
       && g.trace[0].payload.result.errorType == job.errorType)
    ensures Running(job) ==>
      (g.ending == Watching
       && g.trace == if jobId in lastProgress then [Sent(ws, ProgressUpdate(lastProgress[jobId]))] else [])
  {
    if !Running(job) then Greeting([Sent(ws, ResultUpdate(Outcome(job))), Closed(ws)], Ended)
    else if jobId in lastProgress then Greeting([Sent(ws, ProgressUpdate(lastProgress[jobId]))], Watching)
    else Greeting([], Watching)
  }

  /** The two greetings differ exactly on a job that does not exist. */
  lemma GreetingsAgreeOnKnownJobs(job: Option<Job>, lastProgress: map<string, ProgressMessage>, jobId: string, ws: Socket)
    ensures GreetAsWritten(job, lastProgress, jobId, ws) == Greet(job, lastProgress, jobId, ws) <==> job.Some?
  {
  }

  class Server {
    var jobs: map<string, Job>
    var presets: map<string, Preset>
    var playlists: map<string, Playlist>
    /** Every message published on the jobs queue, oldest first. */
    var queue: seq<SubmissionMessage>

    constructor ()
      ensures jobs == map[] && presets == map[] && playlists == map[] && queue == []
    {
      jobs, presets, playlists, queue := map[], map[], map[], [];
    }

    /**
     * `POST /submit_job`: resolves the pipeline, creates the job row (the
     * job id is unique) and publishes its message; an error leaves both the
     * table and the queue as they were.
     */
    method SubmitJob(req: TranscodingJob, now: nat) returns (r: Result<string, ApiError>)
      modifies this
      ensures presets == old(presets) && playlists == old(playlists)
      ensures Resolve(req, old(presets)).Failure? ==>
        r == Failure(Resolve(req, old(presets)).error) && jobs == old(jobs) && queue == old(queue)
      ensures Resolve(req, old(presets)).Success? && req.jobId in old(jobs) ==>
        r == Failure(IntegrityError) && jobs == old(jobs) && queue == old(queue)
      ensures Resolve(req, old(presets)).Success? && req.jobId !in old(jobs) ==>
        var job := NewJob(req.jobId, req.inputPath, req.outputPath, Resolve(req, old(presets)).value, now);
        r == Success(req.jobId) && jobs == old(jobs)[req.jobId := job] && queue == old(queue) + [Submission(job)]
    {
      var resolved := Resolve(req, presets);
      if resolved.Failure? {
        return Failure(resolved.error);
      }
      if req.jobId in jobs {
        return Failure(IntegrityError);
      }
      var job := NewJob(req.jobId, req.inputPath, req.outputPath, resolved.value, now);
      jobs := jobs[req.jobId := job];
      queue := queue + [Submission(job)];
      r := Success(req.jobId);
    }

    /**
     * `PUT /jobs/{job_id}`: the `setattr` loop over the supplied fields, then
     * a save that refreshes the update time. An unknown job gives a 404
     * whose detail reads "Preset not found".
     */
    method UpdateJob(jobId: string, u: JobUpdate, now: nat) returns (r: Result<Job, ApiError>)
      modifies this
      ensures presets == old(presets) && playlists == old(playlists) && queue == old(queue)
      ensures jobId !in old(jobs) ==> r == Failure(HttpError(404, "Preset not found")) && jobs == old(jobs)
      ensures jobId in old(jobs) ==>
        r == Success(PatchedJob(old(jobs)[jobId], u).(updatedAt := now))
        && jobs == old(jobs)[jobId := r.value]
    {
      if jobId !in jobs {
        return Failure(HttpError(404, "Preset not found"));
      }
      var job := jobs[jobId];
      var items := JobItems(u);
      var i := 0;
      while i < |items|
        invariant 0 <= i <= |items|
        invariant SetJobAttrs(job, items[i..]) == SetJobAttrs(old(jobs)[jobId], items)
      {
        assert items[i..][0] == items[i] && items[i..][1..] == items[i + 1..];
        job := SetJobAttr(job, items[i].0, items[i].1);
        i := i + 1;
      }
      assert items[i..] == [];
      SetJobAttrsIsPatch(old(jobs)[jobId], u);
      job := job.(updatedAt := now);
      jobs := jobs[jobId := job];
      r := Success(job);
    }

    /**
     * `PUT /presets/{preset_id}`: the same loop over the preset's supplied
     * fields; a save that would give two presets the same name is refused.
     */
    method UpdatePreset(presetId: string, u: PresetUpdate) returns (r: Result<Preset, ApiError>)
      modifies this
      ensures jobs == old(jobs) && playlists == old(playlists) && queue == old(queue)
      ensures presetId !in old(presets) ==> r == Failure(HttpError(404, "Preset not found")) && presets == old(presets)
      ensures presetId in old(presets) && NameTaken(old(presets), PatchedPreset(old(presets)[presetId], u).name, presetId) ==>
        r == Failure(IntegrityError) && presets == old(presets)
      ensures presetId in old(presets) && !NameTaken(old(presets), PatchedPreset(old(presets)[presetId], u).name, presetId) ==>
        r == Success(PatchedPreset(old(presets)[presetId], u)) && presets == old(presets)[presetId := r.value]
    {
      if presetId !in presets {
        return Failure(HttpError(404, "Preset not found"));
      }
      var preset := presets[presetId];
      var items := PresetItems(u);
      var i := 0;
      while i < |items|
        invariant 0 <= i <= |items|
        invariant SetPresetAttrs(preset, items[i..]) == SetPresetAttrs(old(presets)[presetId], items)
      {
        assert items[i..][0] == items[i] && items[i..][1..] == items[i + 1..];
        preset := SetPresetAttr(preset, items[i].0, items[i].1);
        i := i + 1;
      }
      assert items[i..] == [];
      SetPresetAttrsIsPatch(old(presets)[presetId], u);
      if exists id :: id in presets && id != presetId && presets[id].name == preset.name {
        return Failure(IntegrityError);
      }
      presets := presets[presetId := preset];
      r := Success(preset);
    }

    /**
     * `POST /playlists`: creates the playlist (its name is unique), then for
     * each preset in order creates job `{name}-{i}` with output
     * `{playlist_id}/{preset_id}/{job_id}.mp4`, links it and publishes it.
     * A missing preset (404) or a job id already in use (unique constraint)
     * stops the loop at `PlaylistStop`; what was done before stays done.
     */
    method CreatePlaylist(req: PlaylistCreate, playlistId: string, now: nat) returns (r: Result<PlaylistCreateOut, ApiError>)
      requires playlistId !in playlists
      modifies this
      ensures presets == old(presets)
      ensures PlaylistNameTaken(old(playlists), req.name) ==>
        r == Failure(IntegrityError) && jobs == old(jobs) && playlists == old(playlists) && queue == old(queue)
      ensures !PlaylistNameTaken(old(playlists), req.name) ==>
        var k := PlaylistStop(req, old(presets), old(jobs), 0);
        (r.Success? <==> k == |req.presets|)
        && (r.Success? ==> r.value == PlaylistCreateOut(playlistId, req.inputPath, PlaylistJobNames(req.name, k)))
        && (r.Failure? ==> r.error == if req.presets[k] !in old(presets) then HttpError(404, "Preset not found") else IntegrityError)
        && jobs == WithPlaylistJobs(old(jobs), req, playlistId, old(presets), now, k)
        && queue == old(queue) + PlaylistMessages(req, playlistId, old(presets), now, k)
        && playlists == old(playlists)[playlistId := Playlist(playlistId, req.name, PlaylistJobNames(req.name, k))]
    {
      if exists id :: id in playlists && playlists[id].name == req.name {
        return Failure(IntegrityError);
      }
      playlists := playlists[playlistId := Playlist(playlistId, req.name, [])];
      ghost var stop := PlaylistStop(req, presets, jobs, 0);
      var err: Option<ApiError> := None;
      var i := 0;
      while i < |req.presets| && err.None?
        invariant 0 <= i <= stop
        invariant err.None? ==> PlaylistStop(req, presets, old(jobs), i) == stop
        invariant err.Some? ==>
          i == stop < |req.presets|
          && err.value == if req.presets[i] !in presets then HttpError(404, "Preset not found") else IntegrityError
        invariant presets == old(presets)
        invariant PlaylistBuilt(old(jobs), old(queue), old(playlists), req, playlistId, now, i)
        decreases |req.presets| - i, err.None?
      {
        err := PlaylistStep(req, playlistId, now, i, old(jobs), old(queue), old(playlists));
        if err.None? {
          i := i + 1;
        }
      }
      if err.Some? {
        return Failure(err.value);
      }
      r := Success(PlaylistCreateOut(playlistId, req.inputPath, PlaylistJobNames(req.name, i)));
    }

    /** The tables and the queue once the first `i` jobs of a playlist have been created. */
    ghost predicate PlaylistBuilt(jobs0: map<string, Job>, queue0: seq<SubmissionMessage>, playlists0: map<string, Playlist>,
                                  req: PlaylistCreate, playlistId: string, now: nat, i: nat)
      reads this
    {
      PresetsExist(req, presets, i)
      && jobs == WithPlaylistJobs(jobs0, req, playlistId, presets, now, i)
      && queue == queue0 + PlaylistMessages(req, playlistId, presets, now, i)
      && playlists == playlists0[playlistId := Playlist(playlistId, req.name, PlaylistJobNames(req.name, i))]
    }

    /** Step `i` of the playlist loop: create, link and publish job `{name}-{i}`, or report why not. */
    method PlaylistStep(req: PlaylistCreate, playlistId: string, now: nat, i: nat,
                        ghost jobs0: map<string, Job>, ghost queue0: seq<SubmissionMessage>, ghost playlists0: map<string, Playlist>)
      returns (err: Option<ApiError>)
      requires i < |req.presets|
      requires PlaylistBuilt(jobs0, queue0, playlists0, req, playlistId, now, i)
      modifies this
      ensures presets == old(presets)
      ensures err.None? <==> PlaylistStepOk(req, presets, jobs0, i)
      ensures err.None? ==> PlaylistBuilt(jobs0, queue0, playlists0, req, playlistId, now, i + 1)
      ensures err.Some? ==>
        jobs == old(jobs) && queue == old(queue) && playlists == old(playlists)
        && err.value == if req.presets[i] !in presets then HttpError(404, "Preset not found") else IntegrityError
    {
      var presetId := req.presets[i];
      var jobId := PlaylistJobName(req.name, i);
      if presetId !in presets {
        return Some(HttpError(404, "Preset not found"));
      }
      PlaylistJobFresh(jobs0, req, playlistId, presets, now, i);
      if jobId in jobs {
        return Some(IntegrityError);
      }
      AddPlaylistJob(req, playlistId, now, i, jobs0, queue0, playlists0);
      err := None;
    }

    /** The success path of a playlist step: the job is created, linked to the playlist and published. */
    method AddPlaylistJob(req: PlaylistCreate, playlistId: string, now: nat, i: nat,
                          ghost jobs0: map<string, Job>, ghost queue0: seq<SubmissionMessage>, ghost playlists0: map<string, Playlist>)
      requires i < |req.presets| && req.presets[i] in presets
      requires PlaylistBuilt(jobs0, queue0, playlists0, req, playlistId, now, i)
      modifies this
      ensures presets == old(presets)
      ensures PlaylistBuilt(jobs0, queue0, playlists0, req, playlistId, now, i + 1)
    {
      var jobId := PlaylistJobName(req.name, i);
      var job := PlaylistJob(req, playlistId, presets, i, now);
      PlaylistGrows(jobs0, req, playlistId, presets, now, i);
      jobs := jobs[jobId := job];
      playlists := playlists[playlistId := Playlist(playlistId, req.name, PlaylistJobNames(req.name, i + 1))];
      queue := queue + [Submission(job)];
    }

    /**
     * `/progress/{job_id}`, as corrected: the greeting a new watcher gets
     * and, for a running job, its registration with the event manager. The
     * later disconnect is `EventManager.Disconnect`.
     */
    method WatchProgress(jobId: string, ws: Socket, consumer: WorkQueue) returns (g: Greeting)
      modifies consumer.events
      ensures g == Greet(if jobId in jobs then Some(jobs[jobId]) else None, consumer.lastProgress, jobId, ws)
      ensures g.ending == Watching ==>
        consumer.events.connections == old(consumer.events.connections)[jobId :=
          old(if jobId in consumer.events.connections then consumer.events.connections[jobId] else []) + [ws]]
      ensures g.ending != Watching ==> consumer.events.connections == old(consumer.events.connections)
      ensures consumer.events.log == old(consumer.events.log)
    {
      g := Greet(if jobId in jobs then Some(jobs[jobId]) else None, consumer.lastProgress, jobId, ws);
      if g.ending == Watching {
        consumer.events.AddConnection(jobId, ws);
      }
    }
  }
}
