/**
 * The records the API, the worker and the message queue share: jobs,
 * presets, playlists and the three kinds of queue message. Times are whole
 * seconds; progress percentages are kept opaque.
 */
module Domain {
  import opened Wrappers

  // The job states every component agrees on.
  const Queued := "queued"
  const InProgress := "in-progress"
  const Completed := "completed"
  const Failed := "failed"
  const Cancelled := "cancelled"
  const Stalled := "stalled"

  /** A row of the jobs table, keyed by `jobId`. */
  datatype Job = Job(
    jobId: string,
    inputPath: string,
    outputPath: string,
    pipeline: string,
    presetId: Option<string>,
    state: string,
    error: Option<string>,
    errorType: Option<string>,
    createdAt: nat,
    updatedAt: nat,
    startedAt: Option<nat>,
    completedAt: Option<nat>)

  /**
   * A row of the presets table. The descriptive columns are absent on the
   * rows the seeding inserts, which only fill in name, types and pipeline.
   */
  datatype Preset = Preset(
    presetId: string,
    name: string,
    inputType: string,
    outputType: string,
    resolution: Option<string>,
    videoEncoding: Option<string>,
    videoBitrate: Option<string>,
    audioEncoding: Option<string>,
    audioBitrate: Option<string>,
    pipeline: string)

  /** A playlist row with the job ids of its many-to-many relation, in insertion order. */
  datatype Playlist = Playlist(id: string, name: string, jobs: seq<string>)

  /** The message the API publishes on the jobs queue for a worker. */
  datatype SubmissionMessage = SubmissionMessage(
    jobId: string, inputPath: string, outputPath: string, transcodeOptions: string)

  /** The message a worker publishes when a job ends; also sent to progress subscribers. */
  datatype ResultMessage = ResultMessage(
    jobId: string,
    status: string,
    timestamp: Option<nat>,
    workerId: Option<string>,
    outputPath: Option<string>,
    error: Option<string>,
    errorType: Option<string>)

  /** A worker's progress report for a running job. */
  datatype ProgressMessage = ProgressMessage(timestamp: nat, workerId: string, jobId: string, progress: real)

  /** What the API writes to a progress socket. */
  datatype Payload =
    | ProgressUpdate(progress: ProgressMessage)
    | ResultUpdate(result: ResultMessage)
    | ErrorNotice(error: string)
}
