# distributed-transcoder, modelled in Dafny

The distributed transcoder turns uploaded videos into other formats with
GStreamer pipelines. It has three parts:

- The **API** takes job and playlist submissions and stores jobs, presets and
  playlists. It publishes one message per job on a work queue.
- A **worker** takes each message and, when the job is still `queued`, claims
  it. It downloads the input, substitutes the input, output and progress
  placeholders of the job's pipeline and runs it. It uploads the output,
  publishes a result, records it on the job row and acknowledges the delivery.
- The API relays worker progress and results to browsers watching a job over
  a WebSocket. It also marks a job `stalled` when an in-progress job stops
  reporting progress.

The React **front end** submits jobs, presets and playlists, checks names and
ids for availability, uploads files, shows progress and downloads results.

The model holds one module per core source file:

- `Managers`: the WebSocket registry.
- `WorkQueues`: progress and result relaying, the stall sweep and the broker
  retry counter.
- `Api`: the endpoints.
- `Seeding`: the built-in presets.
- `TranscodeErrors` and `TranscodeWorker`: the worker.
- One module per front-end component.

Helper modules:

- `Wrappers`: Option and Result.
- `Collections`: filter and list removal.
- `Text`: JavaScript `replace`, Python `str.replace`, `split().pop()` and
  decimal text.
- `Domain`: rows, queue messages and state names.
- `Pipelines`: launch lines with placeholders.
- `Browser`: JSON fields, replies and alerts.

How the model represents the system:

- The database is a set of maps keyed by id.
- A queue is the sequence of messages published on it.
- A WebSocket's fate is an input: the set of sockets whose send raises a
  disconnect.
- Every network reply is an input: OK with a body, a non-OK status with its
  text, or a thrown error.
- Time is whole seconds passed in as a parameter.

Where the code keeps state and changes it step by step, the model uses a class
with `modifies` clauses and loops with invariants. Examples are the connection
registry, the stall sweep, the `setattr` loops, the playlist loop, the seeding
loop, the worker's dispatch and the component handlers. Each such method is
proved against a function that states its meaning. Pure decisions are
functions with lemmas about them.

## Model

| member | source | states |
|---|---|---|
| Collections.Filter | api/distributed_transcoder_api/api.py:319-320 | keeps an element exactly when the predicate accepts it; never grows the list |
| Collections.FilterAppend | api/distributed_transcoder_api/api.py:319-320 | filtering a concatenation is the concatenation of the filtered halves |
| Collections.FilterNone | api/distributed_transcoder_api/api.py:319-320 | a list with no accepted element filters to the empty list |
| Collections.RemoveFirst | api/distributed_transcoder_api/managers.py:17 | `list.remove`: one element shorter; exactly one occurrence of the value is taken out of the multiset |
| Collections.RemoveEach | api/distributed_transcoder_api/managers.py:31-32 | removing each listed entry in turn takes exactly their multiset out |
| Collections.RemoveEachStep | api/distributed_transcoder_api/managers.py:31-32 | one pass of the removal loop: remove the first dead entry, then the rest |
| Collections.RemoveEachKeepsHead | api/distributed_transcoder_api/managers.py:31-32 | an element that is not among the removed ones keeps its place in front |
| Text.IndexOf | frontend/components/JobSubmission/Submit.tsx:50-53 | the first occurrence: the pattern occurs at the index and nowhere earlier; none exactly when it occurs nowhere |
| Text.ReplaceFirst | frontend/components/JobSubmission/Submit.tsx:50-53 | JavaScript `replace` with a string pattern: the text is unchanged when the pattern is absent; otherwise only its first occurrence is replaced |
| Text.ReplaceAllIsJoinOfSplit | worker/worker.py:208-212 | Python `str.replace` equals splitting on the pattern and joining with the replacement (an independent definition) |
| Text.ReplaceAllSelf | worker/worker.py:208-212 | replacing a pattern by itself changes nothing |
| Text.SplitJoinRoundTrip | worker/worker.py:208-212 | joining the pieces of a split with the separator gives back the text |
| Text.SplitHeadIsPrefix | worker/worker.py:208-212 | the first piece of a split is a prefix of the text |
| Text.SplitPiecesAreFree | worker/worker.py:208-212 | no piece of a split contains the separator |
| Text.AfterLast | frontend/components/JobSubmission/Upload.tsx:26 | `split(c).pop()`: a suffix free of `c`, preceded by `c` unless it is the whole text |
| Text.NatToString | api/distributed_transcoder_api/api.py:350 | the decimal text of an index: at least one digit, digits only |
| Text.ParseNatToString | api/distributed_transcoder_api/api.py:350 | reading the decimal text back gives the number (round trip) |
| Text.NatToStringInjective | api/distributed_transcoder_api/api.py:350 | different indices have different decimal texts |
| Pipelines.Placeholder | worker/worker.py:209-211 | the three placeholders are `{{` + word + `}}` |
| Pipelines.PlaceholderNotInOther | worker/worker.py:209-211 | no placeholder occurs inside another, so each replacement leaves the other two placeholders intact |
| Pipelines.TemplateBraceless | api/distributed_transcoder_api/seed.py:10-88 | the literal text of a built-in launch line has no `{` when its parameters have none |
| Pipelines.RenderContainsSlot | api/distributed_transcoder_api/seed.py:10-88 | every slot of a launch line appears in the rendered line with its filling |
| Pipelines.TemplateHasPlaceholders | api/distributed_transcoder_api/seed.py:10-88 | every built-in launch line as stored contains all three placeholders |
| Pipelines.ReplaceFillsSlot | worker/worker.py:208-212 | replacing one placeholder in a rendered line fills exactly that slot and leaves the others as they were |
| TranscodeErrors.ErrorType | worker/errors.py:7-32 | the `error_type` each subclass fixes; none equals `s3_download`, `s3_upload` or `unknown` |
| TranscodeErrors.KindOf | worker/errors.py:7-32 | the inverse of ErrorType: names a subclass exactly when that subclass has this error type |
| TranscodeErrors.Raise | worker/errors.py:1-4 | the exception keeps the subclass's error type and the message it was raised with |
| TranscodeErrors.ErrorTypeIdentifiesKind | worker/errors.py:7-32 | two exceptions have the same error type exactly when the same subclass raised them |
| Managers.EventManager.constructor | api/distributed_transcoder_api/managers.py:8-9 | the registry starts empty |
| Managers.EventManager.AddConnection | api/distributed_transcoder_api/managers.py:11-14 | appends the socket to the job's list, creating the list if needed; duplicates are kept; other jobs and the network are untouched |
| Managers.EventManager.Disconnect | api/distributed_transcoder_api/managers.py:16-17 | removes the first occurrence of the socket; an unknown job is a KeyError and an absent socket a ValueError, and both leave the map unchanged; the entry stays even when empty |
| Managers.EventManager.SendMessage | api/distributed_transcoder_api/managers.py:19-32 | an unknown job changes nothing; otherwise every socket is tried in order, the live ones are closed after a completion, and the list becomes exactly the survivors in their order |
| Managers.EventManager.SendOne | api/distributed_transcoder_api/managers.py:23-28 | one send: it fails exactly for a disconnected socket, and it records the send and, for a completion, the close |
| Managers.EventManager.Broadcast | api/distributed_transcoder_api/managers.py:21-28 | the send loop collects exactly the disconnected sockets, in order, and produces the whole send trace |
| Managers.EventManager.RemoveDead | api/distributed_transcoder_api/managers.py:31-32 | the removal loop leaves the list with the given dead entries removed |
| Managers.BroadcastTriesEverySocket | api/distributed_transcoder_api/managers.py:22-24 | every socket in the list is tried, once each, in list order |
| Managers.BroadcastClosesSurvivors | api/distributed_transcoder_api/managers.py:25-26 | a completion closes exactly the surviving sockets, in order; any other kind closes none |
| Managers.BroadcastSendsOnlyToLive | api/distributed_transcoder_api/managers.py:23-28 | every delivered message goes to a live socket and carries the payload |
| Managers.DeadIsSubMultiset | api/distributed_transcoder_api/managers.py:27-28 | the dead sockets collected are entries of the list, so each removal finds its entry |
| Managers.RemovingDeadLeavesSurvivors | api/distributed_transcoder_api/managers.py:21-32 | removing the collected dead entries one by one leaves exactly the live sockets in their original order |
| WorkQueues.InitChannels | api/distributed_transcoder_api/work_queue.py:35-53 | connection attempts stop at the first success or after the 12th consecutive failure; connected exactly when fewer than 12 failed |
| WorkQueues.StallOrder | api/distributed_transcoder_api/work_queue.py:148-160 | the ids the sweep marks are exactly the candidates that stall now |
| WorkQueues.SweepMarksExactly | api/distributed_transcoder_api/work_queue.py:154-165 | a job turns stalled exactly when it is in progress, was updated more than a minute ago, and has no progress or only progress more than a minute old; other jobs are unchanged |
| WorkQueues.FreshProgressPreventsStall | api/distributed_transcoder_api/work_queue.py:154-160 | a job with progress from the last minute is left as it is |
| WorkQueues.SweepIdempotent | api/distributed_transcoder_api/work_queue.py:148-165 | a second sweep at the same instant changes nothing |
| WorkQueues.WorkQueue.constructor | api/distributed_transcoder_api/work_queue.py:78-87 | no progress has been recorded yet |
| WorkQueues.WorkQueue.ProgressCallback | api/distributed_transcoder_api/work_queue.py:100-109 | the newest progress replaces the recorded one, even for an unknown job; it is relayed as "progress" only when the job exists |
| WorkQueues.WorkQueue.ResultCallback | api/distributed_transcoder_api/work_queue.py:122-133 | the job's progress is forgotten (absent or not); the result is relayed as a completion only for an existing job that completed or failed |
| WorkQueues.WorkQueue.StallOne | api/distributed_transcoder_api/work_queue.py:154-181 | one candidate: it stalls exactly when its progress is stale; a stalled job is marked and its watchers get a completion with status `stalled` and null fields |
| WorkQueues.WorkQueue.CheckStalledJobs | api/distributed_transcoder_api/work_queue.py:146-187 | the table after the loop is the sweep's result, the marked ids are StallOrder's, and the watchers of each marked job are notified in that order |
| Api.Resolve | api/distributed_transcoder_api/api.py:182-192 | a non-empty preset id wins and must exist (404); otherwise a pipeline must be given (400); the result carries the preset's or the request's pipeline |
| Api.Submission | api/distributed_transcoder_api/api.py:201-206 | the queue message carries the job's id, paths and pipeline as its transcode options |
| Api.Page | api/distributed_transcoder_api/api.py:216-225 | skip below 0 or limit outside 1..100 is a validation error; a 404 exactly when the page is empty; otherwise the rows from skip on, at most limit of them |
| Api.ListJobs | api/distributed_transcoder_api/api.py:216-225 | a validation error exactly when skip < 0 or limit is outside 1..100; a 404 exactly when no job lies at or past skip; otherwise the jobs from skip on, in order, at most limit of them and fewer only at the end |
| Api.ListPresets | api/distributed_transcoder_api/api.py:257-275 | the same bounds rule; a 404 exactly when the filtered list has nothing at or past skip; otherwise the filtered presets from skip on, in order, at most limit of them; each one matches the non-empty type filters |
| Api.ListPlaylists | api/distributed_transcoder_api/api.py:311-337 | the same bounds rule; a 404 exactly when the name-filtered list has nothing at or past skip; otherwise the filtered playlists from skip on, in order, at most limit of them, each with the requested name; deep lists the playlist, shallow its id, name and the primary keys of its job rows in order |
| Api.SetJobAttrsIsPatch | api/distributed_transcoder_api/api.py:244-246 | the `setattr` loop over the supplied fields changes exactly those fields, and every other field keeps its value |
| Api.SetJobAttrsAppend | api/distributed_transcoder_api/api.py:244-246 | running the loop over two runs of fields is running it over each in turn |
| Api.SetPresetAttrsIsPatch | api/distributed_transcoder_api/api.py:292-293 | the same for presets: supplied fields change, the rest keep their values |
| Api.PlaylistJobNamesDistinct | api/distributed_transcoder_api/api.py:350 | the jobs of one playlist get different ids `{name}-{i}` |
| Api.PlaylistOutputPathShape | api/distributed_transcoder_api/api.py:358 | the output path starts with the playlist id and `/` and ends with the job id and `.mp4`, which is its last segment |
| Api.PlaylistMessages | api/distributed_transcoder_api/api.py:372-385 | one queue message per created job, in preset order |
| Api.PlaylistJobNames | api/distributed_transcoder_api/api.py:387 | the returned job list is `{name}-0`, `{name}-1`, … in preset order |
| Api.WithPlaylistJobsAt | api/distributed_transcoder_api/api.py:361-367 | every job created is in the table, and every other row is untouched |
| Api.PlaylistJobFresh | api/distributed_transcoder_api/api.py:361-367 | the next job id clashes with the table exactly when it clashed before the loop |
| Api.PlaylistStop | api/distributed_transcoder_api/api.py:349-367 | the index where the loop stops: every earlier preset exists and its job id is free; at that index a preset is missing or an id is taken |
| Api.GreetAsWritten | api/distributed_transcoder_api/api.py:419-420 | as written: a missing job's socket is sent exactly the "Job not yet submitted" notice, and then the handler crashes |
| Api.Greet | api/distributed_transcoder_api/api.py:398-453 | a missing job gets "Job not yet submitted" and the socket is done; the socket stays registered exactly when the job is queued or in progress |
| Api.GreetKnown | api/distributed_transcoder_api/api.py:423-440 | a finished job's socket gets one result with the job's state, error and error type and is closed; a running job's socket gets the latest progress, if any |
| Api.GreetingsAgreeOnKnownJobs | api/distributed_transcoder_api/api.py:419-423 | the handler as written and the corrected one agree exactly when the job exists |
| Api.Server.SubmitJob | api/distributed_transcoder_api/api.py:182-212 | an error creates nothing and queues nothing; a duplicate id is refused; otherwise one job row and one queue message with the resolved pipeline |
| Api.Server.UpdateJob | api/distributed_transcoder_api/api.py:236-247 | an unknown job gets a 404 reading "Preset not found"; otherwise the row becomes the partial update of itself with a new update time |
| Api.Server.UpdatePreset | api/distributed_transcoder_api/api.py:286-295 | an unknown preset gets a 404; a rename onto another preset's name is refused; otherwise the row becomes its partial update |
| Api.Server.CreatePlaylist | api/distributed_transcoder_api/api.py:341-395 | a taken name is refused; otherwise the jobs up to PlaylistStop are created, linked and queued, and the call succeeds exactly when all presets were used, with a 404 or a unique-id error otherwise |
| Api.Server.PlaylistStep | api/distributed_transcoder_api/api.py:349-387 | one pass of the loop: it succeeds exactly when the preset exists and the job id is free, and otherwise changes nothing and names the error |
| Api.Server.AddPlaylistJob | api/distributed_transcoder_api/api.py:358-387 | creating, linking and queueing job i extends the built prefix by one |
| Api.Server.WatchProgress | api/distributed_transcoder_api/api.py:398-453 | the socket gets the greeting Greet describes and is registered exactly when the job is running |
| Seeding.SeedNamesDistinct | api/distributed_transcoder_api/seed.py:5-90 | there are 14 built-in presets, all named differently |
| Seeding.SeedTypes | api/distributed_transcoder_api/seed.py:5-90 | every input and output type is `mp4` or `mkv`, and it matches the demuxer and muxer of the launch line |
| Seeding.SeedPlaceholders | api/distributed_transcoder_api/seed.py:5-90 | every built-in pipeline contains all three placeholders |
| Seeding.SeedPipelineSubstitutes | api/distributed_transcoder_api/seed.py:5-90 | substituting a built-in pipeline fills its slots, so the line holds the input, the output and the progress element |
| Seeding.SeededKeepsRows | api/distributed_transcoder_api/seed.py:92-95 | seeding never changes or removes an existing preset and adds only rows under the new ids |
| Seeding.SeededNoop | api/distributed_transcoder_api/seed.py:92-95 | when every name is already present, seeding changes nothing |
| Seeding.SeededHasNames | api/distributed_transcoder_api/seed.py:92-95 | after seeding every built-in name is present |
| Seeding.SeedingIdempotent | api/distributed_transcoder_api/seed.py:92-95 | seeding twice gives the same table as seeding once |
| Seeding.InsertAbsent | api/distributed_transcoder_api/seed.py:92-95 | the insert-if-name-absent loop produces the seeded table and touches nothing else |
| Seeding.SeedPresets | api/distributed_transcoder_api/seed.py:5-95 | the seeding loop over the 14 built-in entries yields the seeded table and leaves jobs, playlists and the queue alone |
| TranscodeWorker.SubstituteFillsSlots | worker/worker.py:208-212 | the three replacements fill a stored line's slots with the output, the input and the progress element |
| TranscodeWorker.SubstituteBuiltIn | worker/worker.py:208-212 | the same for any built-in launch line |
| TranscodeWorker.OutputSubstitutedFirst | worker/worker.py:208-212 | the output file is replaced first: an output path spelling `{{input_file}}` ends up as the input path |
| TranscodeWorker.WatchdogStop | worker/worker.py:175-186 | the poll at which the watchdog stops: the first poll where the job has finished or progress is more than 60 seconds old |
| TranscodeWorker.CheckTimeout | worker/worker.py:171-186 | the watchdog loop stops at WatchdogStop and records a `pipeline_timeout` error exactly when it stopped on a timeout |
| TranscodeWorker.TranscodeAsWritten | worker/worker.py:189-259 | as written: succeeds exactly when parsing, playing and the loop succeed and nothing was recorded; a recorded plain error text is unpacked as a pair, so it fails untyped ("too many values to unpack" for texts longer than two characters) unless the text has exactly two characters |
| TranscodeWorker.Transcode | worker/worker.py:189-259 | as corrected (see Findings, worker/worker.py:127): succeeds with the output path exactly when parsing, playing and the loop succeed and no error was recorded; a recorded timeout raises PipelineTimeout and any other recorded error FailedMidTranscode |
| TranscodeWorker.TranscodeVersionsAgree | worker/worker.py:252-257 | the code as written and the corrected version agree unless the bus recorded a plain error text |
| TranscodeWorker.Classify | worker/worker.py:392-407 | a transcode exception keeps its type and message; any other exception becomes `unknown` with its message |
| TranscodeWorker.Verdict | worker/worker.py:336-439 | the dispatch: skip exactly when the job is missing or not queued; otherwise completed exactly when download, transcode and upload succeed, and failed with `s3_download`, the exception's type or `s3_upload` |
| TranscodeWorker.CompletedErrorIsNoneText | worker/worker.py:306-312 | recording a success stores the text "None" as the job's error |
| TranscodeWorker.FinishedResultsAreTerminal | worker/worker.py:433-439 | a processed job always ends completed or failed |
| TranscodeWorker.GstErrorMisreported | worker/worker.py:123-128 | a bus error ends as `unknown` with an unpacking error in the code as written, and as `mid_transcode` with the bus message when corrected |
| TranscodeWorker.Worker.SendTranscodeResult | worker/worker.py:273-313 | publishes one result, settles the job row if it exists (error stored as `str(error)`) and acknowledges the delivery once |
| TranscodeWorker.Worker.ProcessMessage | worker/worker.py:316-439 | with the corrected Transcode (see Findings, worker/worker.py:127): acknowledges every delivery exactly once; a skipped job changes nothing; a processed job is claimed, then settled with the Verdict, and its result is published |
| Messages.ShapesIndependent | frontend/components/Messages.tsx:18-34 | the three shape tests are independent: every combination of answers occurs |
| Messages.FromOption | frontend/components/Messages.tsx:1-7 | a Python None arrives as JSON null, never as an absent field |
| Messages.Received | frontend/components/Messages.tsx:18-34 | a progress message tests only as progress; a result tests as result and error; an error notice only as error |
| JobProgress.Classify | frontend/components/JobProgress.tsx:29-49 | a truthy error wins (not found); then completed, failed, progress; anything else is ignored |
| JobProgress.OtherResultsIgnored | frontend/components/JobProgress.tsx:29-49 | a result with another status, no truthy error and no progress changes nothing |
| JobProgress.ClassifyByStatus | frontend/components/JobProgress.tsx:34-43 | corrected order: a completed or failed status decides before the error field |
| JobProgress.ResultsShownByStatus | frontend/components/JobProgress.tsx:34-43 | with the corrected order, a finished job's result shows as completed or failed with its error |
| JobProgress.CompletedJobShownAsNotFound | frontend/components/JobProgress.tsx:29-33 | a completed job's result, whose error is "None", is shown as not found in the code as written |
| JobProgress.ProgressPanel.constructor | frontend/components/JobProgress.tsx:17-19 | nothing shown, no socket |
| JobProgress.ProgressPanel.Subscribe | frontend/components/JobProgress.tsx:23-24 | a socket is opened exactly when the job id is non-empty |
| JobProgress.ProgressPanel.Unsubscribe | frontend/components/JobProgress.tsx:62-66 | cleanup closes the socket |
| JobProgress.ProgressPanel.OnMessage | frontend/components/JobProgress.tsx:25-50 | sets status, error, progress and success as Classify decides; success and error are never both set |
| JobProgress.ProgressPanel.OnSocketError | frontend/components/JobProgress.tsx:51-56 | a socket error shows not found with its message and clears the rest |
| NewPreset.PresentVariables | frontend/components/PresetList/NewPreset.tsx:74-76 | all three placeholders are found exactly when each occurs in the pipeline |
| NewPreset.Validate | frontend/components/PresetList/NewPreset.tsx:59-85 | an empty field is reported first; then a missing placeholder; otherwise the draft is accepted |
| NewPreset.DefaultPipelineHasPlaceholders | frontend/components/PresetList/NewPreset.tsx:25 | the default pipeline contains all three placeholders |
| NewPreset.RepeatedPlaceholderAccepted | frontend/components/PresetList/NewPreset.tsx:67-85 | a pipeline with a placeholder twice passes, despite the "exactly once" message |
| NewPreset.NewPresetForm.constructor | frontend/components/PresetList/NewPreset.tsx:28-38 | blank fields with the default pipeline |
| NewPreset.NewPresetForm.Submit | frontend/components/PresetList/NewPreset.tsx:44-128 | an invalid draft alerts and sends nothing; a saved preset resets the form; a failed save keeps every field and alerts |
| JobSubmit.FileType | frontend/components/JobSubmission/Submit.tsx:29 | none for an empty input path; otherwise the dot-free suffix preceded by a `.` or equal to the whole path, that is the text after its last `.` |
| JobSubmit.FindPreset | frontend/components/JobSubmission/Submit.tsx:47 | `find`: the first preset with the id, or none exactly when no preset has it |
| JobSubmit.OutputPathFor | frontend/components/JobSubmission/Submit.tsx:50-53 | the input path is returned unchanged when it lacks `_in.{input_type}` |
| JobSubmit.UploadedInputGetsOutputPath | frontend/components/JobSubmission/Submit.tsx:45-57 | an uploaded `{job}_in.{input_type}` becomes `{job}_out.{output_type}` |
| JobSubmit.JobSubmitForm.constructor | frontend/components/JobSubmission/Submit.tsx:18-24 | empty draft, preset mode on |
| JobSubmit.JobSubmitForm.LoadPresets | frontend/components/JobSubmission/Submit.tsx:26-43 | a successful listing replaces the preset list and nothing else |
| JobSubmit.JobSubmitForm.ChoosePreset | frontend/components/JobSubmission/Submit.tsx:45-57 | a non-empty choice derives the output path and clears the pipeline; the empty option changes neither |
| JobSubmit.JobSubmitForm.EditOutputPath | frontend/components/JobSubmission/Submit.tsx:191 | typing changes only the output path |
| JobSubmit.JobSubmitForm.EditPipeline | frontend/components/JobSubmission/Submit.tsx:171-173 | possible only with presets off (the field is disabled otherwise); typing changes only the pipeline |
| JobSubmit.JobSubmitForm.Toggle | frontend/components/JobSubmission/Submit.tsx:59-65 | turning presets off clears the selection and the pipeline |
| JobSubmit.JobSubmitForm.Payload | frontend/components/JobSubmission/Submit.tsx:77-87 | carries the preset id in preset mode and the pipeline otherwise, never both |
| JobSubmit.JobSubmitForm.Submit | frontend/components/JobSubmission/Submit.tsx:67-115 | a missing field is an error and nothing is sent; on success the callback gets the pre-reset output path and the draft resets; on failure the text becomes the error |
| PlaylistSubmit.Empties | frontend/components/PlaylistSubmission/Submit.tsx:46-50 | the holes a JavaScript array gets when assigned past its end |
| PlaylistSubmit.Select | frontend/components/PlaylistSubmission/Submit.tsx:46-50 | only index i changes and the length stays (an index past the end grows the list) |
| PlaylistSubmit.AddSlot | frontend/components/PlaylistSubmission/Submit.tsx:52-54 | one empty slot appended; the prefix is unchanged |
| PlaylistSubmit.RemoveSlot | frontend/components/PlaylistSubmission/Submit.tsx:56-59 | exactly index i is dropped and the rest keep their order |
| PlaylistSubmit.RemoveUndoesAdd | frontend/components/PlaylistSubmission/Submit.tsx:52-59 | removing the slot just added restores the list |
| PlaylistSubmit.RemoveForgetsSelect | frontend/components/PlaylistSubmission/Submit.tsx:46-59 | removing a slot discards any selection made in it |
| PlaylistSubmit.PlaylistSubmitForm.constructor | frontend/components/PlaylistSubmission/Submit.tsx:21-25 | the selection starts as one empty slot |
| PlaylistSubmit.PlaylistSubmitForm.SelectPreset | frontend/components/PlaylistSubmission/Submit.tsx:46-50 | the selection becomes Select of the old one |
| PlaylistSubmit.PlaylistSubmitForm.AddPreset | frontend/components/PlaylistSubmission/Submit.tsx:52-54 | the selection becomes AddSlot of the old one |
| PlaylistSubmit.PlaylistSubmitForm.RemovePreset | frontend/components/PlaylistSubmission/Submit.tsx:56-59 | the selection becomes RemoveSlot of the old one |
| PlaylistSubmit.PlaylistSubmitForm.Submit | frontend/components/PlaylistSubmission/Submit.tsx:61-100 | needs an input path, a name and a non-empty list (empty slots pass); sends the list as is; on success the list empties and the callback gets the name |
| NewPlaylist.NameLookupFindsClash | frontend/components/PlaylistSubmission/NewPlaylist.tsx:73-80 | the server answers the name lookup with 404 exactly when no playlist has the name, and with 200 otherwise |
| NewPlaylist.NewPlaylistPanel.constructor | frontend/components/PlaylistSubmission/NewPlaylist.tsx:20-27 | every draft field at its initial value |
| NewPlaylist.NewPlaylistPanel.EditName | frontend/components/PlaylistSubmission/NewPlaylist.tsx:230 | typing changes only the provisional name |
| NewPlaylist.NewPlaylistPanel.CheckName | frontend/components/PlaylistSubmission/NewPlaylist.tsx:67-101 | empty name goes idle; 404 validates and commits; 200 or a thrown error invalidates with an alert; other codes stay loading; the upload section opens exactly after a 404 |
| NewPlaylist.NewPlaylistPanel.HandleUpload | frontend/components/PlaylistSubmission/NewPlaylist.tsx:42-45 | records the input path; the submit section opens exactly when the name was valid and the path is non-empty |
| NewPlaylist.NewPlaylistPanel.HandlePlaylistSubmit | frontend/components/PlaylistSubmission/NewPlaylist.tsx:47-55 | records the name, marks it submitted and shows the success alert |
| NewPlaylist.NewPlaylistPanel.ResetAfterSubmit | frontend/components/PlaylistSubmission/NewPlaylist.tsx:56-64 | every draft field back to its initial value and the panel closed |
| NewJob.NewJobPage.constructor | frontend/components/JobSubmission/NewJob.tsx:20-26 | empty draft, not submitted |
| NewJob.NewJobPage.EditId | frontend/components/JobSubmission/NewJob.tsx:165-166 | possible only before submission (the field is disabled after); typing changes only the provisional id |
| NewJob.NewJobPage.CheckId | frontend/components/JobSubmission/NewJob.tsx:53-82 | possible only before submission; an empty id does nothing; 404 commits the id; 200 alerts "already exists"; a thrown error alerts a validation failure |
| NewJob.NewJobPage.HandleUpload | frontend/components/JobSubmission/NewJob.tsx:41-44 | records the input path |
| NewJob.NewJobPage.HandleJobSubmit | frontend/components/JobSubmission/NewJob.tsx:46-51 | records the job id and output path and locks the id field |
| Uploads.RenamedFile | frontend/components/JobSubmission/Upload.tsx:24-30 | `{jobId}_in.{ext}` with ext the dot-free suffix of the chosen name preceded by a `.` or equal to the whole name, that is the text after its last `.` (`undefined` with no file) |
| Uploads.RenameKeepsExtension | frontend/components/JobSubmission/Upload.tsx:24-30 | renaming an already renamed file changes nothing |
| Uploads.AfterLastOfSuffix | frontend/components/JobSubmission/Upload.tsx:26 | the extension read back from `name.ext` is `ext` |
| Uploads.JobUpload.constructor | frontend/components/JobSubmission/Upload.tsx:16-20 | no file, no upload |
| Uploads.JobUpload.ChooseFile | frontend/components/JobSubmission/Upload.tsx:24-33 | stores the renamed file and resets progress |
| Uploads.JobUpload.Upload | frontend/components/JobSubmission/Upload.tsx:35-75 | no file is an error with no request; success records the server's file name; failures set the error; afterwards not uploading and no progress |
| Uploads.VideoUpload.constructor | frontend/components/VideoUpload.tsx:9-13 | no file, no upload |
| Uploads.VideoUpload.ChooseFile | frontend/components/VideoUpload.tsx:15-19 | stores the file unchanged and resets progress |
| Uploads.VideoUpload.Upload | frontend/components/VideoUpload.tsx:21-58 | the same outcomes as the job upload |
| SubmitJob.SubmitJobForm.constructor | frontend/components/SubmitJob.tsx:11-14 | empty draft |
| SubmitJob.SubmitJobForm.Submit | frontend/components/SubmitJob.tsx:16-50 | a missing field is an error with no request; otherwise the callback runs first, the payload mirrors the four inputs, a failure's text becomes the error, and submitting ends cleared |
| DownloadVideo.DownloadButton.constructor | frontend/components/DownloadVideo.tsx:12-13 | no link, not loading |
| DownloadVideo.DownloadButton.Click | frontend/components/DownloadVideo.tsx:14-36 | success stores the link, which then replaces the button exactly when it is non-empty; failure alerts; loading is cleared, so the button is enabled again exactly for a completed job |
| Pagination.Size | frontend/components/Pagination/Pagination.tsx:46-48 | the page sizes offered are 10, 25 and 50 |
| Pagination.OfferedSizesAreChoices | frontend/components/Pagination/Pagination.tsx:46-48 | every offered size is one of the choices |
| Pagination.PreviousPage | frontend/components/Pagination/Pagination.tsx:63-64 | Previous asks for the page before and, being disabled on page 1, never below 1 |
| Pagination.NextPage | frontend/components/Pagination/Pagination.tsx:72 | Next asks for the page after |
| Pagination.PreviousUndoesNext | frontend/components/Pagination/Pagination.tsx:62-72 | from any page, Previous is enabled after Next and returns to the page Next started from |
| PresetList.ListingRequestValid | frontend/components/PresetList/PresetList.tsx:66-68 | the skip and limit sent always pass the server's bounds; the server answers 404 exactly when the page is past the end |
| PresetList.PresetListView.constructor | frontend/components/PresetList/PresetList.tsx:29-39 | page 1 of size 10, fetched once |
| PresetList.PresetListView.Fetch | frontend/components/PresetList/PresetList.tsx:46-64 | one request; a successful list replaces the old one wholesale; loading ends cleared |
| PresetList.PresetListView.FetchPage | frontend/components/PresetList/PresetList.tsx:66-68 | skip is (page − 1) × size and limit is the size |
| PresetList.PresetListView.ChangePageSize | frontend/components/PresetList/PresetList.tsx:70-74 | the size changes, the page goes back to 1 and a refetch follows when either changed |
| PresetList.PresetListView.PressPrevious | frontend/components/PresetList/PresetList.tsx:266-273 | disabled on page 1; otherwise one page back and a refetch |
| PresetList.PresetListView.PressNext | frontend/components/PresetList/PresetList.tsx:266-273 | disabled on a short page; otherwise one page on and a refetch |
| PresetList.PresetListView.OpenCreate | frontend/components/PresetList/PresetList.tsx:95 | opens the creation form and changes nothing else |
| PresetList.PresetListView.PresetCreated | frontend/components/PresetList/PresetList.tsx:41-44 | a creation closes the form and refetches the current page |
| JobList.WithPresetName | frontend/components/JobList/JobList.tsx:63-72 | a failed preset lookup gives the name "Not found" |
| JobList.Watched | frontend/components/JobList/JobList.tsx:45-51 | a subscription for every in-progress job and none for other jobs |
| JobList.WatchedAppend | frontend/components/JobList/JobList.tsx:45-51 | the subscriptions for two lists are those of each in turn |
| JobList.Upsert | frontend/components/JobList/JobList.tsx:82-90 | a progress message sets the job's entry; other entries and non-progress messages change nothing |
| JobList.Displayed | frontend/components/JobList/JobList.tsx:320-323 | a job without an entry shows 0 |
| JobList.DownloadName | frontend/components/JobList/JobList.tsx:157 | the last `/`-separated segment of the S3 path |
| JobList.DownloadNameOfPath | frontend/components/JobList/JobList.tsx:157 | `dir/name` downloads as `name` |
| JobList.BrowserUrlRewritesHost | frontend/components/JobList/JobList.tsx:159 | the first `minio` of a signed URL becomes `localhost` and the rest is kept |
| JobList.JobListPage.constructor | frontend/components/JobList/JobList.tsx:32-39 | nothing loaded |
| JobList.JobListPage.JobsLoaded | frontend/components/JobList/JobList.tsx:45-78 | the list is replaced and one subscription is opened per in-progress job |
| JobList.JobListPage.OnProgress | frontend/components/JobList/JobList.tsx:80-101 | the progress map becomes its Upsert |
| JobList.JobListPage.SaveDownload | frontend/components/JobList/JobList.tsx:113-148 | records the download, clears the loading job and shows "Download completed" |
| JobList.JobListPage.Download | frontend/components/JobList/JobList.tsx:113-169 | success saves the file under DownloadName from the rewritten URL; a non-OK reply or a thrown error alerts with its text; a failed file fetch alerts with its message and leaves the job marked as loading; loading is always cleared |

## Left out

- GStreamer and GLib are not modelled: launching, the main loop, the bus callback and the watchdog thread. A run of a pipeline is an input that says whether parsing fails, whether playing fails, whether the loop raises and what error was recorded. The watchdog is a sequence of polls.
- The broker (pika, aio_pika), S3 (boto3), the Tortoise ORM and FastAPI routing are not modelled. Download and upload failures are inputs, the database is maps and the queues are sequences. Ids, UUIDs and clock readings are parameters. Job rows carry no primary key in the model: the shallow playlist listing takes the database's key for each job id as a parameter.
- WebSocket transport is not modelled. Which sockets have gone away is an input; the order in which several handlers interleave is not modelled.
- Floating point is not modelled: progress percentages, rounding and the upload and download percentages. Progress is an opaque real and timestamps are whole seconds.
- React rendering, styling, dialogs and `setTimeout` timers are not modelled. NewPlaylist's reset after submission is a separate step, ResetAfterSubmit. NewPreset's delayed `onSuccess` call is not modelled.
- Requests that overlap in time are not modelled. A reply is applied when its request is made, so a stale preset page that arrives after a newer one is not modelled.
- JavaScript `replace` is modelled for a plain string pattern. The `$` patterns of its replacement string are not modelled.
- The API's get-one and delete handlers, preset creation, the file upload and signed download handlers, and the root `worker.py`, `worker/work_queue.py` and `send_test_message.py` are broker or storage plumbing. They are not part of this model.
- The `input_s3_path` that `create_playlist` passes to the playlist row is not kept. The playlist row has no such column in the model.
- The descriptive preset columns (resolution, encodings, bitrates) are optional in the model, because the seeding inserts rows without them, while the schema declares them NOT NULL.
- TranscodeWorker.Worker.ProcessMessage: the dispatch uses the corrected Transcode. With the code as written (TranscodeAsWritten), a run whose bus handler recorded an error text ends failed with error type `unknown` and the unpacking error, not `mid_transcode` with the bus text; GstErrorMisreported states that difference.
- JobSubmit.JobSubmitForm.LoadPresets: a non-OK listing leaves the old list. The source stores whatever JSON the server sent, such as the 404 body.
- NewPreset.Validate: checks only that each placeholder is present, as the code does. Its message says "exactly once" (see RepeatedPlaceholderAccepted).
- The system's design notes say that JobList removes duplicate progress sockets and stops watching finished jobs, and that Pagination steps back a page on a 404. The code does none of this, and the model follows the code.

## Findings

| source | as written | input that shows it | evidently intended | confidence | as-written member | corrected member |
|---|---|---|---|---|---|---|
| api/distributed_transcoder_api/api.py:419-423 | after sending "Job not yet submitted" the handler goes on and reads `job.state` of a missing job | a progress socket opened for a job id that is not in the table | stop after the error message | not executed | Api.GreetAsWritten | Api.Greet |
| worker/worker.py:127 | the bus error handler stores a plain string, which lines 252-253 then unpack as a pair | any GStreamer ERROR message during the run | record the pair (`mid_transcode`, message), so that the job fails as `mid_transcode` with the bus message rather than as `unknown` with "too many values to unpack (expected 2)" | not executed | TranscodeWorker.GstErrorMisreported | TranscodeWorker.Transcode |
| frontend/components/JobProgress.tsx:29-43 | a truthy `error` is tested before the status; a completed job's row has error "None" (worker/worker.py:309), which the greeting sends | opening the progress view of a completed job | show it as completed | not executed | JobProgress.CompletedJobShownAsNotFound | JobProgress.ResultsShownByStatus |
