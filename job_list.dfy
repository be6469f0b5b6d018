/**
 * The job list page: the jobs with their preset names, one progress socket
 * per running job, per-job progress, and downloads through a signed link.
 */
module JobList {
  import opened Wrappers
  import opened Text
  import opened Collections
  import opened Domain
  import opened Browser
  import opened Messages

  /** A row of the list as the page keeps it. */
  datatype ListedJob = ListedJob(jobId: string, inputPath: string, outputPath: string, state: string,
                                 presetId: Option<string>, presetName: string)

  /** A listed job with the preset name its lookup gave, or "Not found" when the lookup failed. */
  function WithPresetName(job: Job, lookup: Option<string>): (r: ListedJob)
    ensures r.jobId == job.jobId && r.state == job.state && r.presetId == job.presetId
    ensures r.presetName == if lookup.Some? then lookup.value else "Not found"
  {
    ListedJob(job.jobId, job.inputPath, job.outputPath, job.state, job.presetId,
              if lookup.Some? then lookup.value else "Not found")
  }

  /** The jobs whose progress the page subscribes to: those in progress, in list order. */
  function Watched(jobs: seq<ListedJob>): (r: seq<string>)
    ensures |r| <= |jobs|
    ensures forall k :: 0 <= k < |jobs| && jobs[k].state == InProgress ==> jobs[k].jobId in r
    ensures forall id :: id in r ==> exists k :: 0 <= k < |jobs| && jobs[k].jobId == id && jobs[k].state == InProgress
    decreases |jobs|
  {
    if jobs == [] then []
    else
      var init := jobs[..|jobs| - 1];
      var last := jobs[|jobs| - 1];
      var r := Watched(init);
      assert forall k :: 0 <= k < |init| ==> init[k] == jobs[k];
      if last.state == InProgress then r + [last.jobId] else r
  }

  /** One socket per running job: watching a list twice over subscribes twice as often. */
  lemma {:induction false} WatchedAppend(a: seq<ListedJob>, b: seq<ListedJob>)
    ensures Watched(a + b) == Watched(a) + Watched(b)
    decreases |b|
  {
    if b == [] {
      assert a + b == a;
    } else {
      var init := b[..|b| - 1];
      assert (a + b)[..|a + b| - 1] == a + init;
      assert (a + b)[|a + b| - 1] == b[|b| - 1];
      WatchedAppend(a, init);
    }
  }

  /** The progress map after a socket message for `jobId`: only progress-shaped messages are recorded. */
  function Upsert(progress: map<string, Field<real>>, jobId: string, m: WireMessage): (r: map<string, Field<real>>)
    ensures IsProgress(m) ==> r == progress[jobId := m.progress]
    ensures !IsProgress(m) ==> r == progress
    ensures forall id :: id != jobId ==> (id in r <==> id in progress) && (id in r ==> r[id] == progress[id])
  {
    if IsProgress(m) then progress[jobId := m.progress] else progress
  }

  /** What the progress ring shows for a running job: its recorded value, or 0 when none is recorded or it is falsy. */
  function Displayed(progress: map<string, Field<real>>, jobId: string): (v: real)
    ensures jobId !in progress ==> v == 0.0
    ensures jobId in progress && progress[jobId].Value? ==> v == progress[jobId].value
  {
    if jobId in progress && progress[jobId].Value? then progress[jobId].value else 0.0
  }

  /** The name a download is saved under: the path's last `/`-separated segment. */
  function DownloadName(s3Path: string): (r: string)
    ensures '/' !in r && |r| <= |s3Path| && r == s3Path[|s3Path| - |r|..]
    ensures |r| < |s3Path| ==> s3Path[|s3Path| - |r| - 1] == '/'
  {
    AfterLast(s3Path, '/')
  }

  /** A segment after a last `/` is the download name. */
  lemma {:induction false} DownloadNameOfPath(dir: string, name: string)
    requires '/' !in name
    ensures DownloadName(dir + "/" + name) == name
    decreases |name|
  {
    var s := dir + "/" + name;
    if name == [] {
      assert s[|s| - 1] == '/';
    } else {
      var init := name[..|name| - 1];
      assert s[..|s| - 1] == dir + "/" + init;
      assert s[|s| - 1] == name[|name| - 1];
      DownloadNameOfPath(dir, init);
      assert init + [name[|name| - 1]] == name;
    }
  }

  /** The signed link rewritten for the browser: the first `minio` becomes `localhost`. */
  function BrowserUrl(url: string): string
  {
    ReplaceFirst(url, "minio", "localhost")
  }

  /** A link naming the storage host once, at its start after the scheme, is pointed at `localhost`. */
  lemma BrowserUrlRewritesHost(scheme: string, rest: string)
    requires !Contains(scheme, "minio") && 'm' !in scheme
    ensures BrowserUrl(scheme + "minio" + rest) == scheme + "localhost" + rest
  {
    var s := scheme + "minio" + rest;
    var p := "minio";
    forall j: nat | j < |scheme| ensures !OccursAt(s, p, j) {
      if j + |p| <= |s| {
        assert s[j] == scheme[j] && scheme[j] != 'm' && p[0] == 'm';
        assert s[j..j + |p|][0] == s[j];
      }
    }
    assert s == scheme + p + rest;
    ContainsInfix(scheme, p, rest);
    assert OccursAt(s, p, |scheme|) by {
      assert s[|scheme|..|scheme| + |p|] == p;
    }
    var i := IndexOf(s, p).value;
    assert i == |scheme|;
    assert s[..i] == scheme && s[i + |p|..] == rest;
  }

  /** A started download: the signed link the API returned and the storage path it was asked for. */
  datatype Started = Started(signedUrl: string, s3Path: string)
  {
    /** The link the browser follows. */
    function Link(): string
    {
      BrowserUrl(signedUrl)
    }

    /** The name the file is saved under. */
    function FileName(): string
    {
      DownloadName(s3Path)
    }
  }

  class JobListPage {
    var jobs: seq<ListedJob>
    var loading: bool
    var loadingJob: Option<string>
    var alert: Option<Alert>
    var progress: map<string, Field<real>>
    /** Job ids a progress socket was opened for, oldest first. */
    var sockets: seq<string>
    /** Downloads started, oldest first. */
    var downloads: seq<Started>

    constructor ()
      ensures jobs == [] && !loading && loadingJob.None? && alert.None? && progress == map[]
      ensures sockets == [] && downloads == []
    {
      jobs := [];
      loading := false;
      loadingJob := None;
      alert := None;
      progress := map[];
      sockets := [];
      downloads := [];
    }

    /** `fetchJobs` followed by the `[jobs]` effect: store the rows and open a socket per running job. */
    method JobsLoaded(listed: seq<ListedJob>)
      modifies this
      ensures jobs == listed && sockets == old(sockets) + Watched(listed)
      ensures loading == old(loading) && loadingJob == old(loadingJob) && alert == old(alert)
      ensures progress == old(progress) && downloads == old(downloads)
    {
      jobs := listed;
      var i := 0;
      while i < |listed|
        invariant 0 <= i <= |listed|
        invariant jobs == listed
        invariant sockets == old(sockets) + Watched(listed[..i])
        invariant loading == old(loading) && loadingJob == old(loadingJob) && alert == old(alert)
        invariant progress == old(progress) && downloads == old(downloads)
      {
        assert listed[..i + 1][..i] == listed[..i];
        if listed[i].state == InProgress {
          sockets := sockets + [listed[i].jobId];
        }
        i := i + 1;
      }
      assert listed[..i] == listed;
    }

    /** A progress socket's `onmessage` for `jobId`. */
    method OnProgress(jobId: string, m: WireMessage)
      modifies this
      ensures progress == Upsert(old(progress), jobId, m)
      ensures jobs == old(jobs) && loading == old(loading) && loadingJob == old(loadingJob)
      ensures alert == old(alert) && sockets == old(sockets) && downloads == old(downloads)
    {
      if IsProgress(m) {
        progress := progress[jobId := m.progress];
      }
    }

    /** `downloadFile` once the bytes have arrived: the link is followed and a success alert shown. */
    method SaveDownload(started: Started)
      modifies this
      ensures downloads == old(downloads) + [started] && loadingJob.None?
      ensures alert == Some(Alert(SuccessAlert, "Download completed", true))
      ensures jobs == old(jobs) && progress == old(progress) && sockets == old(sockets) && loading == old(loading)
    {
      downloads := downloads + [started];
      loadingJob := None;
      alert := Some(Alert(SuccessAlert, "Download completed", true));
    }

    /**
     * `handleDownload`: ask for a signed link; on success fetch the file
     * through the rewritten link and save it under the path's last segment;
     * a failed request or a failed file fetch shows an error alert. Loading
     * is cleared after every attempt; the job stays marked as loading when
     * its file fetch fails. `fileFetch` is the outcome of `downloadFile`'s
     * own request: `None` when the bytes arrive, otherwise the error thrown.
     */
    method Download(s3Path: string, jobId: string, reply: Reply<string>, fileFetch: Option<string>)
      modifies this
      ensures !loading
      ensures jobs == old(jobs) && progress == old(progress) && sockets == old(sockets)
      ensures reply.Ok? && fileFetch.None? ==>
        downloads == old(downloads) + [Started(reply.body, s3Path)] && loadingJob.None?
        && alert == Some(Alert(SuccessAlert, "Download completed", true))
      ensures reply.Ok? && fileFetch.Some? ==>
        downloads == old(downloads) && loadingJob == Some(jobId)
        && alert == Some(Alert(ErrorAlert, "Error: " + fileFetch.value, false))
      ensures reply.NotOk? ==>
        downloads == old(downloads) && loadingJob == old(loadingJob) && alert == Some(Alert(ErrorAlert, "Error: " + reply.text, false))
      ensures reply.Thrown? ==>
        downloads == old(downloads) && loadingJob == old(loadingJob) && alert == Some(Alert(ErrorAlert, "Error: " + reply.message, false))
    {
      loading := true;
      if reply.Ok? {
        loadingJob := Some(jobId);
        if fileFetch.None? {
          SaveDownload(Started(reply.body, s3Path));
        } else {
          alert := Some(Alert(ErrorAlert, "Error: " + fileFetch.value, false));
        }
      } else if reply.NotOk? {
        alert := Some(Alert(ErrorAlert, "Error: " + reply.text, false));
      } else {
        alert := Some(Alert(ErrorAlert, "Error: " + reply.message, false));
      }
      loading := false;
    }
  }
}
