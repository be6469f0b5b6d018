/**
 * The API's consumer of the worker queues: it remembers the newest progress
 * report of every job, forwards progress and results to the job's sockets,
 * and periodically marks jobs stalled when they stopped reporting.
 */
module WorkQueues {
  import opened Wrappers
  import opened Domain
  import opened Managers

  /** Consecutive broker connection failures after which start-up gives up. */
  const MaxConnectionFailures := 12
  /** A job or progress report older than this many seconds counts as stale. */
  const StallSeconds := 60

  /**
   * Start-up's connection loop. `fails(k)` says whether the k-th attempt is
   * refused. It stops at the first accepted attempt, or raises once the
   * twelfth consecutive attempt has failed.
   */
  method InitChannels(fails: nat -> bool) returns (connected: bool, failures: nat)
    ensures failures <= MaxConnectionFailures
    ensures forall k :: 0 <= k < failures ==> fails(k)
    ensures connected <==> failures < MaxConnectionFailures
    ensures connected ==> !fails(failures)
  {
    failures := 0;
    while true
      invariant failures < MaxConnectionFailures
      invariant forall k :: 0 <= k < failures ==> fails(k)
      decreases MaxConnectionFailures - failures
    {
      if !fails(failures) {
        connected := true;
        return;
      }
      failures := failures + 1;
      if failures >= MaxConnectionFailures {
        connected := false;
        return;
      }
    }
  }

  /** The stall query: in progress and not updated for more than a minute. */
  predicate StallCandidate(job: Job, now: nat)
  {
    job.state == InProgress && job.updatedAt + StallSeconds < now
  }

  /** The job has no progress report, or its newest one is more than a minute old. */
  predicate ProgressStale(lastProgress: map<string, ProgressMessage>, id: string, now: nat)
  {
    id !in lastProgress || lastProgress[id].timestamp + StallSeconds < now
  }

  /** The stall rule for the job stored under `id`. */
  predicate StallsNow(jobs: map<string, Job>, lastProgress: map<string, ProgressMessage>, now: nat, id: string)
  {
    id in jobs && StallCandidate(jobs[id], now) && ProgressStale(lastProgress, id, now)
  }

  /** A stalled job, as saved: the save also refreshes its update time. */
  function MarkStalled(job: Job, now: nat): Job
  {
    job.(state := Stalled, updatedAt := now)
  }

  /** The completion message a stalled job's watchers get. */
  function StallNotice(id: string): ResultMessage
  {
    ResultMessage(id, Stalled, None, None, None, None, None)
  }

  /** The jobs table after one stall sweep. */
  function Swept(jobs: map<string, Job>, lastProgress: map<string, ProgressMessage>, now: nat): map<string, Job>
  {
    map id | id in jobs :: if StallsNow(jobs, lastProgress, now, id) then MarkStalled(jobs[id], now) else jobs[id]
  }

  /** The ids of `candidates` that the sweep marks, in query order. */
  function StallOrder(candidates: seq<string>, jobs: map<string, Job>, lastProgress: map<string, ProgressMessage>, now: nat): (r: seq<string>)
    ensures forall k :: 0 <= k < |r| ==> r[k] in candidates && StallsNow(jobs, lastProgress, now, r[k])
    ensures forall k :: 0 <= k < |candidates| && StallsNow(jobs, lastProgress, now, candidates[k]) ==> candidates[k] in r
    decreases |candidates|
  {
    if candidates == [] then []
    else
      var init := candidates[..|candidates| - 1];
      var id := candidates[|candidates| - 1];
      var r := StallOrder(init, jobs, lastProgress, now);
      assert forall k :: 0 <= k < |init| ==> init[k] == candidates[k];
      r + (if StallsNow(jobs, lastProgress, now, id) then [id] else [])
  }

  /** The completion broadcasts of a sweep, one after the other, to the marked ids. */
  function NotifyAll(conns: map<string, seq<Socket>>, log: seq<SocketEvent>, ids: seq<string>, gone: set<Socket>): (map<string, seq<Socket>>, seq<SocketEvent>)
    decreases |ids|
  {
    if ids == [] then (conns, log)
    else
      var before := NotifyAll(conns, log, ids[..|ids| - 1], gone);
      var id := ids[|ids| - 1];
      Send(before.0, before.1, id, "completion", ResultUpdate(StallNotice(id)), gone)
  }

  /** The jobs table part-way through a sweep, once the ids of `done` were checked in order. */
  function PartlySwept(jobs: map<string, Job>, lastProgress: map<string, ProgressMessage>, now: nat, done: seq<string>): map<string, Job>
    decreases |done|
  {
    if done == [] then jobs
    else
      var before := PartlySwept(jobs, lastProgress, now, done[..|done| - 1]);
      var id := done[|done| - 1];
      if StallsNow(jobs, lastProgress, now, id) then before[id := MarkStalled(jobs[id], now)] else before
  }

  lemma StallOrderStep(jobs: map<string, Job>, lastProgress: map<string, ProgressMessage>, now: nat,
                       candidates: seq<string>, i: nat)
    requires i < |candidates|
    ensures StallOrder(candidates[..i + 1], jobs, lastProgress, now)
            == StallOrder(candidates[..i], jobs, lastProgress, now)
               + (if StallsNow(jobs, lastProgress, now, candidates[i]) then [candidates[i]] else [])
    ensures PartlySwept(jobs, lastProgress, now, candidates[..i + 1])
            == (if StallsNow(jobs, lastProgress, now, candidates[i])
                then PartlySwept(jobs, lastProgress, now, candidates[..i])[candidates[i] := MarkStalled(jobs[candidates[i]], now)]
                else PartlySwept(jobs, lastProgress, now, candidates[..i]))
  {
    assert candidates[..i + 1][..i] == candidates[..i];
  }

  /** Checking the ids of `done` in any order marks exactly those of them that stall. */
  lemma {:induction false} PartlySweptAt(jobs: map<string, Job>, lastProgress: map<string, ProgressMessage>, now: nat,
                                         done: seq<string>, id: string)
    requires id in jobs
    ensures id in PartlySwept(jobs, lastProgress, now, done)
    ensures PartlySwept(jobs, lastProgress, now, done)[id]
            == if id in done && StallsNow(jobs, lastProgress, now, id) then MarkStalled(jobs[id], now) else jobs[id]
    decreases |done|
  {
    if done != [] {
      var init := done[..|done| - 1];
      assert done == init + [done[|done| - 1]];
      PartlySweptAt(jobs, lastProgress, now, init, id);
    }
  }

  lemma {:induction false} PartlySweptKeys(jobs: map<string, Job>, lastProgress: map<string, ProgressMessage>, now: nat,
                                           done: seq<string>)
    ensures PartlySwept(jobs, lastProgress, now, done).Keys == jobs.Keys
    decreases |done|
  {
    if done != [] {
      PartlySweptKeys(jobs, lastProgress, now, done[..|done| - 1]);
    }
  }

  lemma SweepDone(jobs: map<string, Job>, lastProgress: map<string, ProgressMessage>, now: nat, candidates: seq<string>)
    requires forall id :: id in jobs && StallCandidate(jobs[id], now) ==> id in candidates
    ensures PartlySwept(jobs, lastProgress, now, candidates) == Swept(jobs, lastProgress, now)
  {
    var a := PartlySwept(jobs, lastProgress, now, candidates);
    var b := Swept(jobs, lastProgress, now);
    forall id | id in jobs
      ensures id in a && a[id] == b[id]
    {
      PartlySweptAt(jobs, lastProgress, now, candidates, id);
    }
    PartlySweptKeys(jobs, lastProgress, now, candidates);
  }

  lemma NotifyAllStep(conns: map<string, seq<Socket>>, log: seq<SocketEvent>, ids: seq<string>, id: string, gone: set<Socket>)
    ensures NotifyAll(conns, log, ids + [id], gone)
            == Send(NotifyAll(conns, log, ids, gone).0, NotifyAll(conns, log, ids, gone).1,
                    id, "completion", ResultUpdate(StallNotice(id)), gone)
  {
    assert (ids + [id])[..|ids|] == ids;
  }

  /**
   * A sweep marks exactly the in-progress jobs that are more than a minute
   * old and have no fresh progress; every other row is left as it was.
   */
  lemma SweepMarksExactly(jobs: map<string, Job>, lastProgress: map<string, ProgressMessage>, now: nat, id: string)
    requires id in jobs
    ensures id in Swept(jobs, lastProgress, now)
    ensures Swept(jobs, lastProgress, now)[id].state == Stalled && jobs[id].state != Stalled
            <==> StallCandidate(jobs[id], now) && ProgressStale(lastProgress, id, now)
    ensures !StallsNow(jobs, lastProgress, now, id) ==> Swept(jobs, lastProgress, now)[id] == jobs[id]
  {
  }

  /** A job that reported progress within the last minute is never marked. */
  lemma FreshProgressPreventsStall(jobs: map<string, Job>, lastProgress: map<string, ProgressMessage>, now: nat, id: string)
    requires id in jobs && id in lastProgress && now <= lastProgress[id].timestamp + StallSeconds
    ensures Swept(jobs, lastProgress, now)[id] == jobs[id]
  {
  }

  /** Sweeping again at the same moment changes nothing more. */
  lemma {:induction false} SweepIdempotent(jobs: map<string, Job>, lastProgress: map<string, ProgressMessage>, now: nat)
    ensures Swept(Swept(jobs, lastProgress, now), lastProgress, now) == Swept(jobs, lastProgress, now)
  {
    var once := Swept(jobs, lastProgress, now);
    forall id | id in once
      ensures Swept(once, lastProgress, now)[id] == once[id]
    {
      assert !StallsNow(once, lastProgress, now, id);
    }
  }

  class WorkQueue {
    /** The newest progress report of each job, for newly connected watchers. */
    var lastProgress: map<string, ProgressMessage>
    const events: EventManager

    constructor (events: EventManager)
      ensures this.events == events && lastProgress == map[]
    {
      this.events := events;
      lastProgress := map[];
    }

    /**
     * A progress report: always remembered, even for an unknown job, and
     * forwarded to the job's watchers only when the job exists.
     */
    method ProgressCallback(msg: ProgressMessage, jobs: map<string, Job>, gone: set<Socket>)
      modifies this, events
      ensures lastProgress == old(lastProgress)[msg.jobId := msg]
      ensures msg.jobId in jobs ==>
        (events.connections, events.log)
        == Send(old(events.connections), old(events.log), msg.jobId, "progress", ProgressUpdate(msg), gone)
      ensures msg.jobId !in jobs ==> events.connections == old(events.connections) && events.log == old(events.log)
    {
      lastProgress := lastProgress[msg.jobId := msg];
      if msg.jobId !in jobs {
        return;
      }
      events.SendMessage(msg.jobId, "progress", ProgressUpdate(msg), gone);
    }

    /**
     * A result: the job's progress entry is dropped (if any), and a completed
     * or failed result of a known job is sent as a completion, which closes
     * the watchers' sockets.
     */
    method ResultCallback(result: ResultMessage, jobs: map<string, Job>, gone: set<Socket>)
      modifies this, events
      ensures lastProgress == old(lastProgress) - {result.jobId}
      ensures result.jobId in jobs && (result.status == Completed || result.status == Failed) ==>
        (events.connections, events.log)
        == Send(old(events.connections), old(events.log), result.jobId, "completion", ResultUpdate(result), gone)
      ensures !(result.jobId in jobs && (result.status == Completed || result.status == Failed)) ==>
        events.connections == old(events.connections) && events.log == old(events.log)
    {
      lastProgress := lastProgress - {result.jobId};
      if result.jobId !in jobs {
        return;
      }
      if result.status == Completed || result.status == Failed {
        events.SendMessage(result.jobId, "completion", ResultUpdate(result), gone);
      }
    }

    /** One candidate of the stall check: marked and announced when its last progress is stale. */
    method StallOne(swept: map<string, Job>, job: Job, id: string, now: nat, gone: set<Socket>)
      returns (swept': map<string, Job>, stalled: bool)
      modifies events
      ensures stalled <==> ProgressStale(lastProgress, id, now)
      ensures swept' == if stalled then swept[id := MarkStalled(job, now)] else swept
      ensures stalled ==>
        ((events.connections, events.log)
         == Send(old(events.connections), old(events.log), id, "completion", ResultUpdate(StallNotice(id)), gone))
      ensures !stalled ==> events.connections == old(events.connections) && events.log == old(events.log)
    {
      stalled := ProgressStale(lastProgress, id, now);
      swept' := swept;
      if stalled {
        swept' := swept[id := MarkStalled(job, now)];
        events.SendMessage(id, "completion", ResultUpdate(StallNotice(id)), gone);
      }
    }

    /**
     * One pass of the stall check. `candidates` is what the stall query
     * returned: every in-progress job not updated for more than a minute,
     * each once. Marked jobs are saved as stalled and their watchers get a
     * completion message with status "stalled" and no output or error.
     */
    method CheckStalledJobs(jobs: map<string, Job>, candidates: seq<string>, now: nat, gone: set<Socket>)
      returns (swept: map<string, Job>, marked: seq<string>)
      requires forall i :: 0 <= i < |candidates| ==> candidates[i] in jobs && StallCandidate(jobs[candidates[i]], now)
      requires forall id :: id in jobs && StallCandidate(jobs[id], now) ==> id in candidates
      modifies events
      ensures swept == Swept(jobs, lastProgress, now)
      ensures marked == StallOrder(candidates, jobs, lastProgress, now)
      ensures (events.connections, events.log) == NotifyAll(old(events.connections), old(events.log), marked, gone)
    {
      swept := jobs;
      marked := [];
      var i := 0;
      assert swept == PartlySwept(jobs, lastProgress, now, candidates[..0]);
      while i < |candidates|
        invariant 0 <= i <= |candidates|
        invariant swept == PartlySwept(jobs, lastProgress, now, candidates[..i])
        invariant marked == StallOrder(candidates[..i], jobs, lastProgress, now)
        invariant (events.connections, events.log) == NotifyAll(old(events.connections), old(events.log), marked, gone)
      {
        var id := candidates[i];
        assert id in jobs && StallCandidate(jobs[id], now);
        assert StallsNow(jobs, lastProgress, now, id) == ProgressStale(lastProgress, id, now);
        StallOrderStep(jobs, lastProgress, now, candidates, i);
        NotifyAllStep(old(events.connections), old(events.log), marked, id, gone);
        var stalled;
        swept, stalled := StallOne(swept, jobs[id], id, now, gone);
        if stalled {
          marked := marked + [id];
        }
        i := i + 1;
      }
      assert candidates[..i] == candidates;
      SweepDone(jobs, lastProgress, now, candidates);
    }
  }
}
