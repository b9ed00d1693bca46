/**
 * The status route: a stream that polls the registry every 400 ms for one
 * job and sends its snapshot until the job ends, the job stays missing for
 * 2000 ms, or the client goes away.
 */
module DocumentStatus {
  import opened Opt
  import opened JsText
  import opened DocumentJobs
  import opened StatusWire

  const PollIntervalMs: int := 400
  const NotFoundAfterMs: int := 2000

  /** The one event sent for a job that never showed up: only `status` and `error`. */
  const NotFoundMessage: StatusMessage :=
    StatusMessage(None, "error", None, None, None, None, Some("Job not found"))

  /**
   * The snapshot object for a found job: always id, status, progress and
   * title; content and description only when done; error only when failed.
   */
  function Snapshot(jobId: string, status: Status, progress: int, title: string,
                    content: Option<string>, description: Option<string>, error: Option<string>): StatusMessage
  {
    StatusMessage(
      Some(jobId), status.Name(), Some(progress), Some(title),
      if status == Done then content else None,
      if status == Done then description else None,
      if status == Error then error else None)
  }

  /** The snapshot of the record as it is at this instant. */
  function SnapshotOf(jobId: string, job: Job): StatusMessage
    reads job
  {
    Snapshot(jobId, job.status, job.progress, job.title, job.content, job.description, job.error)
  }

  /**
   * A snapshot of a consistent record is terminal exactly when the job is,
   * and a "done" snapshot always carries a title and the content.
   */
  lemma SnapshotFaithful(jobId: string, status: Status, progress: int, title: string,
                         content: Option<string>, description: Option<string>, error: Option<string>)
    requires content.Some? <==> status == Done
    ensures var m := Snapshot(jobId, status, progress, title, content, description, error);
      && CarriesDocument(m)
      && (IsTerminalMessage(m) <==> status.IsTerminal())
      && m.jobId == Some(jobId) && m.progress == Some(progress) && m.title == Some(title)
      && (m.content.Some? <==> status == Done)
      && (m.error.Some? ==> status == Error)
  {
  }

  /** One response stream, with the state its `start` callback keeps. */
  class Publisher {
    const jobId: string
    /** Milliseconds spent polling without finding the job (cumulative). */
    var waited: int
    /** The interval is still set. */
    var polling: bool
    /** The stream controller has been closed. */
    var closed: bool
    /** The 500 ms close-and-delete timeout is set and has not fired. */
    var deleteScheduled: bool
    /** Every event enqueued on the stream, in order. */
    var events: seq<StatusMessage>

    ghost predicate Valid()
      reads this
    {
      && 0 <= waited && waited % PollIntervalMs == 0
      && (polling ==> waited < NotFoundAfterMs && !closed && !deleteScheduled)
    }

    /** The stream's `start`: nothing sent yet, polling every 400 ms. */
    constructor (jobId: string)
      ensures this.jobId == jobId && Valid()
      ensures waited == 0 && polling && !closed && !deleteScheduled && events == []
    {
      this.jobId := jobId;
      waited := 0;
      polling := true;
      closed := false;
      deleteScheduled := false;
      events := [];
    }

    /** `send`: enqueueing on a closed stream throws, and the throw is swallowed. */
    method Send(m: StatusMessage)
      modifies this`events
      ensures events == if closed then old(events) else old(events) + [m]
    {
      if !closed {
        events := events + [m];
      }
    }

    /**
     * One firing of the interval. A missing job adds 400 ms to the wait and,
     * once the wait reaches 2000 ms (the fifth missing tick), sends "Job not
     * found", stops polling and closes. A found job is sent as a snapshot;
     * when that snapshot is terminal, polling stops and the close-and-delete
     * timeout is set. A cleared interval never fires.
     */
    method Tick(registry: Registry)
      requires Valid()
      modifies this
      ensures Valid()
      ensures !old(polling) ==> unchanged(this)
      ensures old(polling) && jobId !in registry.jobs ==>
                && waited == old(waited) + PollIntervalMs && !deleteScheduled
                && (old(waited) + PollIntervalMs >= NotFoundAfterMs ==>
                      events == old(events) + [NotFoundMessage] && !polling && closed)
                && (old(waited) + PollIntervalMs < NotFoundAfterMs ==>
                      events == old(events) && polling && !closed)
      ensures old(polling) && jobId in registry.jobs ==>
                && waited == old(waited) && !closed
                && events == old(events) + [SnapshotOf(jobId, registry.jobs[jobId])]
                && polling == !registry.jobs[jobId].status.IsTerminal()
                && deleteScheduled == !polling
    {
      if !polling {
        return;
      }
      var found := registry.Get(jobId);
      if found.None? {
        waited := waited + PollIntervalMs;
        if waited >= NotFoundAfterMs {
          Send(NotFoundMessage);
          polling := false;
          closed := true;
        }
        return;
      }
      var job := found.value;
      Send(SnapshotOf(jobId, job));
      if job.status == Done || job.status == Error {
        polling := false;
        deleteScheduled := true;
      }
    }

    /**
     * The 500 ms timeout after a terminal snapshot: closes the stream (a
     * second close is swallowed) and deletes the registry entry for this id.
     */
    method GraceElapsed(registry: Registry)
      requires Valid()
      modifies this, registry
      ensures Valid()
      ensures !old(deleteScheduled) ==> unchanged(this, registry)
      ensures old(deleteScheduled) ==>
                && closed && !deleteScheduled && !polling
                && registry.jobs == old(registry.jobs) - {jobId}
                && events == old(events) && waited == old(waited)
    {
      if !deleteScheduled {
        return;
      }
      closed := true;
      deleteScheduled := false;
      var _ := registry.Delete(jobId);
    }

    /**
     * The request's abort signal: polling stops and the stream closes. The
     * registry is not touched, and a pending close-and-delete still fires.
     */
    method Abort()
      requires Valid()
      modifies this
      ensures Valid()
      ensures !polling && closed
      ensures events == old(events) && waited == old(waited) && deleteScheduled == old(deleteScheduled)
    {
      polling := false;
      closed := true;
    }
  }

  datatype StatusResponse = BadRequest(error: string) | EventStream(publisher: Publisher)

  /** GET: no (truthy) `jobId` parameter means 400 and no stream. */
  method Get(jobIdParam: Option<string>) returns (response: StatusResponse)
    ensures !Truthy(jobIdParam) ==> response == BadRequest("Missing jobId")
    ensures Truthy(jobIdParam) ==>
              && response.EventStream? && fresh(response.publisher)
              && response.publisher.jobId == jobIdParam.value && response.publisher.Valid()
              && response.publisher.polling && response.publisher.waited == 0
              && response.publisher.events == [] && !response.publisher.closed
              && !response.publisher.deleteScheduled
  {
    if !Truthy(jobIdParam) {
      return BadRequest("Missing jobId");
    }
    var p := new Publisher(jobIdParam.value);
    response := EventStream(p);
  }
}
