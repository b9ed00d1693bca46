/**
 * One job as the server's event loop runs it: the POST that queues it, the
 * worker's resumptions and the status stream's timers, interleaved in any
 * order. Whatever the order, the stream is a monotone view of the record.
 */
module JobLifecycle {
  import opened Opt
  import opened DocumentJobs
  import opened GenerateDocument
  import opened DocumentStatus
  import opened StatusWire
  import JobStore

  /** The next callback the event loop runs. */
  datatype Step =
    | Enqueue                          // the POST that writes the record and calls the worker
    | WorkerResumes(outcome: Settled)  // the worker's pending await settles
    | PollTick                         // the stream's interval fires
    | GraceTimeout                     // the stream's close-and-delete timeout fires
    | ClientAborts                     // the request's abort signal fires

  /** An event's optional fields agree with its status. */
  predicate FieldsMatchStatus(m: StatusMessage) {
    && (m.content.Some? <==> m.status == "done")
    && (m.error.Some? <==> m.status == "error")
    && (m.status != "error" ==> m.progress.Some?)
    && CarriesDocument(m)
  }

  /**
   * What a listener may rely on: progress values never go down, a terminal
   * event is the last one, and every event's fields match its status.
   */
  ghost predicate MonotoneView(events: seq<StatusMessage>) {
    && (forall i, j :: 0 <= i < j < |events| && events[i].progress.Some? && events[j].progress.Some? ==>
          events[i].progress.value <= events[j].progress.value)
    && (forall i :: 0 <= i < |events| - 1 ==> !IsTerminalMessage(events[i]))
    && (forall i :: 0 <= i < |events| ==> FieldsMatchStatus(events[i]))
  }

  /**
   * The facts that hold between callbacks: the stream agrees with the
   * worker that owns its record, and what it has sent never ran ahead of
   * the record.
   */
  ghost predicate Agrees(registry: Registry, publisher: Publisher, worker: Worker?)
    reads registry, publisher, if worker == null then {} else {worker, worker.job}
  {
    var jobId := publisher.jobId;
    var events := publisher.events;
    && publisher.Valid()
    && (worker == null ==> jobId !in registry.jobs)
    && (worker != null ==>
          && worker.Valid()
          && (jobId in registry.jobs ==> registry.jobs[jobId] == worker.job)
          && (jobId !in registry.jobs ==> !publisher.polling))
    && MonotoneView(events)
    && (forall k :: 0 <= k < |events| && events[k].progress.Some? ==>
          worker != null && events[k].progress.value <= worker.job.progress)
    && (events != [] && IsTerminalMessage(events[|events| - 1]) ==> !publisher.polling)
  }

  /**
   * `Enqueue`: the POST for the id writes the record and starts the worker
   * (an empty id or title is refused with 400 and starts nothing).
   */
  method EnqueueStep(registry: Registry, publisher: Publisher, title: string, description: Option<string>,
                     worker: Worker?)
    returns (worker': Worker?)
    requires Agrees(registry, publisher, worker) && worker == null
    modifies registry
    ensures Agrees(registry, publisher, worker')
    ensures worker' != null <==> publisher.jobId != "" && title != ""
    ensures worker' != null ==> fresh(worker') && fresh(worker'.job)
  {
    var _, w := Post(registry, Some(publisher.jobId), Some(title), description, None, None);
    worker' := w;
  }

  /** `WorkerResumes`: the worker runs to its next await (or to its end). */
  method ResumeStep(registry: Registry, publisher: Publisher, worker: Worker?, outcome: Settled)
    requires Agrees(registry, publisher, worker)
    modifies if worker == null then {} else {worker, worker.job}
    ensures Agrees(registry, publisher, worker)
  {
    if worker != null && worker.stage != Finished {
      worker.Resume(outcome);
    }
  }

  /** `PollTick`: at most one event is sent, and it keeps the view monotone. */
  method TickStep(registry: Registry, publisher: Publisher, worker: Worker?)
    requires Agrees(registry, publisher, worker)
    modifies publisher
    ensures Agrees(registry, publisher, worker)
  {
    var before := publisher.events;
    publisher.Tick(registry);
    if |publisher.events| > |before| {
      var m := publisher.events[|before|];
      assert publisher.events == before + [m];
      if worker != null && publisher.jobId in registry.jobs {
        var job := worker.job;
        SnapshotFaithful(publisher.jobId, job.status, job.progress, job.title,
                         job.content, job.description, job.error);
      }
    }
  }

  /** `GraceTimeout` and `ClientAborts` only stop the stream (and drop the record). */
  method StopStep(registry: Registry, publisher: Publisher, worker: Worker?, abort: bool)
    requires Agrees(registry, publisher, worker)
    modifies registry, publisher
    ensures Agrees(registry, publisher, worker)
  {
    if abort {
      publisher.Abort();
    } else {
      publisher.GraceElapsed(registry);
    }
  }

  /** At most one POST for the job: `queue_document` draws a new id for every job it queues. */
  predicate AtMostOneEnqueue(steps: seq<Step>) {
    forall i, j :: 0 <= i < j < |steps| && steps[i].Enqueue? ==> !steps[j].Enqueue?
  }

  /**
   * Runs `steps` against a stream opened for `jobId` before any record
   * exists under that id. The record is written by the one `Enqueue`, if
   * the steps hold one.
   */
  method Interleave(registry: Registry, publisher: Publisher, title: string, description: Option<string>,
                    steps: seq<Step>)
    returns (worker: Worker?)
    requires publisher.Valid() && publisher.polling && publisher.events == []
    requires publisher.jobId !in registry.jobs
    requires AtMostOneEnqueue(steps)
    modifies registry, publisher
    ensures MonotoneView(publisher.events)
    ensures worker != null ==> worker.Valid()
  {
    worker := null;
    var i := 0;
    while i < |steps|
      invariant 0 <= i <= |steps|
      invariant Agrees(registry, publisher, worker)
      invariant worker != null ==> fresh(worker) && fresh(worker.job)
      invariant worker != null ==> forall j :: i <= j < |steps| ==> !steps[j].Enqueue?
    {
      match steps[i] {
        case Enqueue =>
          worker := EnqueueStep(registry, publisher, title, description, worker);
        case WorkerResumes(outcome) =>
          ResumeStep(registry, publisher, worker, outcome);
        case PollTick =>
          TickStep(registry, publisher, worker);
        case GraceTimeout =>
          StopStep(registry, publisher, worker, false);
        case ClientAborts =>
          StopStep(registry, publisher, worker, true);
      }
      i := i + 1;
    }
  }

  /**
   * A stream opened before the POST: the first tick finds nothing and sends
   * nothing; the POST then runs the worker up to its first await, so the
   * next tick already sees "generating" at 10 (never "pending") and
   * polling goes on.
   */
  method LateRecord(jobId: string, title: string, description: Option<string>)
    returns (events: seq<StatusMessage>, stillPolling: bool)
    requires jobId != "" && title != ""
    ensures events == [Snapshot(jobId, Generating, 10, title, None, None, None)]
    ensures stillPolling
  {
    var registry := new Registry();
    var publisher := new Publisher(jobId);
    publisher.Tick(registry);
    var _, _ := Post(registry, Some(jobId), Some(title), description, None, None);
    publisher.Tick(registry);
    events, stillPolling := publisher.events, publisher.polling;
  }

  /**
   * What the one-POST restriction leaves out: a second POST for a job whose
   * worker has already reached 25 overwrites the record with a pending one
   * and starts a second worker, which sets "generating" at 10 at once; the
   * stream then sends 25 and, after it, 10.
   */
  method RepostRewinds(jobId: string, title: string) returns (events: seq<StatusMessage>)
    requires jobId != "" && title != ""
    ensures |events| == 2 && events[0].progress == Some(25) && events[1].progress == Some(10)
    ensures !MonotoneView(events)
  {
    var registry := new Registry();
    var publisher := new Publisher(jobId);
    var _, first := Post(registry, Some(jobId), Some(title), None, None, None);
    first.Resume(Resolved(""));
    publisher.Tick(registry);
    var _, second := Post(registry, Some(jobId), Some(title), None, None, None);
    publisher.Tick(registry);
    events := publisher.events;
  }

  /** What the browser's store makes of a snapshot of a consistent record. */
  function Expected(status: Status, progress: int, title: string, content: Option<string>,
                    description: Option<string>, error: Option<string>): JobStore.JobStatus
    requires content.Some? <==> status == Done
    requires error.Some? <==> status == Error
  {
    match status
    case Pending => JobStore.Generating(progress)
    case Generating => JobStore.Generating(progress)
    case Done => JobStore.Done(title, content.value, description)
    case Error => JobStore.Failed(error.value)
  }

  /**
   * The route's snapshot and the store's decoding agree: the store sees the
   * record's progress while it runs, the document when it is done and the
   * record's own message when it failed; "Job not found" arrives as that
   * failure.
   */
  lemma DecodeSnapshot(jobId: string, status: Status, progress: int, title: string,
                       content: Option<string>, description: Option<string>, error: Option<string>)
    requires content.Some? <==> status == Done
    requires error.Some? <==> status == Error
    ensures CarriesDocument(Snapshot(jobId, status, progress, title, content, description, error))
    ensures JobStore.Decode(Snapshot(jobId, status, progress, title, content, description, error))
            == Expected(status, progress, title, content, description, error)
    ensures JobStore.Decode(NotFoundMessage) == JobStore.Failed("Job not found")
  {
  }

  /**
   * Decoded through the store, a monotone stream is still monotone: the
   * progress a listener is shown never goes down, and only the last status
   * can be terminal.
   */
  lemma DecodedViewMonotone(events: seq<StatusMessage>)
    requires MonotoneView(events)
    ensures forall i :: 0 <= i < |events| ==> CarriesDocument(events[i])
    ensures forall i, j :: 0 <= i < j < |events| ==>
              var earlier, later := JobStore.Decode(events[i]), JobStore.Decode(events[j]);
              earlier.Generating? && later.Generating? ==> earlier.progress <= later.progress
    ensures forall i :: 0 <= i < |events| - 1 ==> !JobStore.Decode(events[i]).IsTerminal()
  {
  }
}
