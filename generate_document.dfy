/**
 * The background worker that drives one job from pending to done or error,
 * and the POST route that queues a job and starts it.
 */
module GenerateDocument {
  import opened Opt
  import opened JsText
  import opened DocumentJobs

  /** What a rejected promise carries: an `Error` object or any other value. */
  datatype Thrown = ErrorInstance(message: string) | OtherValue

  /** How the external generator call settled (an oracle: its result is not modelled). */
  datatype Settled = Resolved(text: string) | Rejected(reason: Thrown)

  /** `err instanceof Error ? err.message : "Unknown error"`. */
  function ErrorMessage(t: Thrown): string {
    match t
    case ErrorInstance(message) => message
    case OtherValue => "Unknown error"
  }

  /** The user prompt handed to the generator; absent or empty parts leave their line empty. */
  function BuildPrompt(title: string, description: Option<string>, context: Option<string>, prompt: Option<string>)
    : (r: string)
    ensures "Write a complete Markdown document titled: \"" + title + "\".\n" <= r
    ensures var tail := "\n\nReturn the full document in Markdown starting with # " + title;
            |tail| <= |r| && r[|r| - |tail|..] == tail
  {
    var head := "Write a complete Markdown document titled: \"" + title + "\".\n";
    var middle := (if Truthy(description) then "Description: " + description.value else "") + "\n"
                  + (if Truthy(context) then "Context: " + context.value else "") + "\n"
                  + (if Truthy(prompt) then "Instructions: " + prompt.value else "");
    var tail := "\n\nReturn the full document in Markdown starting with # " + title;
    PromptFrame(head, middle, tail);
    head + middle + tail
  }

  /** A text built as head, middle and tail starts with the head and ends with the tail. */
  lemma PromptFrame(head: string, middle: string, tail: string)
    ensures head <= head + middle + tail
    ensures (head + middle + tail)[|head + middle|..] == tail
  {
  }

  /**
   * The await points of the worker. `FinalDelay` keeps the generated text,
   * which the worker holds until it writes it into the record.
   */
  datatype Stage = FirstDelay | SecondDelay | AwaitingGenerator | FinalDelay(text: string) | Finished

  function StageRank(s: Stage): nat {
    match s
    case FirstDelay => 0
    case SecondDelay => 1
    case AwaitingGenerator => 2
    case FinalDelay(_) => 3
    case Finished => 4
  }

  /** One run of `generateDocumentInBackground`, suspended at an await point. */
  class Worker {
    const job: Job
    const prompt: string
    var stage: Stage

    /** Where the worker is fixes what the record holds; the record stays consistent throughout. */
    ghost predicate Valid()
      reads this, job
    {
      && job.Consistent()
      && match stage
         case FirstDelay => job.status == Generating && job.progress == 10
         case SecondDelay => job.status == Generating && job.progress == 25
         case AwaitingGenerator => job.status == Generating && job.progress == 40
         case FinalDelay(_) => job.status == Generating && job.progress == 85
         case Finished =>
           && job.status.IsTerminal()
           && (job.status == Error ==> job.progress == 40)
    }

    /**
     * Calling the worker: it looks the record up (the `!` assumes it is
     * there), marks it generating at 10% and suspends at its first delay,
     * all before the call returns to the caller.
     */
    constructor (registry: Registry, jobId: string, title: string, description: Option<string>,
                 prompt: Option<string>, context: Option<string>)
      requires jobId in registry.jobs && registry.jobs[jobId].IsQueued()
      modifies registry.jobs[jobId]
      ensures job == registry.jobs[jobId]
      ensures job.status == Generating && job.progress == 10
      ensures stage == FirstDelay && Valid()
      ensures this.prompt == BuildPrompt(title, description, context, prompt)
    {
      job := registry.jobs[jobId];
      this.prompt := BuildPrompt(title, description, context, prompt);
      stage := FirstDelay;
      new;
      job.status := Generating;
      job.progress := 10;
    }

    /**
     * Resuming at the await the worker is suspended on and running to the
     * next one. `outcome` is how the generator call settled; it is read only
     * when resuming from that call. Progress never goes down, the record
     * stays consistent, and a finished worker is never resumed.
     */
    method Resume(outcome: Settled)
      requires Valid() && stage != Finished
      modifies this, job
      ensures Valid()
      ensures old(job.progress) <= job.progress
      ensures StageRank(old(stage)) < StageRank(stage)
      ensures old(stage) == FirstDelay ==> stage == SecondDelay && job.progress == 25
      ensures old(stage) == SecondDelay ==> stage == AwaitingGenerator && job.progress == 40
      ensures old(stage) == AwaitingGenerator && outcome.Resolved? ==>
                stage == FinalDelay(outcome.text) && job.progress == 85
      ensures old(stage) == AwaitingGenerator && outcome.Rejected? ==>
                && stage == Finished && job.status == Error && job.progress == 40
                && job.error == Some(ErrorMessage(outcome.reason)) && job.content == None
      ensures old(stage).FinalDelay? ==>
                && stage == Finished && job.status == Done && job.progress == 100
                && job.content == Some(old(stage).text) && job.error == None
    {
      match stage
      case FirstDelay =>
        job.progress := 25;
        stage := SecondDelay;
      case SecondDelay =>
        job.progress := 40;
        stage := AwaitingGenerator;
      case AwaitingGenerator =>
        match outcome {
          case Resolved(text) =>
            job.progress := 85;
            stage := FinalDelay(text);
          case Rejected(reason) =>
            job.status := Error;
            job.error := Some(ErrorMessage(reason));
            stage := Finished;
        }
      case FinalDelay(text) =>
        job.progress := 100;
        job.content := Some(text);
        job.status := Done;
        stage := Finished;
    }

    /**
     * The rest of the run with nothing interleaved: a resolved generator
     * leaves the record done at 100% with the generated text, a rejected
     * one leaves it failed at 40% with the error message and no content.
     */
    method RunToEnd(outcome: Settled)
      requires Valid() && stage == FirstDelay
      modifies this, job
      ensures Valid() && stage == Finished
      ensures outcome.Resolved? ==>
                job.status == Done && job.progress == 100 && job.content == Some(outcome.text) && job.error == None
      ensures outcome.Rejected? ==>
                && job.status == Error && job.progress == 40 && job.content == None
                && job.error == Some(ErrorMessage(outcome.reason))
    {
      Resume(outcome);
      Resume(outcome);
      Resume(outcome);
      if stage != Finished {
        Resume(outcome);
      }
    }
  }

  /** The JSON the POST route answers with. */
  datatype PostResponse = BadRequest(error: string) | Queued(jobId: string, status: string)

  /**
   * POST: without a (truthy) job id or title the answer is 400 and nothing
   * is written; otherwise a pending record is stored under the id, the
   * worker is started without being awaited, and the answer says "pending".
   */
  method Post(registry: Registry, jobId: Option<string>, title: Option<string>, description: Option<string>,
              prompt: Option<string>, context: Option<string>)
    returns (response: PostResponse, worker: Worker?)
    modifies registry
    ensures !Truthy(jobId) || !Truthy(title) ==>
              response == BadRequest("Missing jobId or title") && worker == null && unchanged(registry)
    ensures Truthy(jobId) && Truthy(title) ==>
              && response == Queued(jobId.value, "pending")
              && worker != null && fresh(worker) && fresh(worker.job)
              && registry.jobs == old(registry.jobs)[jobId.value := worker.job]
              && worker.job.title == title.value && worker.job.description == description
              && worker.stage == FirstDelay && worker.Valid()
  {
    if !Truthy(jobId) || !Truthy(title) {
      return BadRequest("Missing jobId or title"), null;
    }
    var job := new Job(title.value, description);
    registry.Set(jobId.value, job);
    worker := new Worker(registry, jobId.value, title.value, description, prompt, context);
    response := Queued(jobId.value, "pending");
  }
}
