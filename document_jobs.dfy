/**
 * The process-wide job registry: the `DocumentJob` record and the one map,
 * kept on `globalThis`, that every route reads and writes.
 */
module DocumentJobs {
  import opened Opt

  /** The `status` union of a job record. */
  datatype Status = Pending | Generating | Done | Error {

    predicate IsTerminal() {
      this == Done || this == Error
    }

    /** How the union member is spelled on the wire. */
    function Name(): string {
      match this
      case Pending => "pending"
      case Generating => "generating"
      case Done => "done"
      case Error => "error"
    }
  }

  /**
   * A `DocumentJob` record. It is shared by reference: the worker keeps the
   * object it looked up and rewrites its fields while the status route reads
   * them. `title` and `description` are never reassigned.
   */
  class Job {
    var status: Status
    var progress: int
    const title: string
    var content: Option<string>
    const description: Option<string>
    var error: Option<string>

    /** The literal `{ status: "pending", progress: 0, title, description }`. */
    constructor (title: string, description: Option<string>)
      ensures IsQueued()
      ensures this.title == title && this.description == description
    {
      status := Pending;
      progress := 0;
      this.title := title;
      content := None;
      this.description := description;
      error := None;
    }

    /** The state in which an enqueue leaves a record. */
    predicate IsQueued()
      reads this
    {
      status == Pending && progress == 0 && content == None && error == None
    }

    /**
     * The record invariant: progress is a percentage, `content` is present
     * exactly when done, `error` exactly when failed, and done means 100.
     */
    predicate Consistent()
      reads this
    {
      && 0 <= progress <= 100
      && (content.Some? <==> status == Done)
      && (error.Some? <==> status == Error)
      && (status == Done ==> progress == 100)
    }
  }

  /** The shared `Map<string, DocumentJob>`. */
  class Registry {
    var jobs: map<string, Job>

    constructor ()
      ensures jobs == map[]
    {
      jobs := map[];
    }

    /** `documentJobs.get(id)`: the record, or `undefined`. */
    function Get(id: string): (r: Option<Job>)
      reads this
      ensures r.Some? <==> id in jobs
      ensures r.Some? ==> r.value == jobs[id]
    {
      if id in jobs then Some(jobs[id]) else None
    }

    /** `documentJobs.set(id, job)`: creates or overwrites. */
    method Set(id: string, job: Job)
      modifies this
      ensures jobs == old(jobs)[id := job]
    {
      jobs := jobs[id := job];
    }

    /** `documentJobs.delete(id)`: removes the entry, reporting whether there was one. */
    method Delete(id: string) returns (existed: bool)
      modifies this
      ensures existed <==> id in old(jobs)
      ensures jobs == old(jobs) - {id}
    {
      existed := id in jobs;
      jobs := jobs - {id};
    }
  }

  /** The process-global object, with the property the module attaches to it. */
  class GlobalThis {
    var documentJobs: Registry?

    constructor ()
      ensures documentJobs == null
    {
      documentJobs := null;
    }
  }

  /**
   * Evaluating the module: a new map is attached to `globalThis` only when
   * none is there yet, and the attached map is what the module exports.
   */
  method EvaluateModule(g: GlobalThis) returns (documentJobs: Registry)
    modifies g
    ensures g.documentJobs == documentJobs
    ensures old(g.documentJobs) != null ==> documentJobs == old(g.documentJobs)
    ensures old(g.documentJobs) == null ==> fresh(documentJobs) && documentJobs.jobs == map[]
  {
    if g.documentJobs == null {
      g.documentJobs := new Registry();
    }
    documentJobs := g.documentJobs;
  }

  /**
   * Two evaluations in one process (two routes, or a hot reload) export the
   * same map, whatever the first found.
   */
  method EvaluateTwice(g: GlobalThis) returns (first: Registry, second: Registry)
    modifies g
    ensures first == second && g.documentJobs == first
    ensures old(g.documentJobs) != null ==> first == old(g.documentJobs)
  {
    first := EvaluateModule(g);
    second := EvaluateModule(g);
  }
}
