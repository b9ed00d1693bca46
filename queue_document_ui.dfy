/**
 * The `queue_document` tool card in the browser: once the tool's result
 * names a job, it starts the job's stream, follows its statuses, and on the
 * first "done" creates or updates the document.
 */
module QueueDocumentUi {
  import opened Opt
  import opened JsText
  import JobStore
  import DocumentStore

  /** The arguments the model gave the tool. */
  datatype QueueDocArgs = QueueDocArgs(action: string, title: string, description: Option<string>,
                                       documentId: Option<string>, prompt: string)

  /** What the card shows. */
  datatype JobPhase = Waiting | Generating(progress: int) | Done | Error(error: string)

  /** The percentage on the progress bar: the progress while generating, 0 otherwise. */
  function DisplayedProgress(phase: JobPhase): (r: int)
    ensures phase.Generating? ==> r == phase.progress
    ensures !phase.Generating? ==> r == 0
  {
    if phase.Generating? then phase.progress else 0
  }

  /** The store call the first "done" leads to. */
  function DoneCall(args: QueueDocArgs, title: string, content: string, description: Option<string>)
    : (call: DocumentStore.StoreCall)
    ensures args.action == "update" && Truthy(args.documentId) ==>
              call == DocumentStore.UpdateCall(args.documentId.value, content, description)
    ensures !(args.action == "update" && Truthy(args.documentId)) ==>
              call == DocumentStore.CreateCall(title, content, description)
  {
    if args.action == "update" && Truthy(args.documentId) then
      DocumentStore.UpdateCall(args.documentId.value, content, description)
    else
      DocumentStore.CreateCall(title, content, description)
  }

  /** One mounted card, with its state and refs. */
  class QueueDocumentRenderer {
    /** The listener this card subscribes (its own callback). */
    const listener: JobStore.ListenerId
    var phase: JobPhase
    /** `watchedRef`. */
    var watched: bool
    /** `doneRef`. */
    var done: bool
    /** `argsRef`: the latest arguments, read by the callback when it runs. */
    var args: QueueDocArgs
    /** The job the effect subscribed to and has not yet unsubscribed from. */
    var subscription: Option<string>
    /** How many store calls the callback has asked for. */
    ghost var storeCalls: nat

    ghost predicate Valid()
      reads this
    {
      && storeCalls == (if done then 1 else 0)
      && (subscription.Some? ==> watched)
    }

    constructor (listener: JobStore.ListenerId, args: QueueDocArgs)
      ensures Valid() && this.listener == listener && this.args == args
      ensures phase == Waiting && !watched && !done && subscription.None?
    {
      this.listener := listener;
      this.args := args;
      phase := Waiting;
      watched := false;
      done := false;
      subscription := None;
      storeCalls := 0;
    }

    /**
     * The subscribe callback. Progress is shown as it comes (an equal
     * value leaves the phase as it was); the first "done" shows the
     * document as ready and asks for exactly one store call; later ones
     * are ignored; an error is shown with its message.
     */
    method OnStatus(s: JobStore.JobStatus) returns (call: DocumentStore.StoreCall)
      requires Valid()
      modifies this`phase, this`done, this`storeCalls
      ensures Valid()
      ensures call != DocumentStore.NoCall <==> s.Done? && !old(done)
      ensures s.Done? && !old(done) ==> call == DoneCall(args, s.title, s.content, s.description)
      ensures s.Generating? ==> phase == Generating(s.progress) && DisplayedProgress(phase) == s.progress
      ensures s.Generating? && old(phase) == Generating(s.progress) ==> phase == old(phase)
      ensures s.Done? ==> phase == (if old(done) then old(phase) else Done)
      ensures s.Failed? ==> phase == Error(s.error)
      ensures done == (old(done) || s.Done?)
    {
      call := DocumentStore.NoCall;
      if s.Generating? {
        if !(phase.Generating? && phase.progress == s.progress) {
          phase := Generating(s.progress);
        }
      }
      if s.Done? && !done {
        done := true;
        phase := Done;
        storeCalls := storeCalls + 1;
        call := DoneCall(args, s.title, s.content, s.description);
      }
      if s.Failed? {
        phase := Error(s.error);
      }
    }

    /**
     * The effect keyed on the result's job id: the first run with a job id
     * watches the job and subscribes, and a status already cached is
     * handed to the callback at once. Any other run does nothing.
     */
    method Effect(jobId: Option<string>, store: JobStore.Store) returns (call: DocumentStore.StoreCall)
      requires Valid() && store.Valid()
      modifies this, store
      ensures Valid() && store.Valid()
      ensures !Truthy(jobId) || old(watched) ==>
                unchanged(this) && unchanged(store) && call == DocumentStore.NoCall
      ensures Truthy(jobId) && !old(watched) ==>
                && watched && subscription == jobId
                && store.connections == old(store.connections) + {jobId.value}
                && store.streams == (if jobId.value in old(store.connections) then old(store.streams)
                                     else old(store.streams) + [JobStore.StreamUrl(jobId.value)])
                && store.listeners == old(store.listeners)[jobId.value := JobStore.Add(old(store.ListenersOf(jobId.value)), listener)]
                && store.jobs == old(store.jobs)
                && args == old(args)
                && (jobId.value !in store.jobs ==> call == DocumentStore.NoCall && phase == old(phase) && done == old(done))
                && (jobId.value in store.jobs ==>
                      var s := store.jobs[jobId.value];
                      && done == (old(done) || s.Done?)
                      && (s.Generating? ==> call == DocumentStore.NoCall && phase == Generating(s.progress))
                      && (s.Failed? ==> call == DocumentStore.NoCall && phase == Error(s.error))
                      && (s.Done? && old(done) ==> call == DocumentStore.NoCall && phase == old(phase))
                      && (s.Done? && !old(done) ==>
                            call == DoneCall(args, s.title, s.content, s.description) && phase == Done))
    {
      call := DocumentStore.NoCall;
      if !Truthy(jobId) || watched {
        return;
      }
      watched := true;
      store.Watch(jobId.value);
      var replayed := store.Subscribe(jobId.value, listener);
      subscription := jobId;
      if replayed != [] {
        call := OnStatus(replayed[0].status);
      }
    }

    /** The effect's cleanup: the function `subscribe` returned, run once. */
    method Cleanup(store: JobStore.Store)
      requires Valid() && store.Valid()
      modifies this`subscription, store`listeners
      ensures Valid() && store.Valid() && subscription.None?
      ensures store.listeners == Unsubscribed(old(store.listeners), old(subscription), listener)
      ensures old(subscription).Some? ==> listener !in store.ListenersOf(old(subscription).value)
    {
      if subscription.Some? {
        var jobId := subscription.value;
        store.Unsubscribe(jobId, listener);
        subscription := None;
      }
    }

    /** A cleanup that also re-arms the once-guard, so that a later run subscribes again. */
    method CleanupRearming(store: JobStore.Store)
      requires Valid() && store.Valid()
      modifies this`subscription, this`watched, store`listeners
      ensures Valid() && store.Valid() && subscription.None?
      ensures store.listeners == Unsubscribed(old(store.listeners), old(subscription), listener)
      ensures old(subscription).Some? ==> listener !in store.ListenersOf(old(subscription).value) && !watched
      ensures old(subscription).None? ==> watched == old(watched)
    {
      if subscription.Some? {
        Cleanup(store);
        watched := false;
      }
    }
  }

  /**
   * The listener sets after a card leaves the job it subscribed to: only
   * that job's set changes, losing only this listener; a card with no
   * subscription, or a job without a set, leaves every set as it was.
   */
  function Unsubscribed(listeners: map<string, seq<JobStore.ListenerId>>, subscription: Option<string>,
                        listener: JobStore.ListenerId): (r: map<string, seq<JobStore.ListenerId>>)
    ensures r.Keys == listeners.Keys
    ensures forall id :: id in r && subscription != Some(id) ==> r[id] == listeners[id]
    ensures subscription.Some? && subscription.value in r ==>
              forall y :: y in r[subscription.value] <==> y in listeners[subscription.value] && y != listener
  {
    if subscription.Some? && subscription.value in listeners then
      listeners[subscription.value := JobStore.Remove(listeners[subscription.value], listener)]
    else
      listeners
  }

  /**
   * React's development double mount on one card: effect, cleanup, effect.
   * The second run finds `watchedRef` already set and returns early, so the
   * card ends up subscribed to nothing and never hears of the job again.
   */
  method StrictRemount(store: JobStore.Store, listener: JobStore.ListenerId, args: QueueDocArgs, jobId: string)
    returns (subscribed: bool)
    requires store.Valid() && jobId != ""
    modifies store
    ensures !subscribed
  {
    var card := new QueueDocumentRenderer(listener, args);
    var _ := card.Effect(Some(jobId), store);
    card.Cleanup(store);
    var _ := card.Effect(Some(jobId), store);
    subscribed := listener in store.ListenersOf(jobId);
  }

  /**
   * The same double mount with the re-arming cleanup: the card is
   * subscribed afterwards, and the job still has one stream, opened once.
   */
  method StrictRemountRearming(store: JobStore.Store, listener: JobStore.ListenerId, args: QueueDocArgs,
                               jobId: string)
    returns (subscribed: bool)
    requires store.Valid() && jobId != ""
    requires jobId !in store.connections
    modifies store
    ensures subscribed
    ensures jobId in store.connections && store.streams == old(store.streams) + [JobStore.StreamUrl(jobId)]
  {
    var card := new QueueDocumentRenderer(listener, args);
    var _ := card.Effect(Some(jobId), store);
    card.CleanupRearming(store);
    var _ := card.Effect(Some(jobId), store);
    subscribed := listener in store.ListenersOf(jobId);
  }
}
