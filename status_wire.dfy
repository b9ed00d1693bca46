/** The JSON object carried by one event of the job-status stream. */
module StatusWire {
  import opened Opt

  /**
   * The event after `JSON.parse`: `status` is always present; a key that
   * `JSON.stringify` left out (its value was `undefined`) is `None`.
   */
  datatype StatusMessage = StatusMessage(
    jobId: Option<string>,
    status: string,
    progress: Option<int>,
    title: Option<string>,
    content: Option<string>,
    description: Option<string>,
    error: Option<string>)

  predicate IsTerminalMessage(m: StatusMessage) {
    m.status == "done" || m.status == "error"
  }

  /** What the client's status type takes for granted of a "done" event. */
  predicate CarriesDocument(m: StatusMessage) {
    m.status == "done" ==> m.title.Some? && m.content.Some?
  }
}
