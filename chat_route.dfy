/**
 * The chat route's own logic around the model call: whether the turn must
 * queue a document, the conversation context handed to background jobs,
 * and the `queue_document` tool that enqueues one.
 */
module ChatRoute {
  import opened Opt
  import opened JsText
  import opened DocumentJobs
  import opened GenerateDocument
  import opened FreshIds

  datatype ToolInvocation = ToolInvocation(toolName: string, state: string)

  /** A message part as the route reads it: its type, its text, its tool call. */
  datatype Part = Part(kind: string, text: Option<string>, toolInvocation: Option<ToolInvocation>)

  datatype UIMessage = UIMessage(role: string, parts: Option<seq<Part>>)

  /** `parts ?? []`. */
  function PartsOf(m: UIMessage): seq<Part> {
    m.parts.GetOr([])
  }

  /** A finished `collect_user_profile` call. */
  predicate IsProfileResult(p: Part) {
    && p.kind == "tool-invocation"
    && p.toolInvocation.Some?
    && p.toolInvocation.value.toolName == "collect_user_profile"
    && p.toolInvocation.value.state == "result"
  }

  /** Some assistant message, anywhere in the history, holds a finished profile call. */
  ghost predicate HasProfileResult(messages: seq<UIMessage>) {
    exists i, k :: 0 <= i < |messages| && messages[i].role == "assistant"
                   && 0 <= k < |PartsOf(messages[i])| && IsProfileResult(PartsOf(messages[i])[k])
  }

  /**
   * `lastToolResultIsProfile`: scans the messages from the newest back and
   * each assistant message's parts in order, stopping at the first
   * finished profile call.
   */
  method LastToolResultIsProfile(messages: seq<UIMessage>) returns (found: bool)
    ensures found <==> HasProfileResult(messages)
  {
    var i := |messages|;
    while i > 0
      invariant 0 <= i <= |messages|
      invariant forall j, k ::
                  i <= j < |messages| && messages[j].role == "assistant" && 0 <= k < |PartsOf(messages[j])| ==>
                  !IsProfileResult(PartsOf(messages[j])[k])
    {
      i := i - 1;
      var msg := messages[i];
      if msg.role == "assistant" {
        var parts := PartsOf(msg);
        var k := 0;
        while k < |parts|
          invariant 0 <= k <= |parts|
          invariant forall q :: 0 <= q < k ==> !IsProfileResult(parts[q])
        {
          if IsProfileResult(parts[k]) {
            return true;
          }
          k := k + 1;
        }
      }
    }
    return false;
  }

  /** `messages.slice(-6)`: the last six messages, or all of them. */
  function Recent(messages: seq<UIMessage>): (r: seq<UIMessage>)
    ensures |r| == if |messages| < 6 then |messages| else 6
    ensures r == messages[|messages| - |r|..]
  {
    if |messages| < 6 then messages else messages[|messages| - 6..]
  }

  /** The text of each "text" part, in order; a part without text joins as "". */
  function TextParts(parts: seq<Part>): (r: seq<string>)
    ensures |r| <= |parts|
    ensures (forall i :: 0 <= i < |parts| ==> parts[i].kind != "text") ==> r == []
    ensures (forall i :: 0 <= i < |parts| ==> parts[i].kind == "text") ==>
              |r| == |parts| && forall k :: 0 <= k < |r| ==> r[k] == parts[k].text.GetOr("")
    decreases |parts|
  {
    if parts == [] then []
    else
      assert forall i :: 1 <= i < |parts| ==> parts[1..][i - 1] == parts[i];
      (if parts[0].kind == "text" then [parts[0].text.GetOr("")] else []) + TextParts(parts[1..])
  }

  /** Filtering and mapping go part by part: the texts of two runs of parts are the two runs' texts. */
  lemma {:induction false} TextPartsAppend(a: seq<Part>, b: seq<Part>)
    ensures TextParts(a + b) == TextParts(a) + TextParts(b)
    decreases |a|
  {
    if a == [] {
      assert a + b == b;
    } else {
      var head := if a[0].kind == "text" then [a[0].text.GetOr("")] else [];
      Regroup(a, b);
      TextPartsCons(a[0], a[1..] + b);
      TextPartsCons(a[0], a[1..]);
      TextPartsAppend(a[1..], b);
      Assoc(head, TextParts(a[1..]), TextParts(b));
    }
  }

  /** A non-empty run followed by another is its first element followed by the rest of both. */
  lemma Regroup<T>(a: seq<T>, b: seq<T>)
    requires a != []
    ensures a == [a[0]] + a[1..] && a + b == [a[0]] + (a[1..] + b)
  {
  }

  /** Concatenation regroups freely. */
  lemma Assoc<T>(x: seq<T>, y: seq<T>, z: seq<T>)
    ensures x + (y + z) == (x + y) + z
  {
  }

  /** One part in front contributes its text, if it is a text part, before the rest's texts. */
  lemma TextPartsCons(p: Part, rest: seq<Part>)
    ensures TextParts([p] + rest) == (if p.kind == "text" then [p.text.GetOr("")] else []) + TextParts(rest)
  {
    assert ([p] + rest)[1..] == rest;
  }

  /** The space-joined text of the message's text parts. */
  function FullText(m: UIMessage): string {
    Join(TextParts(PartsOf(m)), " ")
  }

  /** The message's text parts joined with spaces, cut to its first 300 characters. */
  function MessageText(m: UIMessage): (r: string)
    ensures r <= FullText(m)
    ensures |r| == if |FullText(m)| < 300 then |FullText(m)| else 300
  {
    var text := FullText(m);
    if |text| <= 300 then text else text[..300]
  }

  /**
   * The line a message contributes: user and assistant messages whose cut
   * text is not empty, as the role, a colon and a space, then the text.
   */
  function Line(m: UIMessage): (r: Option<string>)
    ensures r.Some? <==> (m.role == "user" || m.role == "assistant") && FullText(m) != ""
    ensures r.Some? ==> IsContextLine(r.value) && m.role + ": " <= r.value && r.value[|m.role| + 2..] == MessageText(m)
  {
    if (m.role == "user" || m.role == "assistant") && MessageText(m) != "" then
      var line := m.role + ": " + MessageText(m);
      assert line[|m.role| + 2..] == MessageText(m);
      Some(line)
    else
      None
  }

  /**
   * A message has a line exactly when it is a user or assistant message
   * with two text parts or more (their joining space is text), or with one
   * text part whose text is not empty.
   */
  lemma LineExists(m: UIMessage)
    ensures Line(m).Some? <==>
              && (m.role == "user" || m.role == "assistant")
              && (|TextParts(PartsOf(m))| >= 2 || (|TextParts(PartsOf(m))| == 1 && TextParts(PartsOf(m))[0] != ""))
  {
    JoinEmpty(TextParts(PartsOf(m)), " ");
  }

  /** The shape of a context line: a speaker, then between 1 and 300 characters of text. */
  predicate IsContextLine(line: string) {
    || (StartsWith(line, "user: ") && 6 < |line| <= 306)
    || (StartsWith(line, "assistant: ") && 11 < |line| <= 311)
  }

  /** The lines of `messages`, in order, skipping those that contribute none. */
  function Lines(messages: seq<UIMessage>): (r: seq<string>)
    ensures |r| <= |messages|
    ensures forall k :: 0 <= k < |r| ==> IsContextLine(r[k])
    ensures r == [] <==> forall i :: 0 <= i < |messages| ==> Line(messages[i]).None?
    decreases |messages|
  {
    if messages == [] then []
    else
      var rest := Lines(messages[1..]);
      match Line(messages[0])
      case Some(line) => [line] + rest
      case None =>
        assert forall i :: 1 <= i < |messages| ==> messages[i] == messages[1..][i - 1];
        rest
  }

  /**
   * `filter`, `map`, `filter` work message by message: the lines of two
   * runs of messages are the lines of the first, then those of the second.
   */
  lemma {:induction false} LinesAppend(a: seq<UIMessage>, b: seq<UIMessage>)
    ensures Lines(a + b) == Lines(a) + Lines(b)
    decreases |a|
  {
    if a == [] {
      assert a + b == b;
    } else {
      assert (a + b)[0] == a[0] && (a + b)[1..] == a[1..] + b;
      LinesAppend(a[1..], b);
    }
  }

  /** One message gives its line, or nothing. */
  lemma LinesOne(m: UIMessage)
    ensures Line(m).Some? ==> Lines([m]) == [Line(m).value]
    ensures Line(m).None? ==> Lines([m]) == []
  {
    assert [m][1..] == [];
  }

  /**
   * `extractConversationContext`: the lines of the last six messages,
   * separated by newlines; empty exactly when none of them has a line.
   */
  function ExtractConversationContext(messages: seq<UIMessage>): (r: string)
    ensures r == "" <==> forall i :: 0 <= i < |Recent(messages)| ==> Line(Recent(messages)[i]).None?
  {
    var lines := Lines(Recent(messages));
    assert lines != [] ==> lines[0] != "";
    Join(lines, "\n")
  }

  /** With six messages or fewer, the context is all their lines, and it is empty exactly when they have none. */
  lemma ContextOfFew(a: seq<UIMessage>)
    requires |a| <= 6
    ensures ExtractConversationContext(a) == Join(Lines(a), "\n")
    ensures ExtractConversationContext(a) == "" <==> Lines(a) == []
  {
    assert Recent(a) == a;
    var la := Lines(a);
    JoinEmpty(la, "\n");
    if la != [] {
      assert IsContextLine(la[0]);
    }
  }

  /**
   * While there are at most six messages, one more message appends its line
   * to the context, after a newline when the context already has text; a
   * message without a line leaves the context as it was.
   */
  lemma ContextAddsLine(a: seq<UIMessage>, m: UIMessage)
    requires |a| < 6
    ensures Line(m).None? ==> ExtractConversationContext(a + [m]) == ExtractConversationContext(a)
    ensures Line(m).Some? && ExtractConversationContext(a) == "" ==>
              ExtractConversationContext(a + [m]) == Line(m).value
    ensures Line(m).Some? && ExtractConversationContext(a) != "" ==>
              ExtractConversationContext(a + [m]) == ExtractConversationContext(a) + "\n" + Line(m).value
  {
    ContextOfFew(a);
    ContextOfFew(a + [m]);
    LinesAppend(a, [m]);
    LinesOne(m);
    if Line(m).Some? {
      JoinSnoc(Lines(a), Line(m).value, "\n");
    } else {
      assert Lines(a) + [] == Lines(a);
    }
  }

  /** Messages older than the last six never reach the context. */
  lemma ContextIgnoresOlder(older: seq<UIMessage>, messages: seq<UIMessage>)
    requires |messages| >= 6
    ensures ExtractConversationContext(older + messages) == ExtractConversationContext(messages)
  {
    assert (older + messages)[|older + messages| - 6..] == messages[|messages| - 6..];
  }

  /**
   * The part of a chat turn decided before the model is called: the tool
   * the model is forced to call, if any, and the context for queued jobs.
   */
  method PlanTurn(messages: seq<UIMessage>) returns (toolChoice: Option<string>, context: string)
    ensures toolChoice.Some? <==> HasProfileResult(messages)
    ensures toolChoice.Some? ==> toolChoice.value == "queue_document"
    ensures context == ExtractConversationContext(messages)
  {
    var justGotProfile := LastToolResultIsProfile(messages);
    context := ExtractConversationContext(messages);
    toolChoice := if justGotProfile then Some("queue_document") else None;
  }

  /** The arguments the model passes to `queue_document`. */
  datatype QueueArgs = QueueArgs(action: string, title: string, description: Option<string>,
                                 documentId: Option<string>, prompt: string)

  /** What the tool returns to the model and to the browser. */
  datatype QueueResult = QueueResult(jobId: string, title: string, status: string, message: string)

  function QueuedMessage(title: string): string {
    "Document \"" + title + "\" is being generated in the background. The user will be notified when it's ready."
  }

  /**
   * `queue_document.execute`: a pending record under a new id, the worker
   * started on it (and not awaited), and the id returned at once. `action`
   * and `documentId` are not looked at here.
   */
  method QueueDocument(registry: Registry, ids: IdSource, args: QueueArgs, context: string)
    returns (result: QueueResult, worker: Worker)
    requires ids.Valid()
    modifies registry, ids
    ensures ids.Valid() && result.jobId !in old(ids.issued) && ids.issued == old(ids.issued) + {result.jobId}
    ensures result.title == args.title && result.status == "queued" && result.message == QueuedMessage(args.title)
    ensures fresh(worker) && fresh(worker.job)
    ensures registry.jobs == old(registry.jobs)[result.jobId := worker.job]
    ensures worker.job.title == args.title && worker.job.description == args.description
    ensures worker.stage == FirstDelay && worker.Valid()
    ensures worker.prompt == BuildPrompt(args.title, args.description, Some(context), Some(args.prompt))
  {
    var jobId := ids.Fresh();
    var job := new Job(args.title, args.description);
    registry.Set(jobId, job);
    worker := new Worker(registry, jobId, args.title, args.description, Some(args.prompt), Some(context));
    result := QueueResult(jobId, args.title, "queued", QueuedMessage(args.title));
  }
}
