# Document jobs of the chat app, in Dafny

This project models the part of the Next.js chat application that turns a
chat turn into a Markdown document produced in the background, and the
client pieces that show and store the result:

- the process-wide job registry kept on `globalThis` (`DocumentJobs`);
- the background worker that moves a job from "pending" through
  "generating" to "done" or "error", and the POST route that queues one
  (`GenerateDocument`);
- the status route, a stream that polls the registry every 400 ms and sends
  snapshots until the job ends, stays missing for 2000 ms, or the client
  aborts (`DocumentStatus`, with the JSON event in `StatusWire`);
- any interleaving of those callbacks on the server's event loop, with the
  property that the stream is a monotone view of the record
  (`JobLifecycle`);
- the browser's job store: the cached status per job, the listener sets,
  and at most one stream per job (`JobStore`);
- the chat route's decisions before the model call and its
  `queue_document` tool (`ChatRoute`, with ids drawn from `FreshIds`);
- the document store: documents with numbered versions, the active
  document and version, and the panel flag (`DocumentStore`);
- the two tool cards that write documents into the store
  (`DocumentToolUi`, `QueueDocumentUi`);
- the code block's HTML cache, cache key, language label, collapse rule,
  highlighting effect and expanded state (`CodeBlock`, with `JSON.stringify`
  of strings in `JsonText` and the HTML escaping in `HtmlEscape`);
- the document panel's Markdown renderer and its "latest version" marker
  (`DocumentPanel`);
- the user-profile form: per-field validation and the trimmed result it
  submits (`UserProfile`).

JavaScript's string operations the source relies on (`trim`, `split`,
`join`, `toLowerCase`, `startsWith`, `includes`) are in `JsText`, and
decimal numerals in `Decimal`.

Objects whose fields the source updates in place are classes: the job
record, the registry, the worker, the stream publisher, the job store, the
document provider, the tool cards, the HTML cache and the form. React state
updaters are pure functions of the previous state; each provider method is
proved to apply exactly that function and to keep the store's invariant.
Timers, the event loop, the network and the generator call are steps or
parameters: the worker is resumed one await at a time with the generator's
outcome as a parameter, and `JobLifecycle.Interleave` runs any sequence of
resume, poll, timeout and abort steps with at most one enqueue.

## Model

| member | source | states |
|---|---|---|
| DocumentJobs.Job.constructor | src/app/api/generate-document/route.ts:57 | a new record is pending at progress 0 with no content and no error, holding the title and description given |
| DocumentJobs.Registry.Get | src/app/api/document-status/route.ts:21 | the lookup finds a record exactly when the id is registered, and it is that id's record |
| DocumentJobs.Registry.Set | src/app/api/generate-document/route.ts:57 | the id now maps to the new record and every other entry is unchanged |
| DocumentJobs.Registry.Delete | src/app/api/document-status/route.ts:46 | the entry is gone, nothing else changes, and the result says whether there was one |
| DocumentJobs.EvaluateModule | src/lib/documentJobs.ts:16-24 | a map is attached to `globalThis` only when none is there; the exported map is the attached one |
| DocumentJobs.EvaluateTwice | src/lib/documentJobs.ts:1-24 | two evaluations of the module in one process export the same map |
| GenerateDocument.ErrorMessage | src/app/api/generate-document/route.ts:49 | an `Error`'s message, or "Unknown error" for any other thrown value |
| GenerateDocument.BuildPrompt | src/app/api/generate-document/route.ts:33-38 | the prompt opens with the quoted title line and closes with a blank line and the instruction to start with `# ` and the title |
| GenerateDocument.Worker.constructor | src/app/api/generate-document/route.ts:13-25 | calling the worker marks the looked-up record generating at 10 before it first suspends; the prompt is the one built from the arguments |
| GenerateDocument.Worker.Resume | src/app/api/generate-document/route.ts:22-51 | each resumption reaches the next await: 25, 40, then 85 with the text, then done at 100 with that content; a rejected generator leaves error at 40 with the error's message ("Unknown error" for a non-Error); progress never decreases and the record stays consistent |
| GenerateDocument.Worker.RunToEnd | src/app/api/generate-document/route.ts:22-51 | run without interleaving, the record ends done at 100 with the generated text, or failed at 40 with the message and no content |
| GenerateDocument.Post | src/app/api/generate-document/route.ts:54-60 | without a truthy id or title the answer is 400 "Missing jobId or title" and the registry is untouched; otherwise a fresh pending record is stored under the id, the worker is started, and the answer is the id with "pending" |
| DocumentStatus.SnapshotOf | src/app/api/document-status/route.ts:33-40 | the snapshot of a record's fields under its id; what it carries is stated by DocumentStatus.SnapshotFaithful |
| DocumentStatus.SnapshotFaithful | src/app/api/document-status/route.ts:33-40 | a snapshot carries id, progress and title; content exactly when done, error only when failed; it is terminal exactly when the job is |
| DocumentStatus.Publisher.constructor | src/app/api/document-status/route.ts:12-19 | a new stream polls, has waited 0 ms, is open and has sent nothing |
| DocumentStatus.Publisher.Send | src/app/api/document-status/route.ts:14-16 | an event is appended to an open stream; on a closed one the failure is swallowed and nothing is sent |
| DocumentStatus.Publisher.Tick | src/app/api/document-status/route.ts:20-49 | a missing job adds 400 ms and, at 2000 ms, sends "Job not found" and closes; a found job's snapshot is sent, and a terminal one stops polling and schedules the close-and-delete; a cleared interval does nothing |
| DocumentStatus.Publisher.GraceElapsed | src/app/api/document-status/route.ts:44-47 | the scheduled timeout closes the stream and deletes exactly this id from the registry |
| DocumentStatus.Publisher.Abort | src/app/api/document-status/route.ts:51-54 | an abort stops polling and closes the stream without touching the registry or the sent events |
| DocumentStatus.Get | src/app/api/document-status/route.ts:3-12 | no truthy `jobId` means 400 "Missing jobId"; otherwise a new, open, polling stream for that id |
| JobLifecycle.EnqueueStep | src/app/api/generate-document/route.ts:54-60 | the first POST for the job (there is no worker yet) keeps the stream in agreement with the record and its new worker, which exists exactly when the id and title are truthy |
| JobLifecycle.ResumeStep | src/app/api/generate-document/route.ts:22-51 | a worker resumption keeps the stream in agreement with the record |
| JobLifecycle.TickStep | src/app/api/document-status/route.ts:20-49 | a poll sends at most one event and keeps the view monotone and never ahead of the record |
| JobLifecycle.StopStep | src/app/api/document-status/route.ts:44-54 | the close-and-delete timeout and an abort keep the agreement |
| JobLifecycle.Interleave | src/app/api/document-status/route.ts:18-49 | in any interleaving of at most one POST for the job with worker, poll, timeout and abort callbacks, the events sent have non-decreasing progress, only the last can be terminal, and each one's fields match its status |
| JobLifecycle.RepostRewinds | src/app/api/generate-document/route.ts:54-60 | a second POST under the same id replaces the record and starts a second worker, so the stream shows progress 25 and then 10 and is not monotone |
| JobLifecycle.LateRecord | src/app/api/document-status/route.ts:18-31 | a stream opened before the record exists sends nothing on its first tick and then "generating" at 10, never "pending", and goes on polling |
| JobLifecycle.DecodeSnapshot | src/lib/job-store.ts:41-55 | the browser decodes a snapshot to the record's progress while it runs, to the document when done and to the record's message when failed; "Job not found" becomes that failure |
| JobLifecycle.DecodedViewMonotone | src/lib/job-store.ts:41-58 | decoded, a monotone stream still shows non-decreasing progress and a terminal status only last |
| JobStore.Decode | src/lib/job-store.ts:42-55 | "done" keeps title, content and description; "error" keeps the message or "Unknown error"; any other status is progress, 0 when missing; terminal exactly when the event is |
| JobStore.Add | src/lib/job-store.ts:23 | `Set.add`: a new listener goes last, an existing one leaves the set as it was |
| JobStore.AddToSet | src/lib/job-store.ts:20-23 | adding keeps the listeners free of duplicates and adds exactly that listener |
| JobStore.Remove | src/lib/job-store.ts:30 | `Set.delete` removes exactly the given listener, keeps all others, and never grows the set |
| JobStore.RemoveFromSet | src/lib/job-store.ts:30 | on a duplicate-free set, deleting a member shrinks it by one and deleting a non-member changes nothing |
| JobStore.Broadcast | src/lib/job-store.ts:58 | every listener is called once with the status, in insertion order |
| JobStore.StreamUrl | src/lib/job-store.ts:38 | the stream URL is the status path followed by the unencoded job id |
| JobStore.Store.constructor | src/lib/job-store.ts:14-16 | a new store has no statuses, listeners or streams |
| JobStore.Store.ListenersOf | src/lib/job-store.ts:58 | a job without a listener set has no listeners |
| JobStore.Store.GetStatus | src/lib/job-store.ts:70-72 | the cached status, or none exactly when nothing is cached |
| JobStore.Store.Subscribe | src/lib/job-store.ts:19-28 | the listener joins the job's set; a cached status is replayed to it at once, and nothing otherwise |
| JobStore.Store.Unsubscribe | src/lib/job-store.ts:29-31 | only this listener leaves this job's set; a job with no set is left alone |
| JobStore.Store.Watch | src/lib/job-store.ts:35-39 | a stream is opened only for a job that has none open |
| JobStore.Store.OnMessage | src/lib/job-store.ts:41-59 | the decoded status is cached and given to every listener; a terminal one closes the stream; a closed stream delivers nothing |
| JobStore.Store.OnError | src/lib/job-store.ts:61-67 | "Connection lost" is cached and given to every listener, and the stream is closed |
| FreshIds.UuidInjective | src/app/api/chat/route.ts:475 | different draws give different ids |
| FreshIds.IdSource.Fresh | src/app/api/chat/route.ts:475 | `randomUUID` returns an id never returned before |
| ChatRoute.LastToolResultIsProfile | src/app/api/chat/route.ts:236-252 | true exactly when some assistant message holds a finished `collect_user_profile` call |
| ChatRoute.Recent | src/app/api/chat/route.ts:256 | the last six messages, or all when there are fewer |
| ChatRoute.TextParts | src/app/api/chat/route.ts:260-263 | when every part is text, the texts are the parts' texts in order (a missing text is empty); when none is, there are none; never more texts than parts |
| ChatRoute.TextPartsAppend | src/app/api/chat/route.ts:260-263 | filtering and mapping go part by part: the texts of two runs of parts are the first run's texts followed by the second's, so together with the cases above they are exactly the text parts' texts in order |
| ChatRoute.MessageText | src/app/api/chat/route.ts:260-265 | a message's text is a prefix of its text parts joined by spaces, of length the smaller of 300 and the joined length |
| ChatRoute.Line | src/app/api/chat/route.ts:264-266 | a line exists exactly for a user or assistant message whose joined text is non-empty; it is the role, ": " and the message's text, and is a well-formed context line |
| ChatRoute.LineExists | src/app/api/chat/route.ts:260-266 | the joined text is non-empty exactly when there are two or more text parts, or one whose text is non-empty |
| ChatRoute.Lines | src/app/api/chat/route.ts:257-268 | each line is a speaker and 1 to 300 characters of text; there are none exactly when no message contributes one |
| ChatRoute.LinesAppend | src/app/api/chat/route.ts:257-268 | the lines of two runs of messages are the first run's lines followed by the second's |
| ChatRoute.LinesOne | src/app/api/chat/route.ts:257-268 | one message gives its own line, or none when it has none; with LinesAppend the lines are exactly the messages' lines in order |
| ChatRoute.ExtractConversationContext | src/app/api/chat/route.ts:255-270 | the context is empty exactly when none of the last six messages has a line |
| ChatRoute.ContextOfFew | src/app/api/chat/route.ts:255-270 | for six messages or fewer the context is their lines joined by newlines, and empty exactly when there are no lines |
| ChatRoute.ContextAddsLine | src/app/api/chat/route.ts:255-270 | one more message (still within six) leaves the context as it was when it has no line, and otherwise appends its line, after a newline unless the context was empty |
| ChatRoute.ContextIgnoresOlder | src/app/api/chat/route.ts:256 | messages older than the last six never change the context |
| ChatRoute.PlanTurn | src/app/api/chat/route.ts:276-286 | `queue_document` is forced exactly when a profile result is in the history; the context is the extracted one |
| ChatRoute.QueueDocument | src/app/api/chat/route.ts:473-501 | a pending record under a never-used id, its worker started with the turn's context, and the answer "queued" with that id at once |
| DocumentStore.FindDocument | src/lib/document-store.tsx:77 | the index of the first document with the id, or none when no document has it |
| DocumentStore.FindVersion | src/lib/document-store.tsx:140 | the index of the first version with the id, or none when no version has it |
| DocumentStore.NewDocument | src/lib/document-store.tsx:39-60 | one version numbered 1, current, described "Initial version" unless a truthy description is given |
| DocumentStore.Create | src/lib/document-store.tsx:62-68 | the document goes last and becomes active with its version, and the panel opens |
| DocumentStore.ReplaceById | src/lib/document-store.tsx:102 | every document with the id is replaced, the others kept in place |
| DocumentStore.UpdateDoc | src/lib/document-store.tsx:76-107 | an unknown id changes nothing and makes no version; otherwise version n+1 is appended and made current and active, described "Version n+1" by default, and the panel opens |
| DocumentStore.Open | src/lib/document-store.tsx:113-122 | an unknown id changes nothing; otherwise the document is active with the given version or its current one, and the panel opens |
| DocumentStore.Close | src/lib/document-store.tsx:126 | only the panel closes |
| DocumentStore.SetActiveVersion | src/lib/document-store.tsx:130 | only the active version changes, unchecked |
| DocumentStore.ActiveDocument | src/lib/document-store.tsx:133-135 | a stored document with the active id, or none when there is none |
| DocumentStore.ActiveVersion | src/lib/document-store.tsx:137-141 | a version of the active document with the active version id, or none |
| DocumentStore.FindInCoherent | src/lib/document-store.tsx:77 | with distinct ids, a document is found at its own position |
| DocumentStore.FindInWellNumbered | src/lib/document-store.tsx:140 | with distinct version ids, a version is found at its own position |
| DocumentStore.CreateKeepsCoherent | src/lib/document-store.tsx:39-71 | creating under a new id keeps document ids distinct and every document's versions numbered 1..n with the current one last; the getters return the new document and its only version |
| DocumentStore.CreateVersionIds | src/lib/document-store.tsx:39-71 | the only version id a created document adds to the store is the one drawn for it |
| DocumentStore.UpdateKeepsCoherent | src/lib/document-store.tsx:73-110 | updating with an unused version id keeps the store coherent, and the new version is the active one |
| DocumentStore.UpdateVersionIds | src/lib/document-store.tsx:73-110 | an update keeps every document's id and brings no version id but the one drawn for it |
| DocumentStore.OpenShowsLatest | src/lib/document-store.tsx:112-123 | opening without a version shows the document's latest version |
| DocumentStore.DocumentProvider.constructor | src/lib/document-store.tsx:27-33 | no documents, nothing active, the panel closed |
| DocumentStore.DocumentProvider.CreateDocument | src/lib/document-store.tsx:39-71 | two fresh ids, the state is the create update, and the new document and its version are active |
| DocumentStore.DocumentProvider.UpdateDocument | src/lib/document-store.tsx:73-110 | the state is the update for a fresh version id; an unknown id changes nothing and returns no version |
| DocumentStore.DocumentProvider.OpenDocument | src/lib/document-store.tsx:112-123 | the state is the open update and stays coherent |
| DocumentStore.DocumentProvider.CloseDocument | src/lib/document-store.tsx:125-127 | the state is the close update |
| DocumentStore.DocumentProvider.SetActiveVersionId | src/lib/document-store.tsx:129-131 | the state is the set-active-version update |
| DocumentStore.DocumentProvider.Documents | src/lib/document-store.tsx:146 | the documents currently stored |
| DocumentStore.CallStore | src/lib/document-store.tsx:21-25 | a call through the global reference leaves the mounted provider's documents as `CallApplied` says: a create adds a new document with an unused id and version, an update of a known document adds a version with an unused id (an unknown id changes nothing); with no provider mounted nothing happens |
| DocumentToolUi.Dispatch | src/components/tools/DocumentToolUI.tsx:34-48 | "create" creates; "update" with an id updates it; without one it updates the last document or creates when there is none; any other action does nothing |
| DocumentToolUi.UpdateWithoutIdLands | src/components/tools/DocumentToolUI.tsx:40-47 | an "update" without id is never lost: it lands on the last document, which exists, or creates one |
| DocumentToolUi.DocumentToolRenderer.constructor | src/components/tools/DocumentToolUI.tsx:27 | a new card has not processed a result |
| DocumentToolUi.DocumentToolRenderer.Effect | src/components/tools/DocumentToolUI.tsx:30-50 | the first run with a result makes exactly its dispatched store call, and the mounted provider's documents become what `CallApplied` gives for that call; every other run does nothing |
| QueueDocumentUi.DisplayedProgress | src/components/tools/QueuedocumentToolUI.tsx:129 | the bar shows the progress while generating and 0 otherwise |
| QueueDocumentUi.DoneCall | src/components/tools/QueuedocumentToolUI.tsx:67-72 | an "update" with a truthy id updates that document; anything else creates one |
| QueueDocumentUi.QueueDocumentRenderer.constructor | src/components/tools/QueuedocumentToolUI.tsx:37-44 | a new card is waiting, not watching, not done |
| QueueDocumentUi.QueueDocumentRenderer.OnStatus | src/components/tools/QueuedocumentToolUI.tsx:53-78 | progress is shown (an equal value keeps the phase); the first "done" asks for exactly one store call and later ones none; an error shows its message |
| QueueDocumentUi.QueueDocumentRenderer.Effect | src/components/tools/QueuedocumentToolUI.tsx:46-81 | the first run with a job id opens at most one stream and adds this card's listener to that job's set only (every other set unchanged); a cached status is replayed at once (Generating shows its progress, Failed its error, the first Done asks for its store call, a later Done nothing); other runs change nothing |
| QueueDocumentUi.QueueDocumentRenderer.Cleanup | src/components/tools/QueuedocumentToolUI.tsx:80 | the listener sets become `Unsubscribed` of the old ones: only the subscribed job's set changes, and loses only this listener |
| QueueDocumentUi.QueueDocumentRenderer.CleanupRearming | src/components/tools/QueuedocumentToolUI.tsx:46-48 | the same listener sets as Cleanup, and the once-guard is re-armed when there was a subscription |
| QueueDocumentUi.Unsubscribed | src/lib/job-store.ts:29-31 | the sets keep their keys; every job but the subscribed one keeps its set; the subscribed job's set holds exactly its old members other than this listener |
| QueueDocumentUi.StrictRemount | src/components/tools/QueuedocumentToolUI.tsx:46-81 | effect, cleanup, effect leaves the card subscribed to nothing |
| QueueDocumentUi.StrictRemountRearming | src/components/tools/QueuedocumentToolUI.tsx:46-81 | with the re-arming cleanup the card ends subscribed and the job has one stream, opened once |
| CodeBlock.ParseNumberList | src/components/tool-ui/code-block/code-block.tsx:42-49 | the written highlight lines are read back, and what follows them is left over |
| CodeBlock.ParseLinesJson | src/components/tool-ui/code-block/code-block.tsx:49 | `highlightLines ?? null` is read back, absent or present |
| CodeBlock.GetCacheKey | src/components/tool-ui/code-block/code-block.tsx:37-51 | the five fields as a JSON object in their order; its partner is CodeBlock.ParseGetCacheKey |
| CodeBlock.ParseGetCacheKey | src/components/tool-ui/code-block/code-block.tsx:37-51 | the cache key parses back to the fields it was made from |
| CodeBlock.GetCacheKeyInjective | src/components/tool-ui/code-block/code-block.tsx:37-51 | different fields never share a cache key |
| CodeBlock.HtmlCache.constructor | src/components/tool-ui/code-block/code-block.tsx:35 | the cache starts empty |
| CodeBlock.HtmlCache.Get | src/components/tool-ui/code-block/code-block.tsx:217 | the cached HTML, or none exactly when the key is absent |
| CodeBlock.HtmlCache.SetCachedHtml | src/components/tool-ui/code-block/code-block.tsx:53-67 | the cache becomes `CachedAfter` the old one: an existing key is updated in place; a new key is appended, evicting the oldest first when 64 are held; keys stay distinct and at most 64 |
| CodeBlock.InheritedLabel | src/components/tool-ui/code-block/code-block.tsx:69-90 | as written, "constructor" and "__proto__" label with an inherited prototype member |
| CodeBlock.LanguageDisplayNameAsWritten | src/components/tool-ui/code-block/code-block.tsx:88-90 | as written: the table's own name, an inherited prototype member for an inherited key, or the language upper-cased (see CodeBlock.InheritedLabel) |
| CodeBlock.LanguageDisplayName | src/components/tool-ui/code-block/code-block.tsx:88-90 | corrected: the table's name for the lower-cased language, or the language upper-cased |
| CodeBlock.LabelAgreesOffPrototype | src/components/tool-ui/code-block/code-block.tsx:88-90 | off the inherited keys the written and corrected labels agree; "constructor" gets "CONSTRUCTOR" |
| CodeBlock.LineCount | src/components/tool-ui/code-block/code-block.tsx:302 | one more than the number of newlines |
| CodeBlock.ShouldCollapse | src/components/tool-ui/code-block/code-block.tsx:303 | collapsible exactly when a non-zero maximum is given and exceeded |
| CodeBlock.IsCollapsed | src/components/tool-ui/code-block/code-block.tsx:304 | collapsed when it should collapse and is not expanded; when it should collapse is stated by CodeBlock.CollapseByLines |
| CodeBlock.CollapseByLines | src/components/tool-ui/code-block/code-block.tsx:302-303 | with a maximum m, the code collapses exactly when it has at least m newlines; never without a maximum |
| CodeBlock.FallbackHtml | src/components/tool-ui/code-block/code-block.tsx:278-285 | the fallback wraps the escaped code, which has no angle brackets and unescapes to the code |
| CodeBlock.HighlightEffect | src/components/tool-ui/code-block/code-block.tsx:216-291 | a non-empty cached entry is shown as is; empty code shows "" whether or not the effect was later cleaned up; otherwise a cancelled run shows nothing, highlighted HTML is shown and the cache becomes exactly what `setCachedHtml` makes of it (`CachedAfter`), and a throw shows the fallback uncached |
| CodeBlock.ExpandedState.constructor | src/components/tool-ui/code-block/code-block.tsx:188 | the local state starts at `defaultExpanded` with no notifications |
| CodeBlock.ExpandedState.SetExpanded | src/components/tool-ui/code-block/code-block.tsx:192-201 | local state follows only when no prop controls it; the callback, if any, is always told |
| CodeBlock.ExpandedState.ToggleExpanded | src/components/tool-ui/code-block/code-block.tsx:310-312 | uncontrolled, the expanded state flips; controlled, it stays and only the callback hears the flip |
| HtmlEscape.EscapeIsCharwise | src/components/tool-ui/code-block/code-block.tsx:279-282 | the three replace passes equal escaping each character once |
| HtmlEscape.EscapedHasNoAngles | src/components/tool-ui/code-block/code-block.tsx:279-282 | escaped text holds no angle brackets |
| HtmlEscape.UnescapeEscape | src/components/tool-ui/code-block/code-block.tsx:279-282 | escaping loses nothing: unescaping gives the text back |
| JsonText.ParseQuoted | src/components/tool-ui/code-block/code-block.tsx:44-50 | `JSON.parse` reads back a string written by `JSON.stringify` |
| JsonText.QuoteInjective | src/components/tool-ui/code-block/code-block.tsx:44-50 | different strings are written differently |
| JsText.TrimEmptyIffBlank | src/components/tools/UserProfileToolUI.tsx:64 | `trim()` is empty exactly when the text is all whitespace |
| JsText.TrimIdempotent | src/components/tools/UserProfileToolUI.tsx:71-76 | trimming twice is trimming once |
| JsText.JoinSplit | src/components/document/DocumentPanel.tsx:36-49 | joining the split pieces with the separator gives the text back |
| JsText.SplitCount | src/components/tool-ui/code-block/code-block.tsx:302 | splitting on a character gives one piece more than its occurrences |
| DocumentPanel.LineEnd | src/components/document/DocumentPanel.tsx:22 | `.*$` under the `m` flag stops at the first line terminator (LF, CR, U+2028, U+2029) |
| DocumentPanel.Replace | src/components/document/DocumentPanel.tsx:22-34 | every line rule produces a tag, and a `<b…` one only for the blockquote rule |
| DocumentPanel.ApplyRuleKeepsLine | src/components/document/DocumentPanel.tsx:22-34 | a rule never adds a line terminator to a line |
| DocumentPanel.ApplyRulesKeepsLine | src/components/document/DocumentPanel.tsx:22-34 | nor does any chain of them |
| DocumentPanel.RewriteAfter | src/components/document/DocumentPanel.tsx:22-34 | one more global replace equals one more rule on every line |
| DocumentPanel.LineStageIsPerLine | src/components/document/DocumentPanel.tsx:22-34 | the chain of eight whole-text replaces equals applying the eight rules line by line |
| DocumentPanel.TaggedLineStays | src/components/document/DocumentPanel.tsx:22-34 | a line already turned into a tag is left alone by the later rules |
| DocumentPanel.RulesTakeFirstMatch | src/components/document/DocumentPanel.tsx:22-34 | so each line is rewritten by the first rule that matches it, or kept |
| DocumentPanel.RenderLine | src/components/document/DocumentPanel.tsx:22-34 | a line's rendering is the chain of rules applied to it |
| DocumentPanel.FirstMatchOfLineRules | src/components/document/DocumentPanel.tsx:22-34 | the rules tried in the source's order: h3, h2, h1, quote, rule, `*`, `-`, numbered |
| DocumentPanel.UnmatchedLine | src/components/document/DocumentPanel.tsx:22-34 | a line starting with none of the markers is kept as is |
| DocumentPanel.HeadingLevels | src/components/document/DocumentPanel.tsx:22-24 | `### `, `## ` and `# ` lines become h3, h2 and h1 |
| DocumentPanel.HorizontalRule | src/components/document/DocumentPanel.tsx:31 | a `---` line becomes `<hr/>` |
| DocumentPanel.MarkedItems | src/components/document/DocumentPanel.tsx:32-33 | `* ` and `- ` lines become list items |
| DocumentPanel.NumberedItem | src/components/document/DocumentPanel.tsx:34 | `n. ` lines become list items |
| DocumentPanel.MarkupFreeIsInlineFree | src/components/document/DocumentPanel.tsx:25-35 | text without `*`, backtick or `[` is untouched by the inline rules |
| DocumentPanel.RenderParagraph | src/components/document/DocumentPanel.tsx:37-48 | a block paragraph is kept, one with list items is wrapped in `<ul>`, other text in `<p>` with `<br/>` breaks, a blank one dropped |
| DocumentPanel.TextParagraphIsOneLine | src/components/document/DocumentPanel.tsx:46 | a text paragraph renders on one line |
| DocumentPanel.MapParagraphs | src/components/document/DocumentPanel.tsx:36-49 | each paragraph is rendered on its own, in order |
| DocumentPanel.RenderMarkdownAsWritten | src/components/document/DocumentPanel.tsx:17-51 | as written: the escape, then the written line rules by first match, then the paragraphs (see DocumentPanel.WrittenQuoteIsText) |
| DocumentPanel.RenderMarkdown | src/components/document/DocumentPanel.tsx:17-51 | corrected: the rendering is the escape, then the line rules by first match, then the paragraphs |
| DocumentPanel.EscapedTextHasNoAngles | src/components/document/DocumentPanel.tsx:18-21 | after the escape no `<` or `>` is left for the line rules |
| DocumentPanel.WrittenQuoteNeverFires | src/components/document/DocumentPanel.tsx:21-30 | as written, the blockquote rule never produces a blockquote on escaped text |
| DocumentPanel.QuoteLine | src/components/document/DocumentPanel.tsx:30 | a `> ` line escapes to `&gt; `, which the corrected rule turns into a blockquote |
| DocumentPanel.PlainParagraph | src/components/document/DocumentPanel.tsx:46 | plain one-line text becomes one `<p>` |
| DocumentPanel.WrittenQuoteStage | src/components/document/DocumentPanel.tsx:18-34 | as written, the line rules leave an escaped `> ` line unchanged |
| DocumentPanel.WrittenQuoteIsText | src/components/document/DocumentPanel.tsx:17-51 | as written, `> x` renders as the paragraph `<p>&gt; x</p>` |
| DocumentPanel.IntendedQuoteStage | src/components/document/DocumentPanel.tsx:18-34 | with the corrected rule, an escaped `> ` line becomes a blockquote |
| DocumentPanel.IntendedQuoteIsBlock | src/components/document/DocumentPanel.tsx:17-51 | with the corrected rule, `> x` renders as `<blockquote>x</blockquote>` |
| DocumentPanel.IsLatestVersion | src/components/document/DocumentPanel.tsx:86 | a version is marked latest when its id is the document's current version id; DocumentPanel.LatestIsLastVersion says which version that is |
| DocumentPanel.LatestIsLastVersion | src/components/document/DocumentPanel.tsx:86 | in a well-numbered document the version marked latest is exactly the highest-numbered one |
| UserProfile.Form.With | src/components/tools/UserProfileToolUI.tsx:58 | the field is set and every other field kept |
| UserProfile.MissingIsEmptyTrim | src/components/tools/UserProfileToolUI.tsx:64 | a field counts as missing exactly when its trim is empty |
| UserProfile.Errors | src/components/tools/UserProfileToolUI.tsx:63-67 | the error map the four checks build; what it flags is stated by UserProfile.ErrorsFlagInvalidFields |
| UserProfile.ErrorsFlagInvalidFields | src/components/tools/UserProfileToolUI.tsx:63-67 | name, occupation and goals are flagged "Required" exactly when missing; age "Enter a valid age" exactly when missing or not a number; no other key |
| UserProfile.NoErrorsMeansComplete | src/components/tools/UserProfileToolUI.tsx:63-68 | no errors means every field is present and the age is a number |
| UserProfile.CompleteMeansNoErrors | src/components/tools/UserProfileToolUI.tsx:63-68 | and conversely |
| UserProfile.TrimmedPresent | src/components/tools/UserProfileToolUI.tsx:71-76 | a present field trims to a non-empty, already trimmed text |
| UserProfile.TrimmedStaysValid | src/components/tools/UserProfileToolUI.tsx:71-76 | the submitted, trimmed profile would itself pass validation, every field non-empty and trimmed |
| UserProfile.CollectErrors | src/components/tools/UserProfileToolUI.tsx:63-67 | the four checks in turn build exactly the error map |
| UserProfile.ProfileForm.constructor | src/components/tools/UserProfileToolUI.tsx:54-55 | empty fields, no errors, nothing submitted |
| UserProfile.ProfileForm.Set | src/components/tools/UserProfileToolUI.tsx:57-60 | the field takes the value and its error is cleared to "", nothing else changes |
| UserProfile.ProfileForm.HandleSubmit | src/components/tools/UserProfileToolUI.tsx:62-77 | errors replace the shown errors and nothing is submitted; otherwise the trimmed form is submitted |
| UserProfile.SetTouchesOneField | src/components/tools/UserProfileToolUI.tsx:57-60 | editing one field leaves every other field and its error as they were |

## Left out

- JobStore.Decode: requires that a "done" event carries a title and content, which the client's status type takes for granted; the status route always sends them (DocumentStatus.SnapshotFaithful).
- JobStore.Store.OnMessage: requires the same of the event it decodes.
- Listeners that subscribe or unsubscribe while a broadcast is running are not modelled; a broadcast calls the listeners present when it starts.
- React's development mode calling a state updater twice is not modelled; the double mount of an effect is (QueueDocumentUi.StrictRemount).
- CodeBlock.ParseGetCacheKey: highlight lines are natural numbers; negative, fractional or very large numbers (whose `JSON.stringify` form differs) are not modelled.
- CodeBlock.ShouldCollapse: `maxCollapsedLines` is an integer; fractional and `NaN` values are not modelled.
- CodeBlock.LanguageDisplayName, and its as-written twin CodeBlock.LanguageDisplayNameAsWritten: `toLowerCase` and `toUpperCase` change ASCII letters only.
- DocumentPanel.RenderMarkdown, and its as-written twin DocumentPanel.RenderMarkdownAsWritten: require text without backticks or `[` and with at most one `*` per line; the bold, italic, code-fence, inline-code and link rules are identity on such text and are not modelled otherwise.
- ChatRoute.MessageText: strings are sequences of characters, while `slice(0, 300)` counts UTF-16 code units; for text outside the Basic Multilingual Plane the cut falls at a different place, and a cut through a surrogate pair (a lone surrogate) is not representable.
- JobLifecycle.Interleave: requires at most one POST for the job. The chat route's `queue_document` does not POST: it writes the same pending record under a new id and starts the same worker directly. The POST route is reachable only from clients outside this model; a second POST under the same id would replace the record and start a second worker, whose stream is then not monotone (JobLifecycle.RepostRewinds).
- JobLifecycle.EnqueueStep: requires that no worker runs yet, for the same reason.
- UserProfile.ErrorsFlagInvalidFields: `isNaN(Number(age))` is a parameter standing for `Number`, whose parsing is not modelled.
- The shape of `Document`, `DocumentVersion` and `AppState` comes from `src/types`, which is not part of this model.
- Dates and `crypto.randomUUID` are parameters and a counter-based id source; ids are distinct by construction but are not UUID-shaped.
- The generator call, its prompt's use and the Bedrock client are an outcome parameter; `console.error` and the response headers are left out.
- The weather, arithmetic, research and profile tools of the chat route other than `queue_document`, and the model call itself, are left out.
- Syntax highlighting itself (shiki, the line transformer, theme detection and copying) is left out; the highlighter's result is a parameter.
- The document-panel component's editing and version menu are left out; only its rendering and its latest-version marker are modelled.
- `DocumentJobs.Job`: the `!` in the worker's lookup assumes the record is registered and pending; the worker's constructor requires that.
- A stream opened before the record exists first reports "generating" at 10, never "pending", because calling the worker runs its first step synchronously (JobLifecycle.LateRecord).

## Findings

| source | as written | input that shows it | evidently intended | confidence | as-written member | corrected member |
|---|---|---|---|---|---|---|
| src/components/document/DocumentPanel.tsx:30 | the blockquote rule matches `^> ` after line 21 has turned every `>` into `&gt;`, so it can never fire | the content `> note` renders as `<p>&gt; note</p>` | a `> ` line renders as a blockquote (`<blockquote>note</blockquote>`) | certain, not executed | DocumentPanel.WrittenQuoteIsText | DocumentPanel.IntendedQuoteIsBlock |
| src/components/tool-ui/code-block/code-block.tsx:88-90 | the label is looked up in a plain object literal, so inherited keys are found | the language `constructor` (or `__proto__`) labels with `Object.prototype`'s member, not "CONSTRUCTOR" | unknown languages are labelled by their upper-cased name | high, not executed | CodeBlock.InheritedLabel | CodeBlock.LanguageDisplayName |
| src/components/tools/QueuedocumentToolUI.tsx:47-53 | the once-guard `watchedRef` stays set after the cleanup unsubscribes | React's development double mount (effect, cleanup, effect) leaves the card with no listener for its job | the remounted card follows the job again | medium, not executed | QueueDocumentUi.StrictRemount | QueueDocumentUi.StrictRemountRearming |
