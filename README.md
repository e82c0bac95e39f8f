# Code-agent run and file explorer: a Dafny model

The project models the code-generation agent run of a web app, plus the small view logic that shows what the run produced.

The run provisions a remote sandbox. It then drives a language-model agent through at most fifteen iterations of tool use. The agent has three tools:

- `terminal` runs a shell command.
- `createOrUpdateFiles` writes files and records them in the run state.
- `readFiles` reads files back.

A hook after each response watches for the `<task_summary>` sentinel. The router stops the loop as soon as a summary is set. When the loop ends, the run is classified as an error or a result. At most one message record is written: exactly one when the loop finishes and the sandbox URL resolves, and then an envelope is returned holding the URL, title, files and summary. Otherwise the run throws (`Threw`) and writes no record.

The view side covers three things:

- the file tree, which builds slash-joined paths and marks the selected file;
- the file explorer, which derives the highlighting language and chooses breadcrumb segments;
- the explorer's selection, which is updated only under a guard.

Modules, one per source file plus two helpers:

- `Wrappers`: `Option`, which plays the role of JavaScript's `undefined` and `null`.
- `Text`: the JavaScript string operations used:
  - `split` on one character, with `join` as its inverse;
  - the part after the last separator;
  - lower-casing;
  - `includes`.
- `AgentMessages` (`src/inngest/utils.ts`): the agent-kit message shapes, `lastAssistantTextMessageContent` and `parseAgentOutput`.
- `CodeAgent` (`src/inngest/functions.ts`):
  - the sandbox, as a class over a path→content map plus a fixed environment that decides which calls fail;
  - the run state, as a class `Run` with `summary` and `files` fields;
  - the three tool handlers, the hook, the router, the bounded loop, `isError`, the record and the envelope.

  The loop and the handlers are methods. Each is proved equal to a pure specification function (`TerminalReply`, `WriteBatch`, `ReadReply`, `Hook`, `RunFrom`, `CodeAgentSpec`), and the properties are proved about those functions.
- `TreeView` (`src/components/tree-view.tsx`): the recursive `Tree`, as a function from a tree item to the row it renders.
- `FileExplorer` (`src/components/file-explorer.tsx`): `getLanguageFromExtension`, `FileBreadcrumb`, and the selection state with its guarded update and display guard.

Modelling choices:

- **The language model** is an arbitrary function from the iteration number to the messages the agent emits in that iteration. Tool calls are taken from the `tool_call` messages in emission order.
- **Hook and dispatch order.** In each iteration the `onResponse` hook runs first, and then the tool calls are dispatched.
- **Sandbox failures** are decided by an environment value fixed for the run:
  - `reachable` decides whether `Sandbox.connect` succeeds;
  - `rejects` is the set of paths whose write or read fails;
  - `shell` gives each command's output events and exit;
  - `host` resolves a port to a host name;
  - `describe` is the text form of an error.
- **Aliasing.** `network.state.data.files || {}` aliases the existing map. So once `files` exists, each successful write stays in the state even when a later write of the same call fails. On the first call, when `files` is still undefined, a failure leaves it undefined.
- **Property lookup.** `files` is a plain object, so `files[p]` finds an own key or, failing that, a member every object inherits from `Object.prototype` ("toString", "constructor", …), which is truthy. The explorer's guards follow that lookup (`FileExplorer.Get`).
- **A throwing write** rejects `network.run`. The run then ends without a record (`Aborted`, then `Threw`).

## Model

| member | source | states |
|---|---|---|
| Text.Split | src/components/file-explorer.tsx:28 | `split` on one character gives at least one piece, no piece contains the separator, and joining the pieces with it gives back the string |
| Text.Join | src/inngest/utils.ts:35 | `join`: no parts give "", and a non-empty list's result starts with its first part |
| Text.AfterLast | src/components/file-explorer.tsx:18 | the result is the longest suffix free of the separator: a suffix, separator-free, and preceded by the separator unless it is the whole string |
| Text.SplitLast | src/components/file-explorer.tsx:18 | the last piece of `split` (what `pop()` returns) is exactly the part after the last separator |
| Text.Lower | src/components/file-explorer.tsx:18 | lower-casing keeps the length and maps each character through the per-character lower-case map |
| Text.LowerIsLower | src/components/file-explorer.tsx:18 | no character of a lower-cased string is an upper-case ASCII letter |
| Text.Contains | src/inngest/functions.ts:221 | `includes`: a prefix is always included, and nothing longer than the string is |
| AgentMessages.IsAssistant | src/inngest/utils.ts:25 | the role test `message.role === "assistant"`: tool-call messages are assistant messages and tool results are not. Its consequences are stated by `FindLastAssistant` |
| AgentMessages.FindLastAssistant | src/inngest/utils.ts:24-26 | `findLastIndex`: -1 when no message is an assistant one, otherwise an assistant index with no assistant message after it |
| AgentMessages.TextOf | src/inngest/utils.ts:28-36 | the consulted message yields a text exactly when it is a text message with truthy content, and that text is its flattened content |
| AgentMessages.Flatten | src/inngest/utils.ts:33-35 | string content is returned as is; an empty part array gives ""; a non-empty one starts with its first part's text |
| AgentMessages.Texts | src/inngest/utils.ts:35 | `content.map((c) => c.text)`: one text per part, the k-th being the k-th part's `text` |
| AgentMessages.LastAssistantTextMessageContent | src/inngest/utils.ts:23-37 | a result is always the flattened, truthy content of an assistant text message that no later assistant message follows |
| AgentMessages.LastAssistantIsHighest | src/inngest/utils.ts:24-30 | the message consulted is the highest-index assistant message |
| AgentMessages.NoAssistantNoText | src/inngest/utils.ts:24-36 | with no assistant message the result is undefined |
| AgentMessages.IgnoresLaterNonAssistant | src/inngest/utils.ts:24-30 | appending non-assistant messages does not change the result |
| AgentMessages.FlattenPartsAppend | src/inngest/utils.ts:35 | array content flattens to the in-order concatenation of the parts' `text` fields, with no separator |
| AgentMessages.EmptyContents | src/inngest/utils.ts:32-36 | an empty string content gives undefined, while an empty part array (truthy) gives "" |
| AgentMessages.ParseAgentOutput | src/inngest/utils.ts:39-49 | null exactly when the first message is not a text message; otherwise string content as is, or array content joined in order with "" |
| AgentMessages.FirstMessageOnly | src/inngest/utils.ts:39-41 | only the first message is consulted; later messages never change the result |
| AgentMessages.ParseAgentOutputAsWritten | src/inngest/utils.ts:45-46 | the code as written: null exactly for a non-text first message, and string content returned as is |
| AgentMessages.AsJoined | src/inngest/utils.ts:46 | `join` renders each part object as "[object Object]" |
| AgentMessages.AsWrittenLosesText | src/inngest/utils.ts:45-46 | a one-part array with text "hi" comes out as "[object Object]" as written, and as "hi" when corrected |
| AgentMessages.AsWrittenIgnoresTexts | src/inngest/utils.ts:45-46 | as written, two part arrays of the same length give the same result, whatever their texts say |
| AgentMessages.ParseAgreesWithLastAssistant | src/inngest/utils.ts:32-49 | for a single assistant text message with truthy content, the corrected `parseAgentOutput` and `lastAssistantTextMessageContent` agree |
| CodeAgent.Sandbox.Write | src/inngest/functions.ts:159 | a write succeeds exactly for a path the sandbox does not reject, and then stores the content under that path |
| CodeAgent.Sandbox.Read | src/inngest/functions.ts:201 | a read succeeds exactly for a present path that is not rejected, and gives its content |
| CodeAgent.TerminalTool | src/inngest/functions.ts:83-105 | the handler returns `TerminalReply`, never an error: stdout on success; the "Command failed: " diagnostic with both buffers when the command fails; the diagnostic with empty buffers when the connection fails |
| CodeAgent.TerminalReply | src/inngest/functions.ts:83-105 | the reply is the command's stdout when it completes, and otherwise a text starting with "Command failed: ". When the sandbox cannot be reached it is the diagnostic with both buffers empty |
| CodeAgent.StdoutOf | src/inngest/functions.ts:90-92 | `buffers.stdout` is "" when no event is stdout output; `StdoutSnoc` and `StdoutAppend` give its growth |
| CodeAgent.StderrOf | src/inngest/functions.ts:93-95 | `buffers.stderr` is "" when no event is stderr output; `StderrSnoc` and `StderrAppend` give its growth |
| CodeAgent.StdoutSnoc | src/inngest/functions.ts:90-92 | one more event appends its chunk to `buffers.stdout`: its `data` when it is stdout output, and nothing otherwise |
| CodeAgent.StderrSnoc | src/inngest/functions.ts:93-95 | one more event appends its chunk to `buffers.stderr`: its `data` when it is stderr output, and nothing otherwise |
| CodeAgent.StdoutAppend | src/inngest/functions.ts:90-92 | `buffers.stdout` over a split event stream is the concatenation of the two halves |
| CodeAgent.StderrAppend | src/inngest/functions.ts:93-95 | `buffers.stderr` over a split event stream is the concatenation of the two halves |
| CodeAgent.Diagnostic | src/inngest/functions.ts:102 | the failure text starts with "Command failed: " and the error, and ends with the stderr buffer |
| CodeAgent.TerminalFailureReply | src/inngest/functions.ts:100-104 | a failing command's reply is "Command failed: e \nstdout: o \nstderr: r", with the buffers holding every chunk in arrival order |
| CodeAgent.FirstRejected | src/inngest/functions.ts:157-159 | the index of the first write that throws: all earlier paths are accepted and that one is rejected |
| CodeAgent.Merge | src/inngest/functions.ts:157-161 | merging never drops a key, and the batch's last entry ends up stored under its path |
| CodeAgent.MergeStep | src/inngest/functions.ts:160 | merging one more entry overwrites that entry's path and nothing else |
| CodeAgent.MergeKeys | src/inngest/functions.ts:157-161 | merging a batch gives exactly the old keys plus the listed paths |
| CodeAgent.MergeLastWins | src/inngest/functions.ts:157-161 | a listed path maps to the content of its last occurrence in the batch |
| CodeAgent.MergeKeepsOthers | src/inngest/functions.ts:153-161 | a key that is not listed keeps its content |
| CodeAgent.WriteBatch | src/inngest/functions.ts:149-169 | a call throws exactly when the sandbox is unreachable or some listed path is rejected. An existing `files` stays set. A successful call always sets it. A failed first call leaves it undefined |
| CodeAgent.WriteSuccess | src/inngest/functions.ts:153-164 | after a successful call, `files` is set, its keys are the previous keys plus the listed paths, and each listed path holds its last content both in `files` and in the sandbox. Every other key keeps its content, in `files` and in the sandbox |
| CodeAgent.WriteFailure | src/inngest/functions.ts:152-168 | when the sandbox cannot be reached the call throws and nothing changes. Otherwise it rethrows the first rejected path's error, the sandbox holds the earlier entries, and `files` holds them too when it existed; when it was undefined it stays undefined |
| CodeAgent.WriteFailureContents | src/inngest/functions.ts:153-160 | after a failure, in an existing `files`, each entry written before the failure holds its last written content and every other key keeps its own |
| CodeAgent.WriteMonotone | src/inngest/functions.ts:152-168 | whether the call succeeds or fails, no existing key of `files` is removed |
| CodeAgent.Run.constructor | src/inngest/functions.ts:16-19 | a run starts with neither `summary` nor `files` set |
| CodeAgent.Run.CreateOrUpdateFiles | src/inngest/functions.ts:149-169 | the loop over the batch leaves `files`, the sandbox's files and the thrown error exactly as `WriteBatch` says |
| CodeAgent.Run.OnResponse | src/inngest/functions.ts:215-227 | the hook sets `summary` as `Hook` says and returns the result unmodified |
| CodeAgent.Hook | src/inngest/functions.ts:215-227 | the hook either leaves the summary as it was or replaces it with the last assistant text, which is then non-empty and contains `<task_summary>`. A truthy summary stays truthy |
| CodeAgent.Run.Dispatch | src/inngest/functions.ts:83-211 | one tool call gives the output of its handler, with the state change `ApplyCall` says |
| CodeAgent.Run.DispatchAll | src/inngest/functions.ts:48-212 | the calls of one turn run in order and stop at the first that throws, as `ApplyCalls` says |
| CodeAgent.Run.Turn | src/inngest/functions.ts:215-227 | one iteration of the network runs the hook and then the output's tool calls, leaving the state and the thrown error `Step` gives |
| CodeAgent.Run.Execute | src/inngest/functions.ts:231-249 | the loop of `network.run` ends in the stop value and the state that `RunFrom` gives from iteration 0 |
| CodeAgent.FirstUnreadable | src/inngest/functions.ts:200-203 | the index of the first path that cannot be read: every earlier one can |
| CodeAgent.Listing | src/inngest/functions.ts:198-203 | one `{path, content}` entry per requested path, in request order |
| CodeAgent.ReadFilesTool | src/inngest/functions.ts:195-211 | the handler returns `ReadReply` and never throws |
| CodeAgent.ReadReply | src/inngest/functions.ts:195-211 | the reply is a listing exactly when the sandbox connects and every path can be read. The listing pairs each requested path, in order, with its content. Otherwise the reply is a text starting with "Error: " |
| CodeAgent.WriteThenRead | src/inngest/functions.ts:157-206 | reading back a path after a successful write gives the content written last |
| CodeAgent.HookCaptures | src/inngest/functions.ts:215-224 | when the last assistant message is a text whose flattened content (a string, or the parts' texts joined) contains `<task_summary>`, the summary becomes that full text |
| CodeAgent.HookKeeps | src/inngest/functions.ts:215-226 | when the last assistant text does not contain the sentinel, the summary is left unchanged |
| CodeAgent.Route | src/inngest/functions.ts:235-241 | the router returns no agent exactly when the summary is truthy, and otherwise returns the code agent |
| CodeAgent.ToolCalls | src/inngest/functions.ts:48 | the tool calls handed to the tools are those of the `tool_call` messages: none without such a message, and a first such message's calls come first. `ToolCallsOfOne` and `ToolCallsAppend` give the full emission order |
| CodeAgent.ToolCallsOfOne | src/inngest/functions.ts:48 | a single message contributes its own calls when it is a `tool_call` message, and none otherwise |
| CodeAgent.ToolCallsAppend | src/inngest/functions.ts:48 | the calls of two outputs in sequence are those of the first followed by those of the second, so every `tool_call` message's calls appear in emission order |
| CodeAgent.ApplyCall | src/inngest/functions.ts:149-211 | one tool call never changes the summary; only `createOrUpdateFiles` changes the state or throws (when it throws is stated by `WriteCallThrows`) |
| CodeAgent.WriteCallThrows | src/inngest/functions.ts:149-169 | a `createOrUpdateFiles` call throws exactly when the sandbox is unreachable or a listed path is rejected |
| CodeAgent.ApplyCalls | src/inngest/functions.ts:48-212 | tool calls never change the summary |
| CodeAgent.Step | src/inngest/functions.ts:215-227 | one iteration after the router: the hook on the agent's output, then its tool calls in order; its properties are those of `Hook` and `ApplyCalls`, and `StepKeepsFiles` |
| CodeAgent.StepKeepsFiles | src/inngest/functions.ts:149-169 | one iteration removes no key of an existing `files` |
| CodeAgent.RunFrom | src/inngest/functions.ts:231-249 | the run never goes back in iterations. It finishes only with a truthy summary or at the ceiling, and it aborts only after running an iteration |
| CodeAgent.RunStopsAtSummary | src/inngest/functions.ts:231-242 | whatever the agent says, the loop runs at most 15 iterations. It stops after the first iteration that leaves the summary truthy, and never earlier. A run that ends below 15 iterations has a truthy summary |
| CodeAgent.RunKeepsFiles | src/inngest/functions.ts:149-169 | once `files` exists, no key is ever removed during the rest of the run |
| CodeAgent.CallsKeepFiles | src/inngest/functions.ts:149-169 | within one turn, no key of `files` is removed |
| CodeAgent.IsError | src/inngest/functions.ts:251-253 | `isError` holds exactly when the summary is missing or empty, or `files` is missing or has no keys |
| CodeAgent.SaveResult | src/inngest/functions.ts:281-305 | the record is ERROR exactly when `isError` holds. An error record has the fixed content and no fragment. Otherwise the content is the summary and the fragment holds the URL, the title "Fragment" and the files. The role is always ASSISTANT |
| CodeAgent.Conclude | src/inngest/functions.ts:274-312 | the run throws exactly when the loop aborted or the URL cannot be resolved. Otherwise the envelope carries the URL, "Fragment", the files and the summary, and the record is `save-result`'s for that URL |
| CodeAgent.CodeAgentSpec | src/inngest/functions.ts:281-312 | the record and the envelope agree: a RESULT's content is the returned summary, and its fragment holds the returned URL, title and files. An ERROR record has no fragment. The title is always "Fragment" |
| CodeAgent.CodeAgentFunction | src/inngest/functions.ts:24-313 | the method matches `CodeAgentSpec`: run the loop from the empty state, resolve the URL "https://" + host(3000), write the record and return the envelope, or throw when a step fails. The sandbox's files afterwards are those the loop left |
| CodeAgent.RecordOfFinishedRun | src/inngest/functions.ts:251-312 | a finished run with a reachable sandbox saves a RESULT record exactly when its summary is truthy and `files` is non-empty. The envelope carries the URL, "Fragment", the files and the summary |
| CodeAgent.ScenarioWriteThenFinish | src/inngest/functions.ts:149-312 | a write in the first turn and the sentinel in the second stop the run after two iterations, with the file in state and in the sandbox, and produce a RESULT record with that fragment |
| CodeAgent.RunsToCeiling | src/inngest/functions.ts:231-242 | while no answer carries the sentinel, a falsy summary stays unchanged. The loop then finishes only at the 15-iteration ceiling, and when the agent calls no tool it gets there with the state untouched |
| CodeAgent.SentinelFreeKeeps | src/inngest/functions.ts:215-226 | an answer whose last assistant text lacks the sentinel leaves the summary as it is |
| CodeAgent.SummaryStaysFalsy | src/inngest/functions.ts:231-242 | while no answer carries the sentinel, a falsy summary stays, and the loop finishes only at the ceiling |
| CodeAgent.QuietRunUntouched | src/inngest/functions.ts:231-242 | an agent with neither the sentinel nor tool calls reaches the ceiling with the state untouched |
| CodeAgent.ScenarioNoSentinel | src/inngest/functions.ts:231-305 | an agent that never gives the sentinel either has a write throw, or is stopped after 15 iterations with an ERROR record (fixed content, no fragment). Without tool calls it always ends that second way |
| TreeView.CurrentPath | src/components/tree-view.tsx:58 | below the empty parent path the path is the name; otherwise it is the parent path, "/", then the name |
| TreeView.IsFile | src/components/tree-view.tsx:57-60 | `!items.length`: a bare name or an array with nothing after its name. `Tree` states that exactly these render as file rows |
| TreeView.Tree | src/components/tree-view.tsx:54-73 | an item renders as a file row exactly when it has no children, and the row shows the item's name |
| TreeView.Forest | src/components/tree-view.tsx:92-100 | each child renders as one row, in order |
| TreeView.View | src/components/tree-view.tsx:13-44 | one top-level row per item, named after it; a top-level file row has the bare name as its path and is active exactly when the value is that name |
| TreeView.OnClick | src/components/tree-view.tsx:60-89 | a click hands a path to `onSelect` exactly on a file row, and that path is the row's own |
| TreeView.TreeFiles | src/components/tree-view.tsx:54-105 | every file row below an item carries the path of its route from that item and is active exactly when the selected value equals that path |
| TreeView.ForestFiles | src/components/tree-view.tsx:26-33 | the same, for a list of items under a common parent path |
| TreeView.PathBelow | src/components/tree-view.tsx:92-99 | below a non-empty parent path, a route's path is the parent path, "/", and the route's names joined by "/" |
| TreeView.PathFromTop | src/components/tree-view.tsx:57-58 | from the top-level empty parent path, a leaf's path is the "/"-join of its route after the leading empty names are dropped |
| TreeView.ViewFiles | src/components/tree-view.tsx:57-67 | the k-th file row of the whole tree has the top-level path of the k-th route, is active exactly when the selected value is that path, and a click reports that path |
| TreeView.ViewPathsStable | src/components/tree-view.tsx:57-62 | changing the selected value changes only which rows are active, never the rows' paths or their number |
| TreeView.FoldersDoNotSelect | src/components/tree-view.tsx:81-89 | clicking a folder never calls `onSelect` |
| FileExplorer.LanguageFromExtension | src/components/file-explorer.tsx:17-20 | the language is the lower-cased part after the last ".", or "text" when that part is empty |
| FileExplorer.NoDotLanguage | src/components/file-explorer.tsx:18-19 | a non-empty name without "." gives the whole name, lower-cased |
| FileExplorer.EmptyExtensionLanguage | src/components/file-explorer.tsx:19 | an empty name, or one ending in ".", gives "text" |
| FileExplorer.LastDotWins | src/components/file-explorer.tsx:18 | only the part after the last "." counts, whatever comes before it |
| FileExplorer.MaxSegments | src/components/file-explorer.tsx:29 | at most 2 or 3 segments are shown in full, fewer on a small screen |
| FileExplorer.AllSegments | src/components/file-explorer.tsx:33-54 | the full rendering is non-empty and ends with the last segment as the page; `AllSegmentsShape` gives the rest |
| FileExplorer.FileBreadcrumb | src/components/file-explorer.tsx:26-88 | the breadcrumb always ends with the last segment as the page and, with more than one segment, starts with the first segment; `BreadcrumbShowsAll` and `BreadcrumbCollapses` give the two renderings in full |
| FileExplorer.AllSegmentsShape | src/components/file-explorer.tsx:33-54 | the full rendering shows one item per segment, only the last as the page, with one separator fewer than segments |
| FileExplorer.BreadcrumbShowsAll | src/components/file-explorer.tsx:28-54 | with at most `maxSegments` segments (2 on mobile, 3 otherwise), every segment is shown in order, only the last as the page, with count−1 separators. The labels joined by "/" give back the path |
| FileExplorer.LabelsOfSegments | src/components/file-explorer.tsx:33-54 | the labels shown are the segments, in order |
| FileExplorer.BreadcrumbCollapses | src/components/file-explorer.tsx:55-77 | with more segments, exactly three items are shown (the first segment, an ellipsis and the last segment as the page), with two separators |
| FileExplorer.HasContent | src/components/file-explorer.tsx:111 | `files[p]` is truthy exactly for a key with non-empty content or, when `p` is no key, for a name every object inherits (such as "toString") |
| FileExplorer.Get | src/components/file-explorer.tsx:111 | the property lookup `files[p]`: an own key, else an inherited member, else undefined. Its meaning is stated through the `HasContent` and `CodePane` rows |
| FileExplorer.IsTruthy | src/components/file-explorer.tsx:111 | JavaScript truthiness of that lookup, stated through the `HasContent` row |
| FileExplorer.Init | src/components/file-explorer.tsx:99-102 | the initial selection is the first key, or null when there are no files |
| FileExplorer.HandleSelectFile | src/components/file-explorer.tsx:108-114 | the selection moves to `p` when `files[p]` is truthy (an own key with content or an inherited name), and does not change otherwise |
| FileExplorer.InitValid | src/components/file-explorer.tsx:99-102 | the initial state keeps the explorer invariant: there is a selection whenever there are files, and it is a key or an inherited name |
| FileExplorer.SelectValid | src/components/file-explorer.tsx:108-114 | selecting keeps that invariant |
| FileExplorer.SelectIdempotent | src/components/file-explorer.tsx:108-114 | selecting the same path twice is the same as selecting it once |
| FileExplorer.EmptyFileNotSelectable | src/components/file-explorer.tsx:111 | a file with empty content cannot become the selection |
| FileExplorer.ShowsContent | src/components/file-explorer.tsx:164 | the guard passes only for a non-empty selected path that is a key or an inherited name; for a key it passes exactly when the path is non-empty and its content is too |
| FileExplorer.CodePane | src/components/file-explorer.tsx:164-167 | content is shown exactly when the selected path is non-empty and `files[path]` is truthy. The pane then shows the file's content (or, for an inherited name that is no key, the inherited member), the breadcrumb of the path and the path's language |
| FileExplorer.EmptyFirstFileSelectedNotShown | src/components/file-explorer.tsx:99-102 | an empty first file is selected at first but its content is not shown |
| FileExplorer.EmptyPathNotShown | src/components/file-explorer.tsx:164 | a file stored under the empty path can be selected but is never shown, because "" is falsy |
| FileExplorer.InheritedNameSelected | src/components/file-explorer.tsx:111-190 | a path such as "toString" that is no key is still selected, and the pane shows the inherited member in place of file content |
| FileExplorer.TreeClickSelects | src/components/file-explorer.tsx:146-150 | clicking the k-th file of the tree passes its path to `handleSelectFile`. If `files[path]` is truthy, the tree then marks that row active and the pane shows it (unless the path is empty). Otherwise nothing changes |

## Left out

- The sandbox provider (`Sandbox.create`, `Sandbox.connect`, `commands.run`, `files.write`/`read`, `getHost`) is remote I/O. It is replaced by the environment value described above:
  - reachability is fixed for the whole run;
  - shell commands do not change the sandbox's files;
  - sandbox creation and its template are not modelled.
- The language model and the agent-kit internals (`createAgent`, `createNetwork`) are foreign. Two things are taken as the library's behaviour: the responses are arbitrary, and the 15-iteration count is kept as `RunFrom` counts it. Two further details are assumptions of the model and outside the code shown:
  - the hook runs before the tool calls of the same response;
  - a tool that throws rejects `network.run`.
- Durable-execution memoisation and retry of `step.run` are not modelled. Each step runs once.
- The database writes are modelled only as the record value they would create.
- Serialisation is abstract. `JSON.stringify` of the listing is kept as the listing itself (`JsonOutput`). The text form of a thrown error is the environment's `describe`.
- The commented-out handlers and steps are dead code and are not modelled.
- Console logging is not modelled.
- `handleCopy`, the clipboard, the toasts and the `setTimeout` reset of `copied` are React side effects and are not modelled. Neither are the rendering and the syntax highlighting.
- The props of `FileExplorer` can change after mount, but `useState` keeps its first selection. This is not modelled: the explorer's files are fixed.
- `convertFilesToTreeItems` is not part of this model. The tree is taken as an input, so the model does not prove that tree paths are keys of `files`. `TreeClickSelects` covers both cases, including a tree path that is an inherited name but no key.
- `Object.keys` order (integer-like keys first) is not computed. The key order is an input `keys` that lists each key once.
- FileExplorer.Valid: after a click the selection need not be a key, since `files[p]` also finds inherited names; the invariant therefore admits those names, and only `Init` promises a key. The inherited names are the members of `Object.prototype` in current engines; a prototype changed at run time is not modelled.
- Text.Lower: only ASCII letters are lower-cased, whereas JavaScript's `toLowerCase` covers all of Unicode.
- FileExplorer.BreadcrumbCollapses: the collapsed rendering nests the later items inside the first `BreadcrumbItem`. The model states only the order of the items and separators shown, not that nesting.
- AgentMessages.ParseAgentOutput requires a non-empty list. On an empty list the code dereferences `value[0].type` and throws a `TypeError`, which is not modelled.
- The conversation-history loader and the title and reply summarisers do not appear in the code. The title is the constant "Fragment" and the content is the raw summary, and those are what is modelled.

## Findings

| source | as written | input that shows it | evidently intended | confidence | as-written member | corrected member |
|---|---|---|---|---|---|---|
| src/inngest/utils.ts:45-46 | `output.content.map((txt) => txt).join("")` joins the part objects themselves, so each part becomes "[object Object]" | a first message of type text whose content is `[{ type: "text", text: "hi" }]` gives "[object Object]" | join the parts' `text` fields, as `lastAssistantTextMessageContent` does, giving "hi" | not executed | AgentMessages.ParseAgentOutputAsWritten, AgentMessages.AsWrittenLosesText | AgentMessages.ParseAgentOutput |
