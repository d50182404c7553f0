# goder, modelled in Dafny

goder is a terminal coding assistant. A user types a prompt; the agent
sends the conversation to a language model (OpenAI's Responses API),
streams the reply to the screen, runs the tools the model asks for
(glob, grep, ls, view, bash, write, edit, fetch), asking the user for
permission before the tools that change things, feeds the results back
to the model, and repeats until the model answers without tool calls or
an iteration limit is reached.

This project models the core of that machinery and proves what it
promises:

- `openai.dfy` (module `OpenAI`): the decoder that turns the server-sent
  event lines of a streamed reply into start / delta / end / done / error
  events, the translation of the message history into request input
  items, the request body, the model-list filter and sort, and the
  provider object's setters.
- `agent.dfy` (module `Agent`): the agent loop. Each turn reads one
  provider stream, builds the assistant message, runs the tool calls
  through the decision chain of `executeTool` and appends the results to
  the history. The loop is written twice: as a specification
  (`RunFrom`, `ToolsFrom`, `AccFrom`, `ExecuteOn`) about which the
  properties are proved, and as the imperative `Agent` class, whose
  methods are proved to produce exactly what the specification says.
- `permission.dfy` (module `Permission`): the permission service with its
  session allowlist.
- `tools.dfy` (module `Tools`): the insertion-ordered tool registry and the
  eight built-in tool descriptions.
- `message.dfy` (module `Messages`) and `provider.dfy` (module
  `Provider`): messages, tool calls and results, stream events, requests
  and tool definitions.
- `edit.dfy`, `view.dfy`, `grep.dfy`, `bash.dfy`: what the edit, view,
  grep and bash tools compute, with the file system, regular expressions,
  globbing and the subprocess given as parameters.
- `display.dfy` (module `Display`): the message list of the terminal
  interface (its mutators, the viewport window and the truncation of tool
  input and output).
- `settings.dfy` (module `Settings`): the settings overlay's key handling,
  the masked API key and the model list's scroll window.
- `text.dfy` (module `Text`): the parts of Go's `strings`, `strconv`,
  `sort` and `path/filepath` packages that the core relies on (prefix,
  index, count, replace, join, trim, integer parsing and printing,
  byte-wise string order and sorting, absolute paths).

Everything outside the process is an input. The agent loop runs in a
`World`: whether the context is cancelled at each check, what the provider
streams back for each request, how each permission exchange with the user
ends and what each tool execution returns. The stream decoder reads lines
whose JSON payload is already decoded. The tools read files and run
commands through function parameters.

### Where the source disagrees with itself

- `message.Message` declares no token counters
  (internal/message/message.go:37-45), yet the agent sets
  `InputTokens`, `OutputTokens` and `TotalTokens` on it
  (internal/llm/agent/agent.go:212-214). `Message` here carries the three
  counters as natural numbers, as the callers use them.
- The agent reads a `provider.Usage` from the Done event
  (internal/llm/agent/agent.go:154, 205), but the decoder never sets one
  (internal/llm/provider/openai.go:450, 491). The decoder is modelled as
  sending Done with zero usage (`NoUsage`, proved in
  `OpenAI.DecodeShape`), so the token counters of a run reach the
  assistant message as zero; the agent side is proved for any usage.
- `prompt.BuildSystemPrompt` is called with three arguments
  (internal/llm/agent/agent.go:116) but takes four. The system prompt is
  a parameter of `Agent.Agent.RunLoop`.
- At `response.completed` only the calls already announced with a start
  event get an end event; calls that were never announced are dropped
  silently (internal/llm/provider/openai.go:440-447). The model keeps
  this behaviour (`OpenAI.FlushCount`).

## Model

| member | source | states |
|---|---|---|
| Messages.NewUserMessage | internal/message/message.go:58-66 | role User, the given session and content; neither a tool call nor a tool result; zero token counters |
| Messages.NewAssistantMessage | internal/message/message.go:69-78 | role Assistant with exactly the given tool calls; it is a tool call exactly when there is at least one call, and never a tool result |
| Messages.NewToolResultMessage | internal/message/message.go:81-89 | role Tool, empty content, exactly the given results; a tool result exactly when there is at least one, never a tool call |
| Messages.NewSystemMessage | internal/message/message.go:92-100 | role System with the given content; neither a tool call nor a tool result |
| Provider.Definition | internal/llm/provider/provider.go:77-81 | a definition copies the tool's name, description and parameters unchanged |
| Provider.ToolsToDefinitions | internal/llm/provider/provider.go:73-84 | one definition per registered tool, in registry order, with no permission filter |
| Tools.Registry.constructor | internal/tools/tool.go:50-54 | a new registry holds no tools and an empty order |
| Tools.Registry.Register | internal/tools/tool.go:57-66 | the tool is stored under its name; a new name is appended to the order, a known one keeps the order, so the order never holds a name twice |
| Tools.Registry.Get | internal/tools/tool.go:69-75 | finds a tool exactly when its name is registered, and then returns the stored tool |
| Tools.Registry.All | internal/tools/tool.go:78-87 | one tool per name of the order, in insertion order |
| Tools.Registry.Execute | internal/tools/tool.go:90-96 | an unknown name gives the "unknown tool" error without running anything; a known one runs that tool on the input |
| Tools.DefaultNamesAt | internal/tools/tool.go:99-117 | the built-in tools are glob, grep, ls, view, bash, write, edit, fetch, in that order |
| Tools.DefaultNames | internal/tools/tool.go:99-117 | the names of the built-in tools are the default name list |
| Tools.DefaultNamesDistinct | internal/tools/tool.go:103-114 | the eight built-in names are distinct, so each registration appends |
| Tools.DefaultPermissions | internal/tools/tool.go:102-114 | exactly bash, write and edit require permission |
| Tools.RegisterAll | internal/tools/tool.go:99-116 | registering tools with distinct names into an empty registry leaves their names as the order and the tools themselves as its contents |
| Tools.DefaultRegistry | internal/tools/tool.go:99-117 | a fresh valid registry holding the eight built-in tools in registration order |
| Permission.Decide | internal/permission/permission.go:48-85 | an allowlisted tool is allowed without a request; otherwise a request is sent unless cancelled first; cancellation denies; only AllowForSession extends the allowlist and it allows; Allow and Deny pass through; AllowForSession is never returned |
| Permission.CheckOn | internal/permission/permission.go:48-85 | the answer is the decision for the current allowlist; the allowlist only grows, and only by this tool; the request log grows by at most this tool's request |
| Permission.CheckOnGrows | internal/permission/permission.go:74-81 | a check never removes a tool from the allowlist nor a request from the log |
| Permission.AllowForSessionSticks | internal/permission/permission.go:50-53 | after an AllowForSession reply the next check of that tool allows at once, without a new request |
| Permission.Service.constructor | internal/permission/permission.go:33-38 | a new service has an empty allowlist and has sent no request |
| Permission.Service.IsAllowed | internal/permission/permission.go:95-99 | true exactly when the allowlist maps the tool to true |
| Permission.Service.Check | internal/permission/permission.go:48-85 | the answer and the new state are those of CheckOn on the old state |
| Permission.Service.Reset | internal/permission/permission.go:88-92 | the allowlist is emptied, so no tool is allowed afterwards |
| Agent.Absorb | internal/llm/agent/agent.go:156-207 | one stream event: the events sent only grow; an end whose id had no start is ignored; a non-empty end input supersedes the accumulated deltas; only an Error event fails the turn and it is forwarded as one AgentError; otherwise only stream-text and tool-call events are forwarded |
| Agent.AccText | internal/llm/agent/agent.go:158-159 | without an Error event, the assistant text is the concatenation of the text deltas |
| Agent.AccUsage | internal/llm/agent/agent.go:204-205 | without an Error event, the usage is the one of the last Done event |
| Agent.AccGrows | internal/llm/agent/agent.go:156-202 | reading a stream only appends events, and it fails exactly when the stream holds an Error event |
| Agent.AccEvents | internal/llm/agent/agent.go:156-202 | a clean stream forwards only stream-text and tool-call events; a failed one forwards those and ends with one AgentError carrying the error |
| Agent.AccStreamedOnly | internal/llm/agent/agent.go:158-198 | a stream without an Error event forwards only stream-text and tool-call events |
| Agent.AccFailure | internal/llm/agent/agent.go:200-202 | a stream with an Error event ends the forwarded events with one AgentError carrying that error |
| Agent.AssistantOf | internal/llm/agent/agent.go:211-214 | the assistant message holds the streamed text, the finalized calls and the usage counters |
| Agent.ToolDefsForAll | internal/llm/agent/agent.go:321-335 | outside plan mode every registered tool is offered, in registry order |
| Agent.ToolDefsForOrder | internal/llm/agent/agent.go:321-335 | the offered definitions keep registry order |
| Agent.ToolDefsForComplete | internal/llm/agent/agent.go:324-332 | every tool that is not blocked by plan mode is offered |
| Agent.ToolDefsForSound | internal/llm/agent/agent.go:324-332 | every offered definition comes from a tool not blocked by plan mode, so plan mode omits exactly the tools that require permission |
| Agent.ExecuteOn | internal/llm/agent/agent.go:265-318 | the result carries the call's id and name; the permission state changes only through one permission check |
| Agent.ExecuteOnRefuses | internal/llm/agent/agent.go:266-286 | an unknown tool, or a tool requiring permission in plan mode, gives an error-flagged result without asking and without running |
| Agent.ExecuteOnAsks | internal/llm/agent/agent.go:288-290 | permission is asked exactly for a known tool that requires it, outside plan mode, when there is a permission service |
| Agent.ExecuteOnRuns | internal/llm/agent/agent.go:289-302 | a Deny gives "Permission denied by user." flagged as an error and nothing runs; the tool runs exactly when it is known, allowed by the mode and not denied |
| Agent.ExecuteOnReports | internal/llm/agent/agent.go:302-317 | a tool error becomes "Error: " and the message, flagged; an output is passed on, not flagged |
| Agent.ToolsShape | internal/llm/agent/agent.go:229-246 | without cancellation one result and one result event per call; a cancellation ends the calls with one AgentError; results and events follow the call order and carry each call's id and name |
| Agent.ToolsCount | internal/llm/agent/agent.go:229-246 | at most one result per remaining call; exactly one per call when nothing is cancelled; a cancellation adds one AgentError after the results |
| Agent.ToolsOrder | internal/llm/agent/agent.go:236-245 | the k-th result and result event belong to the k-th call |
| Agent.ToolsPermission | internal/llm/agent/agent.go:277-290 | running the calls only grows the allowlist and the request log; in plan mode nothing is asked |
| Agent.ToolsEvents | internal/llm/agent/agent.go:230-246 | the result events are not terminal; a cancellation ends them with exactly one AgentError |
| Agent.ToolsCancelled | internal/llm/agent/agent.go:231-234 | a cancellation before any remaining call stops the tool calls |
| Agent.RunEndsOnce | internal/llm/agent/agent.go:115-262 | every run sends exactly one AgentDone or AgentError, as its last event, and makes at most one request per remaining iteration |
| Agent.RunCap | internal/llm/agent/agent.go:124-261 | if every reply asks for tools and nothing is cancelled, the run makes exactly maxIterations requests and ends with the "maximum iterations" AgentError |
| Agent.RunStops | internal/llm/agent/agent.go:125-142 | a cancellation at the top of an iteration, a request that fails, or an Error event in the stream ends the run with one AgentError (carrying the cause) and no AgentDone |
| Agent.RunToolCancelled | internal/llm/agent/agent.go:226-234 | a cancellation before a tool call ends the run with one AgentError and no AgentDone, after the assistant message was persisted |
| Agent.FinalAnswer | internal/llm/agent/agent.go:156-223 | a clean reply without tool calls ends the run with one AgentDone after the forwarded events, no PersistMessage, and its message holds the concatenated text and the last usage |
| Agent.ToolTurn | internal/llm/agent/agent.go:225-253 | a clean reply with tool calls: the forwarded events, the persisted assistant message, one result event per call in call order, then the persisted tool-result message whose results answer the calls one by one; the next iteration sees both messages |
| Agent.RunPermission | internal/llm/agent/agent.go:288-299 | a whole run only grows the allowlist and the request log; in plan mode it asks nothing |
| Agent.ReadStream | internal/llm/agent/agent.go:156-208 | the loop over a stream computes the accumulation specified by AccFrom |
| Agent.Agent.New | internal/llm/agent/agent.go:80-94 | the configuration is copied; a non-positive iteration limit becomes 25 |
| Agent.Agent.SetMode | internal/llm/agent/agent.go:97-99 | only the mode changes |
| Agent.Agent.BuildToolDefs | internal/llm/agent/agent.go:321-335 | the definitions of the registered tools in order, without those requiring permission in plan mode |
| Agent.Agent.ExecuteTool | internal/llm/agent/agent.go:265-318 | the result and the new permission state are those of ExecuteOn |
| Agent.Agent.RunTools | internal/llm/agent/agent.go:229-246 | the events, results, permission state and cancellation are those of ToolsFrom |
| Agent.Agent.RunTool | internal/llm/agent/agent.go:230-245 | one pass of the tool loop: a cancellation is reported as one AgentError, otherwise the call runs and its result and event are appended, as ToolsFrom says |
| Agent.Agent.Iterate | internal/llm/agent/agent.go:124-256 | one iteration either finishes the run with the events RunFrom gives, or sends its events and leaves the rest of the run to the next iteration on the extended history |
| Agent.Agent.RunLoop | internal/llm/agent/agent.go:115-262 | the events sent and the permission state reached are those of RunFrom |
| OpenAI.HasAnyPrefix | internal/llm/provider/openai.go:93-100 | true exactly when one of the prefixes starts the id |
| OpenAI.IsSupportedModel | internal/llm/provider/openai.go:53 | true exactly when the id starts with gpt-, o1, o3, o4 or chatgpt- |
| OpenAI.SupportedOnly | internal/llm/provider/openai.go:81-86 | each supported id is kept exactly as often as it is listed, every other id is dropped |
| OpenAI.SupportedSorted | internal/llm/provider/openai.go:81-88 | the result is sorted and is a permutation of the supported ids |
| OpenAI.CallItems | internal/llm/provider/openai.go:256-263 | one function_call item per tool call, in order, with its id, name and arguments |
| OpenAI.ResultItems | internal/llm/provider/openai.go:267-273 | one function_call_output item per result, in order, keyed by the call id |
| OpenAI.ItemsOf | internal/llm/provider/openai.go:240-281 | a user message gives one item; an assistant message one content item only if its content is non-empty, then its calls; a tool message its results; a system message one developer item |
| OpenAI.InputOfAppend | internal/llm/provider/openai.go:239-282 | the input items of a history are those of its parts in order |
| OpenAI.InputOfLength | internal/llm/provider/openai.go:239-282 | every message except an assistant message with no content and no calls, or a tool message without results, gives at least one item |
| OpenAI.BuildInput | internal/llm/provider/openai.go:233-285 | the loop builds the input items InputOf specifies |
| OpenAI.AppendItems | internal/llm/provider/openai.go:240-281 | one message's items are appended |
| OpenAI.AppendCalls | internal/llm/provider/openai.go:256-263 | the call items are appended in order |
| OpenAI.AppendResults | internal/llm/provider/openai.go:267-273 | the result items are appended in order |
| OpenAI.EffectiveMaxTokens | internal/llm/provider/openai.go:180-183 | a non-positive limit becomes 4096, any other is kept |
| OpenAI.TypeName | internal/llm/provider/openai.go:332-473 | every handled event type has a wire name that maps back to it |
| OpenAI.StepEvent | internal/llm/provider/openai.go:332-482 | a non-lifecycle event emits at most two non-terminal events; completed, and only it, flushes the open calls; failed and incomplete, and only they, finish with an Error |
| OpenAI.StepLine | internal/llm/provider/openai.go:302-330 | a cancelled context ends the stream with its error; blank, comment, event and other non-data lines and malformed payloads emit nothing |
| OpenAI.Flush | internal/llm/provider/openai.go:439-449 | the completion flush emits only end events, at most one per open call |
| OpenAI.FlushCount | internal/llm/provider/openai.go:439-449 | the flush emits exactly one end event per started call; unstarted calls are dropped |
| OpenAI.FlushContains | internal/llm/provider/openai.go:440-447 | every started open call gets its end event |
| OpenAI.DecodeShape | internal/llm/provider/openai.go:288-492 | the decoded stream is non-terminal events, then flushed end events, then one terminal event; a Done carries no usage |
| OpenAI.OneTerminal | internal/llm/provider/openai.go:437-491 | any emitted sequence has exactly one terminal event and it is the last |
| OpenAI.EndOfInputIsDone | internal/llm/provider/openai.go:490-491 | input that ends without a terminal line and without a read error ends with Done and flushes nothing |
| OpenAI.ReadErrorIsError | internal/llm/provider/openai.go:485-488 | a read error after the lines ends with the "reading stream" Error |
| OpenAI.CompletedFlushes | internal/llm/provider/openai.go:437-451 | a completed line flushes the open calls, emits Done and stops reading |
| OpenAI.TextDeltaEmitted | internal/llm/provider/openai.go:335-341 | a non-empty text delta emits exactly one TextDelta with the same text, an empty one nothing |
| OpenAI.StartedOnce | internal/llm/provider/openai.go:350-365 | an added function call with id and name emits its start at once; its item-done then emits only the end and closes the call |
| OpenAI.StartedLate | internal/llm/provider/openai.go:411-433 | an added function call missing its id or name emits nothing; its item-done emits the start and then the end |
| OpenAI.ItemDoneStep | internal/llm/provider/openai.go:411-433 | whatever came before: item-done for an open started call emits only its end, for an open unstarted call the start then the end, and closes it; for a call no longer open it emits and changes nothing; the end carries the item's arguments if any, else the accumulated ones |
| OpenAI.DeltaAccumulates | internal/llm/provider/openai.go:368-384 | a non-empty argument delta extends the call's buffer, creating an empty placeholder for an unknown id, emits one delta event, and leaves other calls alone |
| OpenAI.ArgumentsDoneEnds | internal/llm/provider/openai.go:386-413 | arguments-done emits one end whose input is the event's delta if non-empty, else the buffer, and closes the call, so a later item-done for it emits nothing |
| OpenAI.LineData | internal/llm/provider/openai.go:311-330 | a payload is read exactly from a well-formed data line |
| OpenAI.FinishStream | internal/llm/provider/openai.go:437-473 | a lifecycle event emits the ending the decoder specifies |
| OpenAI.HandleEvent | internal/llm/provider/openai.go:332-434 | a non-lifecycle event updates the open calls and emits what StepEvent says |
| OpenAI.FlushCalls | internal/llm/provider/openai.go:439-449 | the loop over the open calls emits the flush, in some order |
| OpenAI.ProcessStream | internal/llm/provider/openai.go:288-492 | the events sent are those the decoder specifies, with the flush in any order |
| OpenAI.ProcessLine | internal/llm/provider/openai.go:302-482 | one line either continues with the step's open calls and events or ends the stream with its ending |
| OpenAI.FlatTools | internal/llm/provider/openai.go:170-178 | one function tool per definition, in order, copying name, description and parameters |
| OpenAI.OpenAIProvider.constructor | internal/llm/provider/openai.go:26-32 | the key and model are stored, with the public API base URL |
| OpenAI.OpenAIProvider.SetAPIKey | internal/llm/provider/openai.go:37 | only the key changes |
| OpenAI.OpenAIProvider.SetModel | internal/llm/provider/openai.go:40 | only the model changes |
| OpenAI.OpenAIProvider.BuildRequest | internal/llm/provider/openai.go:165-193 | the body carries the model, the system prompt as instructions, the translated history, the flat tools, streaming on, storage off and the effective token limit |
| OpenAI.OpenAIProvider.SendMessage | internal/llm/provider/openai.go:165-230 | a transport failure and a non-200 status are errors with their messages; a streamed reply gives the events the decoder specifies |
| OpenAI.OpenAIProvider.ListModels | internal/llm/provider/openai.go:57-89 | transport, status and decoding failures are errors; otherwise the supported ids, sorted ascending, each as often as listed |
| Edit.NewContent | internal/tools/edit.go:80-94 | a missing old_string is an error; replace_all replaces every occurrence; otherwise several occurrences are an error naming the count and a single one is replaced |
| Edit.EditSucceeds | internal/tools/edit.go:80-94 | the edit succeeds exactly when old_string occurs, and occurs once unless replace_all is set |
| Edit.ChangedIffDifferent | internal/tools/edit.go:96-98 | a successful edit leaves the text unchanged exactly when old_string equals new_string |
| Edit.SingleReplacement | internal/tools/edit.go:89-93 | without replace_all a successful edit replaces the single occurrence, which is the same as replacing all |
| Edit.Execute | internal/tools/edit.go:57-106 | parse and read errors are reported; the new text is written to the resolved path only when it differs; the write error or the success message follows |
| Text.Index | internal/tools/edit.go:93 | the position of the first occurrence, or -1 when there is none |
| Text.CountPositiveIffContains | internal/tools/edit.go:80-92 | the count of occurrences is positive exactly when the pattern occurs |
| Text.ReplaceAllLength | internal/tools/edit.go:86 | replacing all occurrences changes the length by the count times the length difference |
| Text.ReplaceAllSame | internal/tools/edit.go:96-97 | replacing a pattern by itself changes nothing |
| Text.ReplaceAllChanges | internal/tools/edit.go:85-96 | replacing an occurring pattern by a different text changes the text |
| Text.ReplaceFirstChanges | internal/tools/edit.go:93-96 | the same for the first occurrence |
| Text.SingleOccurrenceReplace | internal/tools/edit.go:89-93 | with a single occurrence, replacing the first is replacing all |
| Text.NoOccurrenceReplaceAll | internal/tools/edit.go:80-86 | with no occurrence, replacing all changes nothing |
| Text.TrimPrefix | internal/llm/provider/openai.go:325 | the prefix followed by the result is the line |
| Text.TrimLeftSpace | internal/tui/settings.go:202 | only leading white space is removed, and all of it |
| Text.TrimRightSpace | internal/tui/settings.go:202 | only trailing white space is removed, and all of it |
| Text.NatToString | internal/tools/bash.go:98 | the decimal digits whose value is the number |
| Text.Atoi | internal/tui/settings.go:208 | a parsed value lies in the 64-bit range; which strings parse, and to what, is stated by the four lemmas below |
| Text.AtoiDigits | internal/tui/settings.go:208-213 | a string of digits within range parses to its value |
| Text.AtoiUnsigned | internal/tui/settings.go:208-213 | a non-empty run of digits parses to its value when that is at most 2^63-1, and fails otherwise |
| Text.AtoiPlus | internal/tui/settings.go:208-213 | a leading '+' before a run of digits gives the same result as the digits alone |
| Text.AtoiMinus | internal/tui/settings.go:208-213 | a leading '-' before a run of digits gives the negated value when that is at least -2^63, and fails otherwise |
| Text.AtoiRejects | internal/tui/settings.go:208-213 | the empty string, a lone sign, a first character that is neither sign nor digit, and any later non-digit all fail |
| Text.LessEqTotal | internal/llm/provider/openai.go:87 | any two strings are ordered one way or the other |
| Text.LessEqTransitive | internal/llm/provider/openai.go:87 | the string order is transitive |
| Text.LessEqAntisymmetric | internal/llm/provider/openai.go:87 | strings ordered both ways are equal |
| Text.Insert | internal/llm/provider/openai.go:87 | inserting into a sorted list keeps it sorted and adds exactly the element |
| Text.SortStrings | internal/llm/provider/openai.go:87 | the result is sorted and a permutation of the input |
| Text.Resolve | internal/tools/edit.go:69-71 | an absolute path is kept, a relative one is joined to the working directory |
| Text.ResolveIsAbs | internal/tools/edit.go:69-71 | with an absolute working directory the resolved path is absolute |
| View.StartLine | internal/tools/view.go:64-66 | a non-positive offset becomes 1, any other is kept |
| View.LineLimit | internal/tools/view.go:67-69 | a non-positive limit becomes 2000, any other is kept |
| View.ShownLine | internal/tools/view.go:99-101 | a line longer than 2000 is cut to its first 2000 characters plus "... (truncated)"; shorter lines are kept |
| View.WindowSize | internal/tools/view.go:88-95 | no line when the offset is past the end, otherwise the smaller of the limit and the number of lines from the offset to the end |
| View.Selection | internal/tools/view.go:88-103 | exactly the lines numbered offset to offset+limit-1 that exist, in file order, each as "N: text" with its 1-based number |
| View.SelectionEmpty | internal/tools/view.go:109-111 | the selection is empty exactly when the offset is past the end of the file |
| View.WholeFile | internal/tools/view.go:88-103 | from line 1 with a large enough limit, every line is shown, numbered |
| View.Paging | internal/tools/view.go:88-95 | reading a+b lines is reading a lines and then the next b |
| View.ScanWindow | internal/tools/view.go:87-103 | the scanning loop collects the selection and stops early exactly when the file reaches past the window |
| View.Execute | internal/tools/view.go:54-114 | parse and open errors are reported; a read error counts only if the scan reached it; an empty selection gives "(empty file or offset beyond end of file)", otherwise the selected lines joined by newlines |
| Grep.BaseDir | internal/tools/grep.go:72-79 | the working directory, an absolute path, or the working directory joined with a relative path |
| Grep.FilePattern | internal/tools/grep.go:82-85 | "**/*", or "**/" followed by the include pattern |
| Grep.MatchingLines | internal/tools/grep.go:118-123 | 1-based numbers of matching lines only, strictly increasing |
| Grep.MatchingLinesComplete | internal/tools/grep.go:118-123 | every matching line is found |
| Grep.FileHits | internal/tools/grep.go:116-123 | one "relpath:N: line" hit per matching line |
| Grep.FileHitsPrefix | internal/tools/grep.go:119-128 | the hits of the first lines of a file are a prefix of the file's hits |
| Grep.AllHits | internal/tools/grep.go:96-132 | no files give no hits |
| Grep.AllHitsPrefix | internal/tools/grep.go:96-132 | the hits of the first files are a prefix of the hits of more files |
| Grep.AllHitsLast | internal/tools/grep.go:102-114 | a directory, an unstat-able or unopenable file, or a file over 1 MiB adds no hits; a searchable file adds one per matching line |
| Grep.Report | internal/tools/grep.go:124-138 | no hits give "No matches found."; fewer than 100 are joined; from the 100th on, the first 100 and the truncation note |
| Grep.Reached | internal/tools/grep.go:97-99 | the scan covers the files before the cancellation, or all of them |
| Grep.SearchFile | internal/tools/grep.go:117-131 | the scan of one file appends its hits line by line and stops at the 100th result |
| Grep.Search | internal/tools/grep.go:93-138 | the loop's output is the report of the hits of the files scanned before any cancellation |
| Grep.TruncatedHits | internal/tools/grep.go:124-128 | stopping at the 100th hit gives the same report as scanning everything |
| Grep.Execute | internal/tools/grep.go:57-139 | parse, regex and glob errors are reported; otherwise the report over the globbed files under the base directory |
| Bash.TimeoutSeconds | internal/tools/bash.go:59-61 | a non-positive timeout becomes 120 seconds, any other is kept |
| Bash.CombinedParts | internal/tools/bash.go:76-86 | the output starts with stdout, ends with stderr, is empty exactly when both are, and puts a newline and the STDERR header between them |
| Bash.AssembleOutput | internal/tools/bash.go:76-88 | the builder steps produce the combined output |
| Bash.Truncate | internal/tools/bash.go:91-94 | output longer than 50000 is cut to its first 50000 characters plus "\n... (output truncated)" |
| Bash.AsOutcome | internal/llm/agent/agent.go:302-317 | an error becomes the tool's failure, otherwise its output |
| Bash.Execute | internal/tools/bash.go:50-112 | a timeout gives the output with the timed-out note and an error; a failure with no output an error; a failure with output the output and the exit code, no error; success the output or "(no output)" |
| Bash.SuccessShowsOutput | internal/tools/bash.go:76-94 | the shown output begins with the combined output, and with stdout when it fits |
| Display.TextEntry | internal/tui/messages.go:50-56 | an entry with the role and content, neither tool call, tool result nor streaming |
| Display.ToolCallEntry | internal/tui/messages.go:137-144 | an assistant tool-call entry with the tool's name and input |
| Display.ToolResultEntry | internal/tui/messages.go:159-167 | a tool-result entry with name, output and error flag |
| Display.StreamingEntry | internal/tui/messages.go:117-122 | a streaming assistant entry with the content |
| Display.EntriesOf | internal/tui/messages.go:72-106 | a tool-call message gives one entry per call plus one content entry if the content is non-empty; a tool-result message one entry per result; any other message one entry |
| Display.EntriesAppend | internal/tui/messages.go:70-109 | the entries of a history are those of its parts in order |
| Display.EntriesLength | internal/tui/messages.go:70-109 | the number of entries is the sum of the per-message counts |
| Display.LastToolCall | internal/tui/messages.go:149-156 | the last tool-call entry with the name, or none when there is none |
| Display.Window | internal/tui/messages.go:215-222 | start = max(0, n-height-offset), end = min(start+height, n): as many lines as fit, the last ones at offset 0 |
| Display.Visible | internal/tui/messages.go:209-224 | the shown lines are as many as fit, the last ones at offset 0 |
| Display.ShownInput | internal/tui/messages.go:240-243 | a tool input longer than 200 is cut to 200 characters plus "..." |
| Display.ShownOutput | internal/tui/messages.go:253-256 | a tool output longer than 500 is cut to 500 characters plus "\n... (truncated)" |
| Display.RenderTool | internal/tui/messages.go:236-264 | the text of a tool-call or tool-result entry, with its input or output truncated |
| Display.AppendEntries | internal/tui/messages.go:72-107 | one message's entries are appended |
| Display.MessageList.constructor | internal/tui/messages.go:40-42 | a new list is empty, at the bottom, with streaming index -1 |
| Display.MessageList.Count | internal/tui/messages.go:45-47 | the number of entries |
| Display.MessageList.Add | internal/tui/messages.go:50-57 | appends one entry and scrolls to the bottom |
| Display.MessageList.AddMessage | internal/tui/messages.go:60-67 | appends one entry and scrolls to the bottom |
| Display.MessageList.LoadFromMessages | internal/tui/messages.go:70-109 | replaces the entries by those of the messages and scrolls to the bottom |
| Display.MessageList.UpdateStreaming | internal/tui/messages.go:112-125 | with a valid streaming index only that entry's content changes; otherwise one streaming entry is appended and becomes the streaming index |
| Display.MessageList.FinalizeStreaming | internal/tui/messages.go:128-134 | a valid streaming entry gets the final content and stops streaming; the index becomes -1 |
| Display.MessageList.AddToolCall | internal/tui/messages.go:137-146 | appends one tool-call entry and scrolls to the bottom |
| Display.MessageList.UpdateLastToolCall | internal/tui/messages.go:149-156 | only the input of the last tool-call entry with the name changes; with none nothing changes |
| Display.MessageList.AddToolResult | internal/tui/messages.go:159-169 | appends one tool-result entry and scrolls to the bottom |
| Display.MessageList.ScrollUp | internal/tui/messages.go:176-181 | a non-positive amount is ignored; otherwise the offset grows by it |
| Display.MessageList.ScrollDown | internal/tui/messages.go:184-192 | a non-positive amount is ignored; the offset shrinks but never below 0 |
| Settings.NewSettings | internal/tui/settings.go:43-61 | the menu, empty inputs, no models, cursor 0, not loading |
| Settings.Update | internal/tui/settings.go:80-92 | only the menu can close the overlay |
| Settings.UpdateMenu | internal/tui/settings.go:95-121 | esc and ctrl+k close; the model view starts with cursor 0, no models, no error, loading; the input views start empty and focused |
| Settings.UpdateAPIKey | internal/tui/settings.go:124-146 | esc returns to the menu and blurs the input; enter refuses an empty key with feedback and blurs the input on a non-empty one; other keys go to the input, which changes only while focused |
| Settings.UpdateModels | internal/tui/settings.go:149-192 | while loading or after an error only esc acts, back to the menu, clearing the flag or error; otherwise esc returns to the menu, up and down move the cursor within the list and change nothing else, and every other key, enter included, changes nothing |
| Settings.UpdateMaxIter | internal/tui/settings.go:195-235 | esc returns to the menu and blurs the input; enter refuses empty or non-positive input with feedback and blurs the input on a valid one; only digit keys, backspace and delete reach the input, which changes only while focused |
| Settings.MaxIterValue | internal/tui/settings.go:238-245 | the trimmed input as an integer if it is at least 1, else 0 |
| Settings.HandleModelsLoaded | internal/tui/settings.go:248-256 | loading ends; an error is recorded and the models kept; otherwise the models are stored and the cursor reset to 0 |
| Settings.SelectedModel | internal/tui/settings.go:265-270 | the model under a valid cursor, else "" |
| Settings.CursorStaysValid | internal/tui/settings.go:174-183 | every key press keeps the cursor non-negative and inside a non-empty list |
| Settings.MenuKeepsCursor | internal/tui/settings.go:105-112 | the menu's transitions keep the cursor valid |
| Settings.ModelsKeepsCursor | internal/tui/settings.go:174-183 | up and down keep the cursor within the list |
| Settings.LoadKeepsCursor | internal/tui/settings.go:248-256 | a loaded list keeps the cursor valid |
| Settings.AcceptedKeyStays | internal/tui/settings.go:130-144 | after enter accepts the API key, any further typed key leaves the accepted key unchanged, since the blurred input ignores it |
| Settings.AcceptedMaxIterStays | internal/tui/settings.go:201-231 | after enter accepts the iteration limit, any further typed key leaves the accepted value unchanged |
| Settings.MaskKey | internal/tui/settings.go:300-307 | "(not set)" for no key, "****" for up to 8 characters, else the first 3, "..." and the last 4 |
| Settings.ModelWindow | internal/tui/settings.go:388-405 | the window shows min(10, n) models and always contains a valid cursor |

## Left out

- Goroutines and channels: the event channels of `Run` and `SendMessage` and the permission rendezvous are not modelled; event streams are sequences and the end of a permission exchange is an input (`Permission.Rendezvous`). The published requests are kept as a log instead of a channel.
- Context cancellation is an input: whether the context is cancelled at each check of the agent loop (`World`), before each line of a stream (`Line.cancelled`) and before each grep file (`cancelAt`).
- HTTP, headers and JSON: request marshalling and request creation errors in `SendMessage` and `ListModels` are not modelled; the transport result is an input (`HttpReply`, `ModelsReply`), and stream lines come with their payload already decoded (`Line.data`).
- OpenAI.OpenAIProvider.SendMessage: the failures of marshalling the body and of creating the request are not among its results.
- The provider interface and provider selection: the agent talks to a `World.send` function instead of a `Provider` value.
- Tool executions inside the agent loop are inputs (`World.run`); `Tools.Registry.Execute` takes the tool's own execution as a parameter.
- The bodies of glob.go, ls.go, write.go and fetch.go are not modelled: they are file-system or network calls with little formatting around them. Their descriptions and parameters are.
- The tool descriptions are a parameter (`prose`) of the built-in tool definitions, with `Tools.Prose` holding the texts; nothing is proved about the wording.
- Regular expressions, glob expansion, the file system and the subprocess are function parameters of the grep, view, edit and bash models; `os.Stat` sizes and kinds are fields of `Grep.FileSystem`.
- `filepath.Join` is modelled as the directory, "/" and the relative path, without `Clean`; `filepath.Rel` is a parameter.
- Strings are sequences of characters: Go's byte lengths (the 2000, 50000, 200 and 500 character cuts, the 8-character key mask) coincide with these only for ASCII text.
- Integer widths: the counters and lengths are unbounded; only `strconv.Atoi` is bounded to the 64-bit range.
- Bash.AsOutcome: a failed command with output is reported through its text without the error, as Go's `(output, nil)` return is; a timed-out command's partial output, returned alongside its error, is dropped, as the agent drops it.
- Message identifiers and timestamps (`generateID`, `CreatedAt`, `time.Now`) are left out: they come from randomness and the clock.
- The Go map iteration order of the completion flush is unspecified, so the flush is stated as a multiset (`OpenAI.Flush`).
- Settings.HandleModelsLoaded: modelled as a function from the old overlay state to the new one rather than as an in-place update of the overlay; the caller replaces its state with the result. `SetFeedback`, a setter of the two feedback fields, is not modelled.
- The text inputs of the settings overlay are a value and a focus flag: a blurred input ignores keys, and what a focused input does with a key is a parameter (`edit`); cursor blinking and the focus commands returned to the event loop are left out.
- All lipgloss styling and layout, the header, status bar, input area, markdown rendering, key bindings and the bubbletea wiring in model.go are left out; of the message list's `View` only the line window and the tool truncation are modelled.
- The database, sessions, configuration files and environment, the system prompt's construction and the command-line entry point are not part of this model.
