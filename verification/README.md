# Agentic tool-use loop of the browser chatbot, in Dafny

The project models the core of `app.js`: the agentic tool-use loop of a browser
chatbot that talks to an OpenAI-style chat-completions endpoint.

- **The input gate** (`handleUserInput`). Blank input, or a turn already in
  progress, is ignored. An unconfigured client goes to demo mode. Otherwise the
  trimmed message is appended to the conversation log and a turn starts.
- **The turn** (`agenticLoop`). The turn asks the model for its next message.
  - If the message requests tools, the turn appends the assistant entry, then
    one `tool` entry per call, and goes on.
  - If it requests no tools, the turn is *completed*.
  - After ten tool-dispatching iterations the turn is *bounded*.
  - If the request to the model throws, the turn has *failed*.
- **Tool dispatch** (`handleToolCalls`, `executeTool`) and the three tools:
  - `google_search`, with its mock fallback;
  - `execute_javascript`, with its evaluation strategy and display value;
  - `ai_task`.
- **Helpers.** The string built-ins these rely on (`trim`, `includes`,
  `String(n)`), and `escapeForJS`.

## How it is modelled

- **Oracles.** The model endpoint, the search provider, the JavaScript engine
  and the secondary completion endpoint are oracles: total functions of the
  conversation log as it stands when they are called (and of the request).
  `JSON.parse` is an oracle too, a function of the arguments text alone that
  returns a value or the error it throws.
  - Within a turn the log grows strictly between calls. So any sequence of
    replies can be expressed as such a function.
- **One round.** An iteration that requests tools appends one *round*: the
  assistant entry with its calls, then one answer per call, in call order.
  `Conversation.IsRounds` states that shape.
- **The handler.** The loop (`Agent.RunLoop`) is stated for any tool-call
  handler. `Agent.Wired` plugs in the chatbot's `handleToolCalls`, and
  `Agent.WiredIsAnswering` proves that it answers every call in order.
- **Files.** `Wrappers.dfy` holds `Option` and `Result`; the other files follow
  the program's structure:
  - `JsText` for the string built-ins;
  - `Escaping` for `escapeForJS`;
  - `Protocol` for messages, values and the tool registry;
  - `Conversation` for the shape of the log;
  - `Tools` for dispatch and the tools;
  - `Agent` for the loop, the input gate and the session.

## Where the model follows the code

- **The expression fallback.** The fallback in `executeJavaScript` catches any
  error thrown by the expression attempt, not only syntax errors
  (app.js:562-567). So code whose expression form throws at run time is run a
  second time as a statement block.
- **Missing `code`.** When `code` is missing, `executeJavaScript` throws before
  its `try`: `addCodeBlock` calls `escapeForJS(undefined)` (app.js:550, 690).
  The dispatcher then turns this into an error entry.
- **Code that throws null or undefined.** The `catch` of `executeJavaScript`
  reads `error.message` (app.js:591-592). A thrown null or undefined therefore
  makes the `catch` itself throw a TypeError, and the call ends as an error
  entry rather than a failed result.
- **The final reply.** The final reply of a completed turn is only rendered
  (app.js:334-336) and is never appended to `this.messages`.
- **Unknown tool names.** An unknown tool name is reported only after the
  arguments were parsed (app.js:423-436). Unparsable arguments therefore win over
  an unknown name.

## Model

| member | source | states |
|---|---|---|
| JsText.Trim | app.js:246 | the trimmed text neither starts nor ends with ECMAScript whitespace and is no longer than the input |
| JsText.TrimIsWhitespaceBoundedSlice | app.js:246 | the trimmed text is a contiguous slice of the input, with only whitespace cut away on either side |
| JsText.TrimEmptyIffBlank | app.js:246-248 | the trimmed message is empty exactly when the input consists of whitespace only, which is when the gate returns |
| JsText.Includes | app.js:557 | `includes` is true exactly when the marker occurs at some index of the code |
| JsText.IntToString | app.js:579 | `String(n)` of an integral number of magnitude at most 2^53 is a minus sign exactly for negative numbers, then decimal digits without a leading zero that read back as the magnitude |
| Escaping.TwoPassesEscapeEach | app.js:729-731 | the two global replacements, backticks first and then `$`, compose into one per-character escape |
| Escaping.EscapeForJS | app.js:729-731 | the escaped text is the per-character escape; its length is the input length plus the number of backticks and `$` |
| Escaping.EscapedSpecialsAreGuarded | app.js:729-731 | every backtick and `$` of the escaped text sits directly behind a backslash |
| Escaping.EscapeForJSRoundTrip | app.js:729-731 | unescaping the escaped text gives back the original text |
| Escaping.EscapeForJSReadsBackWithoutBackslash | app.js:690 | on text without backslashes and carriage returns, the template literal of the copy button denotes the original text |
| Escaping.EscapeForJSBreaksTemplate | app.js:690 | a backslash followed by a backtick escapes to a body in which the backtick closes the template literal |
| Escaping.EscapeForTemplate | app.js:690 | the corrected escape: the template literal denotes exactly the original text, for every text |
| Escaping.EscapeForTemplateLength | app.js:729-731 | the corrected escape adds one backslash per backslash, backtick, `$` and carriage return |
| Protocol.ToolKindOf | app.js:425-437 | the dispatcher's switch finds a tool whose name is the given name, and finds none exactly when no registered tool has that name |
| Protocol.RegistryRoundTrip | app.js:180-241 | every registered tool is found by its name, and the three names are distinct |
| Conversation.ExtendRounds | app.js:338-346 | one round behind a log, followed by `m` rounds, makes `m + 1` rounds behind that log |
| Conversation.WellFormedAppend | app.js:261 | appending a well-formed part to a well-formed log keeps it well-formed |
| Conversation.RoundsAreWellFormed | app.js:338-346 | complete rounds on their own form a well-formed log |
| Conversation.WellFormedIsPaired | app.js:404-416 | in a well-formed log every assistant entry is directly followed by the answers to its calls, and every `tool` entry lies in the answer window of an earlier assistant entry |
| Conversation.PairedIsWellFormed | app.js:404-416 | the index-based reading of the log implies the front-to-back one; the two readings agree |
| Conversation.PairedResultMatchesCall | app.js:404-416 | a `tool` entry in an answer window carries the id of the call its position designates |
| Tools.MockGoogleSearch | app.js:500-521 | the mock result has two hits, both mentioning the query in title and snippet, and carries the mock note |
| Tools.GoogleSearchTool | app.js:440-498 | search never throws; it falls back to the mock when unconfigured or on failure; it gives the no-results note on an empty answer; otherwise it returns one hit per item, in order, with the placeholder for a missing snippet |
| Tools.MockLabelIffFallback | app.js:440-521 | a search result carries the mock note exactly when the provider was unconfigured or failed |
| Tools.DisplayResult | app.js:571-580 | undefined shows the sentinel, null shows `null`, an object shows its JSON text or raises the serialization error, any other value (numbers being integers of magnitude at most 2^53) shows `String(v)` |
| Tools.Evaluate | app.js:556-568 | code containing `return ` runs once as a function body; other code runs first as an expression; a second run happens exactly when the expression attempt threw (whatever it threw), and it runs the code as a statement block |
| Tools.ExecuteJavaScriptTool | app.js:548-601 | a missing `code` throws, and so does code that throws null or undefined (the `catch` cannot read its `message`); otherwise the result is a success exactly when the last run returned a value whose display could be computed, and otherwise carries the thrown `message` or the serialization error |
| Tools.TaskPrompt | app.js:622-625 | the prompt starts with the task label and the task; the context section is appended exactly when the context is a non-empty string |
| Tools.AiTaskTool | app.js:619-655 | one secondary request with the fixed system prompt; the tool throws exactly when that request fails, and otherwise returns its reply with the task and context |
| Tools.ExecuteTool | app.js:421-438 | a parse failure, an unknown name and null arguments throw their errors; otherwise the named tool runs on the parsed `query`, `code` and `description`, or `task` and `context`, and its successful result has that tool's shape |
| Tools.ExecuteToolRaisesIff | app.js:421-438 | executing a call throws exactly in six cases: unparsable arguments, an unknown name, null arguments, a missing `code`, code that throws null or undefined, a failed secondary request |
| Tools.DispatchCall | app.js:401-417 | the entry carries the call's id, and holds an error payload exactly when executing the call threw |
| Tools.HandleToolCalls | app.js:397-419 | exactly one entry per call is appended, in order, behind the unchanged log; each call sees the answers of the calls before it |
| Tools.HandleToolCallsAnswersCalls | app.js:397-419 | the appended entries answer the calls one for one, in order, by call id |
| Agent.WiredIsAnswering | app.js:397-419 | `handleToolCalls`, as the loop's handler, appends exactly one answer per call, in call order |
| Agent.RunLoop | app.js:327-352 | the counter stays within 10; the loop completes exactly below the cap; a completed loop saw a reply without tool calls; an aborted loop saw the transport error |
| Agent.RunLoopFollowsTrajectory | app.js:331-352 | the loop performs exactly the iterations of the reference trajectory driven by the model's replies |
| Agent.TrajectoryAppendsRounds | app.js:338-346 | with an answering handler, `n` iterations of the trajectory append exactly `n` complete rounds |
| Agent.RunLoopAppendsRounds | app.js:331-352 | the loop only appends: the old log is a prefix, followed by one complete round per iteration |
| Agent.RoundIsOneRound | app.js:338-346 | one iteration appends exactly `1 + n` entries behind the unchanged log: the reply's own assistant entry `AssistantMessage(content, calls)`, then `n` tool entries whose i-th carries the i-th call's id; together they form one round |
| Agent.AgenticLoop | app.js:322-370 | at most 10 iterations; bounded exactly when not failed and the counter reached 10; a completed turn has fewer than 10 iterations and ends on a reply without tool calls; a failed turn ends on the transport error |
| Agent.AgenticLoopAppendsRounds | app.js:322-370 | a turn, whatever its outcome, keeps the log it started on and appends only complete rounds, one per iteration |
| Agent.AgenticLoopFollowsTrajectory | app.js:322-370 | a turn performs exactly the iterations of the reference trajectory |
| Agent.RunLoopBoundedWhenModelNeverStops | app.js:331-352 | when the model always requests tools, the loop exits normally with the counter at 10 |
| Agent.BoundedWhenModelNeverStops | app.js:327-356 | when the model always requests tools, the turn ends bounded after exactly 10 rounds, whatever the tools do |
| Agent.TrajectoryDeterministic | app.js:331-352 | the model's replies and the handler determine the log a trajectory of a given length reaches |
| Agent.HandleUserInput | app.js:244-263 | blank input or a turn in progress changes nothing; an unconfigured client goes to demo mode and leaves the session alone; otherwise the outcome is the turn run on the log with the trimmed message appended, its log becomes the session's, and the busy flag ends clear |
| Agent.HandleUserInputAppendsRounds | app.js:244-263 | a submission that runs a turn appends the trimmed user message and then only complete rounds |
| Agent.SubmissionKeepsInvariant | app.js:244-263 | one submission on an idle session with a well-formed log leaves it idle, well-formed, with the same settings, and with the old log as a prefix |
| Agent.SessionInvariant | app.js:244-263 | across any sequence of submissions the log only grows, stays well-formed and paired, and the busy flag is clear between submissions |
| Agent.FreshSessionStaysWellFormed | app.js:244-263 | every log the chatbot reaches from a fresh session is well-formed and paired |

## Left out

- DOM rendering and UI state are not modelled, because none of them changes the
  conversation log. This covers `addMessage`, `addCodeBlock`, `addCodeResult`,
  `addSearchResults`, `showAlert`, `setStatus`, `escapeHtml`, badges and classes.
  So is the HTML-attribute layer around the copy button's template literal.
- `callLLM`, the search request and the secondary request of `aiTask` are
  oracles. Their request building (URLs, headers, `encodeURIComponent`) and
  response decoding are left out.
- `testConnection` and its error-text heuristics are left out: they are not part
  of a turn.
- Evaluating code with `Function(...)` is an oracle. It returns a value or
  throws; host behaviour cannot be modelled.
- `JSON.parse` is an oracle, and `JSON.stringify` is abstract. A `tool` entry
  holds the result object or the `{error}` payload itself, not its JSON text.
- Demo mode's canned replies are left out: demo mode never touches the log, and
  the gate only records that it was entered.
- async/await scheduling is left out. The loop is strictly sequential, as its
  `await`s make it.
- Tools.Property: a parameter whose JSON value is present but not a string
  (a number, an array) reads as undefined. For `code` the source would then
  throw a different TypeError, and for `query`, `task` and `context` it would
  print the value rather than `undefined`.
- Tools.ExecuteJavaScriptTool: a thrown object whose `message` is neither a
  string nor undefined (a number, an object) is not modelled. In the source the
  result's `error` field would hold that value.
- Tools.DisplayResult: JavaScript numbers are limited to integers of magnitude
  at most 2^53, where `String(n)` prints the exact digits. Beyond 2^53 it prints
  the shortest round-tripping digits padded with zeros (`2**64` shows as
  18446744073709552000), which would need a model of binary64 rounding.
  Fractions, exponent forms, NaN, Infinity, BigInt and Symbol values are not
  modelled either.
- Tools.GoogleSearchTool: the provider's statistics are kept as text. The
  `|| 0` default used when they are absent is not modelled.
- Escaping.TemplateLiteralText: the hexadecimal, unicode and octal-like escapes
  and line continuations of template literals are left uninterpreted. The text
  reads as None there.
- Agent.HandleUserInput: the rendering of the trimmed user message before the
  configuration check is left out. So are the system and assistant notes added
  after a bounded, completed or failed turn. None of them reaches
  `this.messages`.

## Findings

| source | as written | input that shows it | evidently intended | confidence | as-written member | corrected member |
|---|---|---|---|---|---|---|
| app.js:729-731 | `escapeForJS` escapes backticks and `$` but not backslashes, and the result is placed inside a template literal in the copy button's handler (app.js:690) | code consisting of a backslash followed by a backtick: it escapes to two backslashes and a backtick, and the template literal reads an escaped backslash followed by the backtick that ends the literal early | the copy button copies exactly the executed code, so backslashes (and carriage returns) must be escaped as well | not executed | Escaping.EscapeForJSBreaksTemplate | Escaping.EscapeForTemplate |
