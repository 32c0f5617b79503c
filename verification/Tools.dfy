/** Tool dispatch: `handleToolCalls` (app.js:397-419), `executeTool`
    (app.js:421-438) and the three tools behind it, `googleSearch` with its mock
    fallback (app.js:440-521), `executeJavaScript` (app.js:548-601) and `aiTask`
    (app.js:619-655). The network, the search provider and code evaluation are
    oracles; each sees the conversation log as it stands when the call is made. */
module Tools {
  import opened Wrappers
  import opened JsText
  import opened Protocol
  import opened Conversation

  /** What calling a tool function does: return a result object, or throw. */
  datatype ToolOutcome = Returned(result: ToolResult) | Raised(message: string)

  /** A value thrown while running code, as a `catch` that reads its `message`
      sees it: a value whose `message` is a string (an `Error`) or undefined (a
      thrown string, number or plain object), or null or undefined itself, on
      which reading `message` throws. */
  datatype Thrown = WithMessage(message: Option<string>) | Nullish(isNull: bool)

  /** What running a `Function(...)` does: return a value, or throw (a syntax
      error while building the function is a throw of an `Error`). */
  datatype Completion = Normal(value: JsValue) | Threw(thrown: Thrown)

  /** One item of the search provider's answer; its snippet may be absent. */
  datatype RawItem = RawItem(title: string, link: string, snippet: Option<string>)

  /** The search provider's answer: credentials missing, a failed request, or the
      items found with the provider's statistics. */
  datatype SearchReply =
    | NotConfigured
    | ProviderError(message: string)
    | Items(items: seq<RawItem>, totalResults: string, searchTime: string)

  /** The two messages of the secondary completion request `aiTask` sends. */
  datatype TaskRequest = TaskRequest(system: string, user: string)

  /** The collaborators the tools depend on: `JSON.parse`, the search provider,
      the JavaScript engine and the secondary completion endpoint (whose failure
      is the `HTTP status: text` error). */
  datatype ToolOracles = ToolOracles(
    parse: string -> Result<Json, string>,
    search: (seq<Message>, string) -> SearchReply,
    run: (seq<Message>, string) -> Completion,
    delegate: (seq<Message>, TaskRequest) -> Result<string, string>)

  // ---------------------------------------------------------------------------
  // Reading the parsed arguments.

  /** The TypeError a property read on null or undefined throws; `base` is the
      printed receiver. */
  function PropertyReadError(base: string, key: string): string {
    "Cannot read properties of " + base + " (reading '" + key + "')"
  }

  /** The TypeError a property read on `null` throws. */
  function NullPropertyError(key: string): string {
    PropertyReadError("null", key)
  }

  /** `params[key]`: throws on null; a string property is its value; anything
      else reads as undefined. */
  function Property(params: Json, key: string): Result<Option<string>, string> {
    match params
    case JNull => Failure(NullPropertyError(key))
    case JObject(fields) =>
      if key in fields && fields[key].JString? then Success(Some(fields[key].s)) else Success(None)
    case _ => Success(None)
  }

  /** A possibly undefined string as a template literal prints it. */
  function TemplateText(s: Option<string>): string {
    s.GetOr("undefined")
  }

  /** JavaScript truthiness of a possibly undefined string. */
  predicate Truthy(s: Option<string>) {
    s.Some? && s.value != ""
  }

  // ---------------------------------------------------------------------------
  // google_search

  const MockNote := "Mock implementation - configure Google API for real results"
  const NoResultsNote := "No results found for this query"
  const NoSnippet := "No description available"

  /** The synthetic result set: two results about the query, labelled as mock. */
  function MockGoogleSearch(query: Option<string>): (r: ToolResult)
    ensures r.SearchResults? && r.query == query && r.info == Note(MockNote)
    ensures |r.results| == 2
    ensures forall h :: h in r.results ==>
              Includes(h.title, TemplateText(query)) && Includes(h.snippet, TemplateText(query))
  {
    var q := TemplateText(query);
    var first := SearchHit(
      "Latest information about \"" + q + "\"",
      "https://example.com/result1",
      "This is a mock search result for \"" + q
        + "\". Configure Google API credentials for real search results.");
    var second := SearchHit(
      q + " - Complete Guide",
      "https://example.com/result2",
      "Mock result showing comprehensive information about " + q
        + ". Real Google Search API integration available.");
    IncludesMiddle("Latest information about \"", q, "\"");
    IncludesMiddle("This is a mock search result for \"", q,
                   "\". Configure Google API credentials for real search results.");
    IncludesMiddle([], q, " - Complete Guide");
    assert [] + q + " - Complete Guide" == q + " - Complete Guide";
    IncludesMiddle("Mock result showing comprehensive information about ", q,
                   ". Real Google Search API integration available.");
    SearchResults(query, [first, second], Note(MockNote))
  }

  /** One provider item as a result; an absent or empty snippet is replaced. */
  function ToHit(item: RawItem): SearchHit {
    SearchHit(item.title, item.link, if Truthy(item.snippet) then item.snippet.value else NoSnippet)
  }

  /** `googleSearch` given the provider's answer: never throws; without
      credentials or on a provider failure it falls back to the mock results. */
  function GoogleSearchTool(query: Option<string>, reply: SearchReply): (r: ToolResult)
    ensures r.SearchResults? && r.query == query
    ensures !reply.Items? ==> r == MockGoogleSearch(query)
    ensures reply.Items? && reply.items == [] ==> r.results == [] && r.info == Note(NoResultsNote)
    ensures reply.Items? && reply.items != [] ==>
              && r.info == Stats(reply.totalResults, reply.searchTime)
              && |r.results| == |reply.items|
              && forall i :: 0 <= i < |reply.items| ==>
                   && r.results[i].title == reply.items[i].title
                   && r.results[i].link == reply.items[i].link
                   && (Truthy(reply.items[i].snippet) ==> r.results[i].snippet == reply.items[i].snippet.value)
                   && (!Truthy(reply.items[i].snippet) ==> r.results[i].snippet == NoSnippet)
  {
    match reply
    case NotConfigured => MockGoogleSearch(query)
    case ProviderError(_) => MockGoogleSearch(query)
    case Items(items, total, time) =>
      if items == [] then SearchResults(query, [], Note(NoResultsNote))
      else SearchResults(query, seq(|items|, i requires 0 <= i < |items| => ToHit(items[i])),
                         Stats(total, time))
  }

  /** The synthetic label is honest: a search result carries the mock note
      exactly when the provider was not configured or failed. */
  lemma MockLabelIffFallback(query: Option<string>, reply: SearchReply)
    ensures GoogleSearchTool(query, reply).info == Note(MockNote) <==> !reply.Items?
  {
    if reply.Items? && reply.items == [] {
      assert |NoResultsNote| != |MockNote|;
    }
  }

  // ---------------------------------------------------------------------------
  // execute_javascript

  const NoValueSentinel := "undefined (code executed but no value returned)"
  const StrictPrefix := "\"use strict\"; "
  const ReturnMarker := "return "

  /** The source of the function that runs the code as a statement block. */
  function BodySource(code: string): string {
    StrictPrefix + code
  }

  /** The source of the function that returns the code as one expression. */
  function ExpressionSource(code: string): string {
    StrictPrefix + "return (" + code + ")"
  }

  /** `String(v)` for every value whose `typeof` is not "object". */
  function PrimitiveString(v: JsValue): string
    requires TypeOf(v) != "object"
  {
    match v
    case Undefined => "undefined"
    case Boolean(b) => if b then "true" else "false"
    case Number(n) => IntToString(n)
    case Text(s) => s
    case Function(source) => source
  }

  /** The display value of an evaluation result, or the error serializing it
      throws. */
  function DisplayResult(v: JsValue): (r: Result<string, string>)
    ensures v.Undefined? ==> r == Success(NoValueSentinel)
    ensures v.Null? ==> r == Success("null")
    ensures TypeOf(v) == "object" && !v.Null? ==>
              && (r.Success? <==> v.json.Serialized?)
              && (r.Success? ==> r.value == v.json.text)
              && (r.Failure? ==> r.error == v.json.message)
    ensures TypeOf(v) != "object" && !v.Undefined? ==> r == Success(PrimitiveString(v))
  {
    match v
    case Undefined => Success(NoValueSentinel)
    case Null => Success("null")
    case Object(Serialized(text)) => Success(text)
    case Object(NotSerializable(message)) => Failure(message)
    case _ => Success(PrimitiveString(v))
  }

  /** The functions built from the code, in the order they were run, and how the
      last one completed. */
  datatype Evaluation = Evaluation(attempts: seq<string>, completion: Completion)

  /** The evaluation strategy: code containing "return " runs as a function body;
      other code runs as an expression first and, if that throws for any reason,
      once more as a statement block. */
  function Evaluate(log: seq<Message>, code: string, run: (seq<Message>, string) -> Completion)
    : (e: Evaluation)
    ensures 1 <= |e.attempts| <= 2
    ensures e.completion == run(log, e.attempts[|e.attempts| - 1])
    ensures e.attempts[|e.attempts| - 1] == BodySource(code)
            || e.attempts[|e.attempts| - 1] == ExpressionSource(code)
    ensures (exists i :: OccursAt(code, ReturnMarker, i)) ==> e.attempts == [BodySource(code)]
    ensures !(exists i :: OccursAt(code, ReturnMarker, i)) ==> e.attempts[0] == ExpressionSource(code)
    ensures |e.attempts| == 2 <==>
              !(exists i :: OccursAt(code, ReturnMarker, i)) && run(log, ExpressionSource(code)).Threw?
    ensures |e.attempts| == 2 ==> e.attempts == [ExpressionSource(code), BodySource(code)]
  {
    if Includes(code, ReturnMarker) then
      Evaluation([BodySource(code)], run(log, BodySource(code)))
    else
      match run(log, ExpressionSource(code))
      case Normal(v) => Evaluation([ExpressionSource(code)], Normal(v))
      case Threw(_) =>
        Evaluation([ExpressionSource(code), BodySource(code)], run(log, BodySource(code)))
  }

  /** The message of the TypeError `escapeForJS(undefined)` throws when the code
      block is shown before the evaluation starts. */
  const MissingCodeError := PropertyReadError("undefined", "replace")

  /** The message of the TypeError the `catch` throws when it reads `message`
      of a thrown null or undefined. */
  function NullishMessageError(isNull: bool): string {
    PropertyReadError(if isNull then "null" else "undefined", "message")
  }

  /** `executeJavaScript`: a missing `code` throws before the guarded part, and
      so does a thrown null or undefined, whose `message` the `catch` cannot
      read. Every other outcome is a result object, successful exactly when the
      last function run returned a value whose display could be computed. */
  function ExecuteJavaScriptTool(log: seq<Message>, code: Option<string>, description: Option<string>,
                                 run: (seq<Message>, string) -> Completion): (r: ToolOutcome)
    ensures code.None? ==> r == Raised(MissingCodeError)
    ensures code.Some? ==>
              var c := Evaluate(log, code.value, run).completion;
              && (r.Raised? <==> c.Threw? && c.thrown.Nullish?)
              && (r.Raised? ==> r.message == NullishMessageError(c.thrown.isNull))
              && (c.Threw? && c.thrown.WithMessage? ==>
                    r == Returned(CodeFailed(code.value, c.thrown.message, description)))
    ensures r.Returned? ==>
              var c := Evaluate(log, code.value, run).completion;
              && (r.result.CodeSucceeded? || r.result.CodeFailed?)
              && (r.result.CodeSucceeded? <==> c.Normal? && DisplayResult(c.value).Success?)
              && r.result.code == code.value && r.result.description == description
              && (r.result.CodeSucceeded? ==>
                    r.result.result == c.value && r.result.displayResult == DisplayResult(c.value).value)
              && (c.Normal? && DisplayResult(c.value).Failure? ==>
                    r.result.CodeFailed? && r.result.error == Some(DisplayResult(c.value).error))
  {
    match code
    case None => Raised(MissingCodeError)
    case Some(text) =>
      match Evaluate(log, text, run).completion
      case Threw(Nullish(isNull)) => Raised(NullishMessageError(isNull))
      case Threw(WithMessage(message)) => Returned(CodeFailed(text, message, description))
      case Normal(v) =>
        match DisplayResult(v)
        case Success(shown) => Returned(CodeSucceeded(text, v, shown, description))
        case Failure(message) => Returned(CodeFailed(text, Some(message), description))
  }

  // ---------------------------------------------------------------------------
  // ai_task

  const TaskSystemPrompt := "You are a helpful AI assistant performing a specific task. Be concise and accurate."
  const TaskLabel := "Task: "
  const ContextLabel := "\n\nContext: "

  /** The user message of the secondary request: the task, then the context
      when it is a non-empty string. */
  function TaskPrompt(task: Option<string>, context: Option<string>): (p: string)
    ensures |p| >= |TaskLabel + TemplateText(task)|
    ensures p[..|TaskLabel + TemplateText(task)|] == TaskLabel + TemplateText(task)
    ensures Truthy(context) <==> |p| > |TaskLabel + TemplateText(task)|
    ensures Truthy(context) ==> p[|TaskLabel + TemplateText(task)|..] == ContextLabel + context.value
  {
    var head := TaskLabel + TemplateText(task);
    var p := head + (if Truthy(context) then ContextLabel + context.value else "");
    assert p[..|head|] == head;
    p
  }

  /** `aiTask`: one secondary request with the fixed system prompt; a failed
      request throws, otherwise the reply is returned with the task and context. */
  function AiTaskTool(log: seq<Message>, task: Option<string>, context: Option<string>,
                      delegate: (seq<Message>, TaskRequest) -> Result<string, string>): (r: ToolOutcome)
    ensures var answer := delegate(log, TaskRequest(TaskSystemPrompt, TaskPrompt(task, context)));
            && (r.Raised? <==> answer.Failure?)
            && (r.Raised? ==> r.message == answer.error)
            && (r.Returned? ==> r.result == TaskDone(task, context, answer.value))
  {
    match delegate(log, TaskRequest(TaskSystemPrompt, TaskPrompt(task, context)))
    case Failure(message) => Raised(message)
    case Success(reply) => Returned(TaskDone(task, context, reply))
  }

  // ---------------------------------------------------------------------------
  // Dispatch.

  /** The error `executeTool` throws for a name the registry does not declare. */
  function UnknownToolError(name: string): string {
    "Unknown tool: " + name
  }

  /** `executeTool`: parse the arguments first, then switch on the name. */
  function ExecuteTool(log: seq<Message>, call: ToolCall, o: ToolOracles): (r: ToolOutcome)
    ensures o.parse(call.arguments).Failure? ==> r == Raised(o.parse(call.arguments).error)
    ensures o.parse(call.arguments).Success? && ToolKindOf(call.name).None? ==>
              r == Raised(UnknownToolError(call.name))
    ensures o.parse(call.arguments).Success? && o.parse(call.arguments).value.JNull?
            && ToolKindOf(call.name).Some? ==>
              r == Raised(NullPropertyError(RequiredParameter(ToolKindOf(call.name).value)))
    ensures var parsed := o.parse(call.arguments);
            parsed.Success? && !parsed.value.JNull? && ToolKindOf(call.name) == Some(GoogleSearch) ==>
              var query := Property(parsed.value, "query").value;
              r == Returned(GoogleSearchTool(query, o.search(log, TemplateText(query))))
    ensures var parsed := o.parse(call.arguments);
            parsed.Success? && !parsed.value.JNull? && ToolKindOf(call.name) == Some(ExecuteJavaScript) ==>
              r == ExecuteJavaScriptTool(log, Property(parsed.value, "code").value,
                                         Property(parsed.value, "description").value, o.run)
    ensures var parsed := o.parse(call.arguments);
            parsed.Success? && !parsed.value.JNull? && ToolKindOf(call.name) == Some(AiTask) ==>
              r == AiTaskTool(log, Property(parsed.value, "task").value,
                              Property(parsed.value, "context").value, o.delegate)
    ensures r.Returned? && ToolKindOf(call.name) == Some(GoogleSearch) ==> r.result.SearchResults?
    ensures r.Returned? && ToolKindOf(call.name) == Some(ExecuteJavaScript) ==>
              r.result.CodeSucceeded? || r.result.CodeFailed?
    ensures r.Returned? && ToolKindOf(call.name) == Some(AiTask) ==> r.result.TaskDone?
  {
    match o.parse(call.arguments)
    case Failure(message) => Raised(message)
    case Success(params) =>
      match ToolKindOf(call.name)
      case None => Raised(UnknownToolError(call.name))
      case Some(GoogleSearch) =>
        (match Property(params, "query")
         case Failure(message) => Raised(message)
         case Success(query) => Returned(GoogleSearchTool(query, o.search(log, TemplateText(query)))))
      case Some(ExecuteJavaScript) =>
        (match Property(params, "code")
         case Failure(message) => Raised(message)
         case Success(code) =>
           ExecuteJavaScriptTool(log, code, Property(params, "description").value, o.run))
      case Some(AiTask) =>
        (match Property(params, "task")
         case Failure(message) => Raised(message)
         case Success(task) => AiTaskTool(log, task, Property(params, "context").value, o.delegate))
  }

  /** The cases in which executing a call throws, and no others: unparsable
      arguments, an unknown name, null arguments, a missing `code`, code that
      throws null or undefined, a failed secondary request. A search never
      throws. */
  lemma ExecuteToolRaisesIff(log: seq<Message>, call: ToolCall, o: ToolOracles)
    ensures var parsed := o.parse(call.arguments);
            var kind := ToolKindOf(call.name);
            ExecuteTool(log, call, o).Raised? <==>
              || parsed.Failure?
              || kind.None?
              || parsed.value.JNull?
              || (kind == Some(ExecuteJavaScript)
                  && var code := Property(parsed.value, "code").value;
                     || code.None?
                     || (var c := Evaluate(log, code.value, o.run).completion;
                         c.Threw? && c.thrown.Nullish?))
              || (kind == Some(AiTask)
                  && var task := Property(parsed.value, "task").value;
                     var context := Property(parsed.value, "context").value;
                     o.delegate(log, TaskRequest(TaskSystemPrompt, TaskPrompt(task, context))).Failure?)
  {
  }

  /** The `tool` entry for one call: it carries the call's id, and its content is
      the tool's result, or `{error: message}` when executing the call threw. */
  function DispatchCall(log: seq<Message>, call: ToolCall, o: ToolOracles): (m: Message)
    ensures m.ToolMessage? && m.toolCallId == call.id
    ensures m.output.ErrorPayload? <==> ExecuteTool(log, call, o).Raised?
    ensures m.output.ErrorPayload? ==> m.output.error == ExecuteTool(log, call, o).message
    ensures m.output.ResultPayload? ==> m.output.result == ExecuteTool(log, call, o).result
  {
    match ExecuteTool(log, call, o)
    case Returned(result) => ToolMessage(call.id, ResultPayload(result))
    case Raised(message) => ToolMessage(call.id, ErrorPayload(message))
  }

  /** `handleToolCalls`: the calls run one after another, in order; each one
      appends exactly one entry, and each call runs against the log holding the
      answers of all the calls before it. */
  function HandleToolCalls(log: seq<Message>, calls: seq<ToolCall>, o: ToolOracles): (r: seq<Message>)
    ensures |r| == |log| + |calls| && r[..|log|] == log
    ensures forall i :: 0 <= i < |calls| ==> r[|log| + i] == DispatchCall(r[..|log| + i], calls[i], o)
    decreases |calls|
  {
    if calls == [] then log
    else
      var next := log + [DispatchCall(log, calls[0], o)];
      var r := HandleToolCalls(next, calls[1..], o);
      assert r[..|log|] == log by {
        assert r[..|log|] == next[..|log|];
      }
      forall i | 0 <= i < |calls|
        ensures r[|log| + i] == DispatchCall(r[..|log| + i], calls[i], o)
      {
        if i == 0 {
          assert r[|log|] == next[|log|];
        } else {
          assert calls[1..][i - 1] == calls[i];
        }
      }
      r
  }

  /** The entries `handleToolCalls` appends answer the calls one for one, in
      order, by call id. */
  lemma HandleToolCallsAnswersCalls(log: seq<Message>, calls: seq<ToolCall>, o: ToolOracles)
    ensures var r := HandleToolCalls(log, calls, o);
            AnswersCalls(r[|log|..], calls)
  {
    var r := HandleToolCalls(log, calls, o);
    forall i | 0 <= i < |calls|
      ensures r[|log|..][i].ToolMessage? && r[|log|..][i].toolCallId == calls[i].id
    {
      assert r[|log|..][i] == r[|log| + i] == DispatchCall(r[..|log| + i], calls[i], o);
    }
  }
}
