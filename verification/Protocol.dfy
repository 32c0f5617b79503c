/** The data the agent exchanges: the conversation messages it keeps in
    `this.messages`, the tool calls the model requests, the results the tools
    return, the JavaScript values code evaluation produces, and the registry of
    callable tools (app.js:180-241). */
module Protocol {
  import opened Wrappers
  import opened JsText

  /** One function call requested by the model: `{id, function: {name, arguments}}`,
      the arguments being JSON text. */
  datatype ToolCall = ToolCall(id: string, name: string, arguments: string)

  /** A JSON value, as `JSON.parse` produces it from the call's arguments. */
  datatype Json =
    | JNull
    | JBool(b: bool)
    | JNumber(n: int)
    | JString(s: string)
    | JArray(items: seq<Json>)
    | JObject(fields: map<string, Json>)

  /** What `JSON.stringify` makes of an object: its text, or the error it throws
      (a circular structure, a BigInt inside). */
  datatype Serialization = Serialized(text: string) | NotSerializable(message: string)

  /** A JavaScript value produced by evaluating code. Objects and arrays (everything
      `typeof` calls "object" except null) are represented by their serialization. */
  datatype JsValue =
    | Undefined
    | Null
    | Boolean(b: bool)
    | Number(n: JsInteger)
    | Text(s: string)
    | Object(json: Serialization)
    | Function(source: string)

  /** The result of `typeof`. */
  function TypeOf(v: JsValue): string {
    match v
    case Undefined => "undefined"
    case Null => "object"
    case Boolean(_) => "boolean"
    case Number(_) => "number"
    case Text(_) => "string"
    case Object(_) => "object"
    case Function(_) => "function"
  }

  datatype SearchHit = SearchHit(title: string, link: string, snippet: string)

  /** The trailer of a search result: a note (synthetic results, or no results),
      or the provider's statistics. */
  datatype SearchInfo = Note(text: string) | Stats(totalResults: string, searchTime: string)

  /** The objects the three tools return. The `error` of a failed execution is
      absent when the thrown value's `message` was undefined, since
      `JSON.stringify` drops undefined properties. */
  datatype ToolResult =
    | SearchResults(query: Option<string>, results: seq<SearchHit>, info: SearchInfo)
    | CodeSucceeded(code: string, result: JsValue, displayResult: string, description: Option<string>)
    | CodeFailed(code: string, error: Option<string>, description: Option<string>)
    | TaskDone(task: Option<string>, context: Option<string>, reply: string)

  /** The content of a `tool` message: the tool's result, or `{error: message}`
      when executing the call threw. */
  datatype ToolContent = ResultPayload(result: ToolResult) | ErrorPayload(error: string)

  /** An entry of the conversation log sent to the model. */
  datatype Message =
    | UserMessage(text: string)
    | AssistantMessage(content: Option<string>, toolCalls: seq<ToolCall>)
    | ToolMessage(toolCallId: string, output: ToolContent)

  /** The callable tools, in the order they are declared to the model. */
  datatype ToolKind = GoogleSearch | ExecuteJavaScript | AiTask

  const Registry: seq<ToolKind> := [GoogleSearch, ExecuteJavaScript, AiTask]

  function ToolName(k: ToolKind): string {
    match k
    case GoogleSearch => "google_search"
    case ExecuteJavaScript => "execute_javascript"
    case AiTask => "ai_task"
  }

  /** The parameter each tool's schema marks as required; it is also the first
      property the dispatcher reads from the parsed arguments. */
  function RequiredParameter(k: ToolKind): string {
    match k
    case GoogleSearch => "query"
    case ExecuteJavaScript => "code"
    case AiTask => "task"
  }

  /** The dispatcher's switch on the tool name: the registered tool with that
      name, or None for every name the registry does not declare. */
  function ToolKindOf(name: string): (r: Option<ToolKind>)
    ensures r.Some? ==> ToolName(r.value) == name
    ensures r.None? <==> forall k :: ToolName(k) != name
  {
    if name == "google_search" then Some(GoogleSearch)
    else if name == "execute_javascript" then Some(ExecuteJavaScript)
    else if name == "ai_task" then Some(AiTask)
    else None
  }

  /** Every registered tool is found again by its name, and the registry lists
      each tool exactly once. */
  lemma RegistryRoundTrip(k: ToolKind)
    ensures ToolKindOf(ToolName(k)) == Some(k)
    ensures k in Registry
    ensures forall i, j :: 0 <= i < j < |Registry| ==> ToolName(Registry[i]) != ToolName(Registry[j])
  {
  }
}
