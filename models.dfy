/*
 * The host's data model: message roles, intent types, chat messages, parsed
 * intents, MCP tool calls, and the mutable workflow state that every graph
 * node reads and updates in place.
 */
module Models {
  import opened Base
  import opened Json

  /** One reading of the clock: an ordering value in microseconds and the
      `datetime.isoformat()` text of the same moment. */
  datatype Instant = Instant(micros: int, iso: string)

  datatype MessageRole = User | Assistant | System | Tool

  /** The string value of each role. */
  function RoleValue(r: MessageRole): string {
    match r
    case User => "user"
    case Assistant => "assistant"
    case System => "system"
    case Tool => "tool"
  }

  /** `MessageRole(s)`: the role whose value is `s`, if any. */
  function RoleFromValue(s: string): (r: Option<MessageRole>)
    ensures r.Some? ==> RoleValue(r.value) == s
  {
    if s == "user" then Some(User)
    else if s == "assistant" then Some(Assistant)
    else if s == "system" then Some(System)
    else if s == "tool" then Some(Tool)
    else None
  }

  lemma RoleValueRoundTrip(r: MessageRole)
    ensures RoleFromValue(RoleValue(r)) == Some(r)
  {
  }

  /** The intents the host distinguishes.  The first six are the members of
      `IntentType`; `WeatherQuery` and `FileOperation` are the two further
      values the keyword parser refers to. */
  datatype IntentType =
    | ToolCall | GeneralChat | Help | ServerStatus | ToolList | Unknown
    | WeatherQuery | FileOperation

  /** Whether the intent is a member of the `IntentType` enumeration. */
  predicate Declared(t: IntentType) {
    !t.WeatherQuery? && !t.FileOperation?
  }

  function IntentValue(t: IntentType): string {
    match t
    case ToolCall => "TOOL_CALL"
    case GeneralChat => "GENERAL_CHAT"
    case Help => "HELP"
    case ServerStatus => "SERVER_STATUS"
    case ToolList => "TOOL_LIST"
    case Unknown => "UNKNOWN"
    case WeatherQuery => "WEATHER_QUERY"
    case FileOperation => "FILE_OPERATION"
  }

  /** `IntentType(s)`: only the declared members can be looked up by value. */
  function IntentFromValue(s: string): (r: Option<IntentType>)
    ensures r.Some? ==> Declared(r.value) && IntentValue(r.value) == s
  {
    if s == "TOOL_CALL" then Some(ToolCall)
    else if s == "GENERAL_CHAT" then Some(GeneralChat)
    else if s == "HELP" then Some(Help)
    else if s == "SERVER_STATUS" then Some(ServerStatus)
    else if s == "TOOL_LIST" then Some(ToolList)
    else if s == "UNKNOWN" then Some(Unknown)
    else None
  }

  /** Looking up a declared intent by its value finds it; the two undeclared ones are not found. */
  lemma IntentValueRoundTrip(t: IntentType)
    ensures IntentFromValue(IntentValue(t)) == (if Declared(t) then Some(t) else None)
  {
  }

  /** A dict given by its (key, value) pairs. */
  type Dict = seq<(string, Json)>

  datatype ChatMessage = ChatMessage(role: MessageRole, content: string, timestamp: Instant, metadata: Option<Dict>)

  /** `ChatMessage.to_dict`. */
  function MessageToDict(m: ChatMessage): Dict {
    [("role", JStr(RoleValue(m.role))),
     ("content", JStr(m.content)),
     ("timestamp", JStr(m.timestamp.iso)),
     ("metadata", JObj(if m.metadata.Some? then m.metadata.value else []))]
  }

  /** Reads a message back from its dict form; `None` when a field is missing or ill-typed. */
  function MessageFromDict(d: Dict, micros: int): Option<ChatMessage> {
    var role := Get(d, "role");
    var content := Get(d, "content");
    var ts := Get(d, "timestamp");
    var meta := Get(d, "metadata");
    if role.Some? && role.value.JStr? && RoleFromValue(role.value.s).Some?
       && content.Some? && content.value.JStr? && ts.Some? && ts.value.JStr?
       && meta.Some? && meta.value.JObj?
    then Some(ChatMessage(RoleFromValue(role.value.s).value, content.value.s,
                          Instant(micros, ts.value.s),
                          if meta.value.fields == [] then None else Some(meta.value.fields)))
    else None
  }

  /** The dict form keeps role, content and timestamp text, and the metadata
      except that `None` and `{}` both become `{}`. */
  lemma MessageDictRoundTrip(m: ChatMessage)
    ensures MessageFromDict(MessageToDict(m), m.timestamp.micros) ==
      Some(m.(metadata := if m.metadata == Some([]) then None else m.metadata))
  {
    RoleValueRoundTrip(m.role);
    var d := MessageToDict(m);
    assert Get(d, "role") == Some(JStr(RoleValue(m.role)));
    assert Get(d, "content") == Some(JStr(m.content));
    assert Get(d[2..], "timestamp") == Some(JStr(m.timestamp.iso));
    assert Get(d[1..], "timestamp") == Get(d[1..][1..], "timestamp");
    assert Get(d[3..], "metadata") == Some(d[3].1);
    assert Get(d[2..], "metadata") == Get(d[2..][1..], "metadata");
    assert Get(d[1..], "metadata") == Get(d[1..][1..], "metadata");
  }

  datatype ParsedIntent = ParsedIntent(
    intentType: IntentType,
    confidence: real,
    parameters: Json,
    targetServer: Option<string>,
    targetTool: Option<string>)

  /** `ParsedIntent.is_mcp_action`. */
  predicate IsMcpAction(p: ParsedIntent) {
    p.intentType == ToolCall
  }

  /** An MCP tool call; a `result` of `JNull` is Python's `None`. */
  datatype McpToolCall = McpToolCall(
    serverName: Option<string>,
    toolName: Option<string>,
    arguments: Dict,
    result: Json,
    error: Option<string>,
    executionTimeMs: Option<int>)

  /** `MCPToolCall.is_successful`: no error and a result other than `None`. */
  predicate IsSuccessful(tc: McpToolCall) {
    tc.error.None? && tc.result != JNull
  }

  /** Python's f-string rendering of an optional string (`None` prints as "None"). */
  function OptStr(s: Option<string>): string {
    if s.Some? then s.value else "None"
  }

  function OptJson(s: Option<string>): Json {
    if s.Some? then JStr(s.value) else JNull
  }

  function OptIntJson(i: Option<int>): Json {
    if i.Some? then JInt(i.value) else JNull
  }

  /** A snapshot of every key of the workflow state. */
  datatype StateView = StateView(
    currentMessage: Option<string>,
    sessionId: Option<string>,
    hasMcpClient: bool,
    messages: seq<ChatMessage>,
    parsedIntent: Option<ParsedIntent>,
    toolCalls: seq<McpToolCall>,
    toolResults: seq<Dict>,
    response: string,
    success: bool,
    error: Option<string>,
    stepCount: int,
    nextStep: Option<string>,
    reactMode: bool,
    reactIteration: int,
    reactMaxIterations: int,
    reactCurrentStep: Option<string>,
    reactThought: Option<string>,
    reactAction: Option<string>,
    reactObservation: Option<string>,
    reactFinalAnswer: Option<string>,
    reactShouldContinue: bool,
    mcpCalls: seq<McpToolCall>,
    currentMcpCall: Option<McpToolCall>,
    availableServers: seq<string>,
    availableTools: seq<(string, seq<string>)>,
    shouldUseReact: bool,
    errorMessage: Option<string>,
    responseContent: Option<string>,
    shouldContinue: bool)

  /**
   * The workflow state (`ChatState`): a dictionary with a fixed set of keys
   * that the nodes update in place.  Its contents are one `StateView`
   * record, which every update reassigns.  The current message is kept as
   * its text, which is all the nodes read of it, and the MCP client as
   * whether one is present.  A key the source reads with
   * `state.get(key, default)` before any node writes it holds that default.
   */
  class ChatState {
    var keys: StateView

    function View(): StateView
      reads this
    {
      keys
    }

    /** A state holding exactly the keys of `v`. */
    constructor FromView(v: StateView)
      ensures View() == v
    {
      keys := v;
    }
  }

  /** The defaults of every key a fresh state dict leaves out. */
  function EmptyView(): StateView {
    StateView(None, None, false, [], None, [], [], "", false, None, 0, None, false,
              0, 10, None, None, None, None, None, false, [], None, [], [], false,
              None, None, true)
  }
}
