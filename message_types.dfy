/*
 * Messages streamed to browsers over server-sent events
 * (`streaming/message_types.py`): their types, their dict and JSON forms,
 * the `data: <json>` frame of the WHATWG HTML Living Standard, section 9.2
 * "Server-sent events", and one factory per message type.
 */
module StreamMessages {
  import opened Base
  import opened Json
  import opened Models

  datatype StreamMessageType =
    | SessionStart | Thinking | Acting | Observing | ToolCallEvent
    | PartialResponse | FinalResponse | ErrorEvent | SessionEnd

  /** The string value of each message type, as it appears on the wire. */
  function TypeValue(t: StreamMessageType): string {
    match t
    case SessionStart => "session_start"
    case Thinking => "thinking"
    case Acting => "acting"
    case Observing => "observing"
    case ToolCallEvent => "tool_call"
    case PartialResponse => "partial_response"
    case FinalResponse => "final_response"
    case ErrorEvent => "error"
    case SessionEnd => "session_end"
  }

  /** `StreamMessageType(s)`. */
  function TypeFromValue(s: string): (r: Option<StreamMessageType>)
    ensures r.Some? ==> TypeValue(r.value) == s
  {
    if s == "session_start" then Some(SessionStart)
    else if s == "thinking" then Some(Thinking)
    else if s == "acting" then Some(Acting)
    else if s == "observing" then Some(Observing)
    else if s == "tool_call" then Some(ToolCallEvent)
    else if s == "partial_response" then Some(PartialResponse)
    else if s == "final_response" then Some(FinalResponse)
    else if s == "error" then Some(ErrorEvent)
    else if s == "session_end" then Some(SessionEnd)
    else None
  }

  /** A client can tell every message type from its wire value. */
  lemma TypeValueRoundTrip(t: StreamMessageType)
    ensures TypeFromValue(TypeValue(t)) == Some(t)
  {
  }

  datatype StreamMessage = StreamMessage(
    msgType: StreamMessageType,
    content: Option<string>,
    metadata: Option<Dict>,
    sessionId: Option<string>,
    timestamp: Option<string>)

  /** `StreamMessage(...)` with `__post_init__`: a missing timestamp becomes the current time. */
  function NewMessage(t: StreamMessageType, content: Option<string>, metadata: Option<Dict>,
                      sessionId: Option<string>, timestamp: Option<string>, now: Instant): (m: StreamMessage)
    ensures m.timestamp.Some?
    ensures m.timestamp == (if timestamp.Some? then timestamp else Some(now.iso))
    ensures m.msgType == t && m.content == content && m.metadata == metadata && m.sessionId == sessionId
  {
    StreamMessage(t, content, metadata, sessionId, if timestamp.None? then Some(now.iso) else timestamp)
  }

  function OptDict(d: Option<Dict>): Json {
    if d.Some? then JObj(d.value) else JNull
  }

  /** `to_dict`: the fields in declaration order, the type as its string value. */
  function ToDict(m: StreamMessage): Dict {
    [("type", JStr(TypeValue(m.msgType))),
     ("content", OptJson(m.content)),
     ("metadata", OptDict(m.metadata)),
     ("session_id", OptJson(m.sessionId)),
     ("timestamp", OptJson(m.timestamp))]
  }

  /** `to_json`. */
  function ToJson(m: StreamMessage): string {
    Dumps(JObj(ToDict(m)))
  }

  /** `to_sse_format`: one `data:` line followed by the blank line that ends the event. */
  function ToSseFormat(m: StreamMessage): string {
    "data: " + Dumps(JObj([("type", JStr(TypeValue(m.msgType))),
                           ("content", OptJson(m.content)),
                           ("metadata", OptDict(m.metadata)),
                           ("session_id", OptJson(m.sessionId)),
                           ("timestamp", OptJson(m.timestamp))])) + "\n\n"
  }

  /** What an event-stream reader takes out of one frame: the text of a single
      `data:` line closed by a blank line, or `None` if the frame is not one. */
  function ParseSseFrame(frame: string): Option<string> {
    if StartsWith(frame, "data: ") && |frame| >= 8 && frame[|frame| - 2..] == "\n\n" then
      var data := frame[6..|frame| - 2];
      if '\n' in data || '\r' in data then None else Some(data)
    else None
  }

  /** The SSE frame carries exactly the message's JSON form, on one line: the
      frame is always well formed and the reader recovers `to_json()`. */
  lemma {:induction false} SseFrameRoundTrip(m: StreamMessage)
    ensures ToSseFormat(m) == "data: " + ToJson(m) + "\n\n"
    ensures ParseSseFrame(ToSseFormat(m)) == Some(ToJson(m))
  {
    var j := ToJson(m);
    var f := ToSseFormat(m);
    DumpsNoControl(JObj(ToDict(m)));
    assert f[6..|f| - 2] == j;
    assert '\n' !in j && '\r' !in j;
  }

  /** The metadata each factory gives its message type. */
  predicate Conforms(m: StreamMessage) {
    m.metadata.Some? &&
    var md := m.metadata.value;
    match m.msgType
    case SessionStart => md == [("action", JStr("start"))]
    case Thinking => |md| == 1 && md[0].0 == "iteration" && md[0].1.JInt?
    case Acting => |md| == 1 && md[0].0 == "action_details" && md[0].1.JObj?
    case Observing => |md| == 1 && md[0].0 == "observation_data" && md[0].1.JObj?
    case ToolCallEvent =>
      |md| == 4 && md[0].0 == "server" && md[1].0 == "tool" && md[2].0 == "status"
      && md[3].0 == "arguments" && md[3].1.JObj?
    case PartialResponse => md == [("partial", JBool(true))]
    case FinalResponse => md == [("final", JBool(true))]
    case ErrorEvent => |md| == 1 && md[0].0 == "error" && md[0].1.JStr?
    case SessionEnd => md == [("action", JStr("end"))]
  }

  /** A message a factory makes for a session: its type, its session and a timestamp are set,
      and its metadata has the shape of its type. */
  predicate Made(m: StreamMessage, t: StreamMessageType, sessionId: string) {
    m.msgType == t && m.sessionId == Some(sessionId) && m.timestamp.Some? && Conforms(m)
  }

  function CreateSessionStartMessage(sessionId: string, now: Instant): (m: StreamMessage)
    ensures Made(m, SessionStart, sessionId) && m.content == Some("세션이 시작되었습니다")
  {
    NewMessage(SessionStart, Some("세션이 시작되었습니다"), Some([("action", JStr("start"))]), Some(sessionId), None, now)
  }

  function CreateThinkingMessage(content: string, sessionId: string, iteration: int, now: Instant): (m: StreamMessage)
    ensures Made(m, Thinking, sessionId) && m.content == Some(content)
    ensures m.metadata == Some([("iteration", JInt(iteration))])
  {
    NewMessage(Thinking, Some(content), Some([("iteration", JInt(iteration))]), Some(sessionId), None, now)
  }

  /** `action_details or {}`: a missing or empty dict becomes `{}`. */
  function DictOrEmpty(d: Option<Dict>): Dict {
    if d.Some? then d.value else []
  }

  function CreateActingMessage(content: string, sessionId: string, actionDetails: Option<Dict>, now: Instant)
    : (m: StreamMessage)
    ensures Made(m, Acting, sessionId) && m.content == Some(content)
    ensures m.metadata == Some([("action_details", JObj(if actionDetails.Some? then actionDetails.value else []))])
  {
    NewMessage(Acting, Some(content), Some([("action_details", JObj(DictOrEmpty(actionDetails)))]),
               Some(sessionId), None, now)
  }

  function CreateObservingMessage(content: string, sessionId: string, observationData: Option<Dict>, now: Instant)
    : (m: StreamMessage)
    ensures Made(m, Observing, sessionId) && m.content == Some(content)
    ensures m.metadata == Some([("observation_data", JObj(if observationData.Some? then observationData.value else []))])
  {
    NewMessage(Observing, Some(content), Some([("observation_data", JObj(DictOrEmpty(observationData)))]),
               Some(sessionId), None, now)
  }

  function CreateToolCallMessage(server: string, tool: string, status: string, sessionId: string,
                                 arguments: Option<Dict>, now: Instant): (m: StreamMessage)
    ensures Made(m, ToolCallEvent, sessionId)
    ensures m.content == Some(server + "." + tool + " 호출 중")
    ensures m.metadata == Some([("server", JStr(server)), ("tool", JStr(tool)), ("status", JStr(status)),
                                ("arguments", JObj(if arguments.Some? then arguments.value else []))])
  {
    NewMessage(ToolCallEvent, Some(server + "." + tool + " 호출 중"),
               Some([("server", JStr(server)), ("tool", JStr(tool)), ("status", JStr(status)),
                     ("arguments", JObj(DictOrEmpty(arguments)))]),
               Some(sessionId), None, now)
  }

  function CreateFinalResponseMessage(content: string, sessionId: string, now: Instant): (m: StreamMessage)
    ensures Made(m, FinalResponse, sessionId) && m.content == Some(content)
  {
    NewMessage(FinalResponse, Some(content), Some([("final", JBool(true))]), Some(sessionId), None, now)
  }

  function CreatePartialResponseMessage(content: string, sessionId: string, now: Instant): (m: StreamMessage)
    ensures Made(m, PartialResponse, sessionId) && m.content == Some(content)
  {
    NewMessage(PartialResponse, Some(content), Some([("partial", JBool(true))]), Some(sessionId), None, now)
  }

  const ERROR_PREFIX := "오류가 발생했습니다: "

  function CreateErrorMessage(error: string, sessionId: string, now: Instant): (m: StreamMessage)
    ensures Made(m, ErrorEvent, sessionId)
    ensures m.content.Some? && StartsWith(m.content.value, ERROR_PREFIX)
  {
    NewMessage(ErrorEvent, Some(ERROR_PREFIX + error), Some([("error", JStr(error))]), Some(sessionId), None, now)
  }

  /** The raw error text of an error message: the content after the prefix, which
      is also what the metadata records. */
  lemma ErrorMessageCarriesError(error: string, sessionId: string, now: Instant)
    ensures var m := CreateErrorMessage(error, sessionId, now);
      m.content.value[|ERROR_PREFIX|..] == error && m.metadata == Some([("error", JStr(error))])
  {
  }

  function CreateSessionEndMessage(sessionId: string, now: Instant): (m: StreamMessage)
    ensures Made(m, SessionEnd, sessionId) && m.content == Some("세션이 종료되었습니다")
  {
    NewMessage(SessionEnd, Some("세션이 종료되었습니다"), Some([("action", JStr("end"))]), Some(sessionId), None, now)
  }
}
