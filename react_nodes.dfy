/*
 * The four ReAct nodes of `workflows/react_nodes.py` as in-place updates of
 * the workflow state.  The language model and the MCP client are oracles:
 * each node receives what they answer (or the text of what they raise) as
 * a parameter.  A node returns the stream messages it publishes to its
 * session, in order, rather than handing them to the SSE registry.
 */
module ReactNodes {
  import opened Base
  import opened Json
  import opened Models
  import opened StreamMessages
  import opened ReactParse
  import opened ReactTools
  import WorkflowState

  /** `if session_id:` — a session id that is present and not empty. */
  predicate HasSession(v: StateView) {
    v.sessionId.Some? && v.sessionId.value != ""
  }

  /** A value that is present and, as Python tests it, truthy. */
  predicate Given(o: Option<string>) {
    o.Some? && o.value != ""
  }

  // ---------------------------------------------------------------- think

  /**
   * The state `react_think_node` leaves, given the model's reply or the text
   * of what it raised.  A reply is stripped and parsed; the iteration counts
   * it; a final answer ends the loop, an action leads to acting, and a reply
   * with neither ends the loop too.
   */
  function ThinkStep(v: StateView, reply: Result<string, string>): StateView {
    match reply
    case Err(e) => v.(error := Some("사고 과정 생성 중 오류: " + e), reactShouldContinue := false,
                      nextStep := Some("error_handler"))
    case Ok(content) => Thought(v, Strip(content))
  }

  /** The keys `react_think_node` writes for the stripped reply `t`. */
  function Thought(v: StateView, t: string): StateView {
    var p := ParseThought(t);
    var final := Given(p.finalAnswer);
    var act := !final && Given(p.action);
    v.(reactThought := Some(t), reactCurrentStep := Some("think"), reactIteration := v.reactIteration + 1,
       reactFinalAnswer := if final then p.finalAnswer else v.reactFinalAnswer,
       reactAction := if act then p.action else v.reactAction,
       reactShouldContinue := act,
       nextStep := Some(if act then "react_act" else "react_finalize"))
  }

  /** The thought parsed from a reply, if any. */
  function ThoughtOf(reply: Result<string, string>): Option<string> {
    if reply.Ok? then ParseThought(Strip(reply.value)).thought else None
  }

  /** The thinking messages `react_think_node` publishes: the progress note, and the thought when there is one. */
  function ThinkPublished(v: StateView, thought: Option<string>, now: Instant): seq<StreamMessage> {
    if !HasSession(v) then []
    else
      var sid := v.sessionId.value;
      var n := v.reactIteration + 1;
      var progress := CreateThinkingMessage("생각하는 중... (단계 " + IntToString(n) + ")", sid, n, now);
      [progress] + if Given(thought) then [CreateThinkingMessage("사고: " + thought.value, sid, n, now)] else []
  }

  /** The `publish_to_session` calls of `react_think_node`, in order. */
  method ThinkMessages(v: StateView, thought: Option<string>, now: Instant) returns (published: seq<StreamMessage>)
    ensures published == ThinkPublished(v, thought, now)
  {
    published := [];
    if v.sessionId.Some? && v.sessionId.value != "" {
      var n := v.reactIteration + 1;
      published := [CreateThinkingMessage("생각하는 중... (단계 " + IntToString(n) + ")", v.sessionId.value, n, now)];
      if thought.Some? && thought.value != "" {
        published := published + [CreateThinkingMessage("사고: " + thought.value, v.sessionId.value, n, now)];
      }
    }
  }

  /** `react_think_node`. */
  method ReactThink(st: ChatState, reply: Result<string, string>, now: Instant) returns (published: seq<StreamMessage>)
    modifies st
    ensures st.View() == ThinkStep(old(st.View()), reply)
    ensures published == ThinkPublished(old(st.View()), ThoughtOf(reply), now)
  {
    var v := st.View();
    match reply {
      case Err(e) =>
        published := ThinkMessages(v, None, now);
        st.keys := v.(error := Some("사고 과정 생성 중 오류: " + e), reactShouldContinue := false,
                     nextStep := Some("error_handler"));
      case Ok(content) =>
        var thoughtContent := Strip(content);
        var parsed := ParseThought(thoughtContent);
        published := ThinkMessages(v, parsed.thought, now);
        st.keys := Thought(v, thoughtContent);
    }
  }

  /** For a parsed reply: one more iteration, and the action step exactly for an action without a
      final answer. */
  lemma ThoughtRoutes(v: StateView, t: string)
    ensures var w := Thought(v, t);
      var p := ParseThought(t);
      w.messages == v.messages && w.toolCalls == v.toolCalls && w.reactMaxIterations == v.reactMaxIterations
      && w.reactIteration == v.reactIteration + 1
      && (w.nextStep == Some("react_act") || w.nextStep == Some("react_finalize"))
      && (w.nextStep == Some("react_act") <==> !Given(p.finalAnswer) && Given(p.action))
      && (w.nextStep == Some("react_act") ==> w.reactShouldContinue && Given(w.reactAction))
      && (Given(p.finalAnswer) ==> w.reactFinalAnswer == p.finalAnswer && !w.reactShouldContinue)
  {
  }

  /** Where thinking leads: one more iteration on a reply, the action step only for an
      action without a final answer, the error handler on an exception. */
  lemma ThinkRoutes(v: StateView, reply: Result<string, string>)
    ensures var w := ThinkStep(v, reply);
      w.messages == v.messages && w.toolCalls == v.toolCalls && w.reactMaxIterations == v.reactMaxIterations
      && (reply.Err? ==> w.nextStep == Some("error_handler") && !w.reactShouldContinue
                         && w.reactIteration == v.reactIteration && w.error.Some?)
      && (reply.Ok? ==>
            var p := ParseThought(Strip(reply.value));
            w.reactIteration == v.reactIteration + 1
            && (w.nextStep == Some("react_act") || w.nextStep == Some("react_finalize"))
            && (w.nextStep == Some("react_act") <==> !Given(p.finalAnswer) && Given(p.action))
            && (w.nextStep == Some("react_act") ==> w.reactShouldContinue && Given(w.reactAction))
            && (Given(p.finalAnswer) ==> w.reactFinalAnswer == p.finalAnswer && !w.reactShouldContinue))
  {
    if reply.Ok? {
      ThoughtRoutes(v, Strip(reply.value));
    }
  }

  /** What the loop needs of thinking: the bound is kept, a reply counts one iteration and leads to
      acting or finalizing, and an error leads to the error handler. */
  lemma ThinkLoopFacts(v: StateView, reply: Result<string, string>)
    ensures var w := ThinkStep(v, reply);
      w.reactMaxIterations == v.reactMaxIterations
      && (reply.Err? ==> w.nextStep == Some("error_handler"))
      && (reply.Ok? ==> w.reactIteration == v.reactIteration + 1
                        && (w.nextStep == Some("react_act") || w.nextStep == Some("react_finalize")))
  {
    ThinkRoutes(v, reply);
  }

  /** A reply in the requested `행동: tool: argument` form leads to the action step with that action. */
  lemma {:induction false} ThinkActionReply(v: StateView, x: string)
    requires IsLine(x)
    requires var s := "행동: " + x;
      Lacks(s, "최종") && Lacks(s, "final") && Lacks(s, "답변") && Lacks(s, "생각") && Lacks(s, "thought")
    ensures ThinkStep(v, Ok("행동: " + x)).nextStep == Some("react_act")
    ensures ThinkStep(v, Ok("행동: " + x)).reactAction == Some(x)
  {
    var s := "행동: " + x;
    assert s[0] == '행' && s[|s| - 1] == x[|x| - 1];
    StripKeepsTrimmed(s);
    ActionLineParsed(x);
    ThoughtWithAction(v, s, x);
  }

  /** A parsed action without a final answer leads to the action step with that action. */
  lemma ThoughtWithAction(v: StateView, t: string, x: string)
    requires x != [] && ParseThought(t) == ThoughtParse(None, Some(x), None)
    ensures Thought(v, t).nextStep == Some("react_act")
    ensures Thought(v, t).reactAction == Some(x)
  {
  }

  /** A reply `최종 답변: <answer>` finishes the loop with that answer, whatever the answer says. */
  lemma {:induction false} ThinkFinalReply(v: StateView, x: string)
    requires x != [] && !IsSpace(x[0]) && !IsSpace(x[|x| - 1])
    ensures ThinkStep(v, Ok("최종 답변: " + x)).nextStep == Some("react_finalize")
    ensures ThinkStep(v, Ok("최종 답변: " + x)).reactFinalAnswer == Some(x)
  {
    var s := "최종 답변: " + x;
    FinalReplyParsed(x);
    ThoughtWithFinalAnswer(v, s, x);
  }

  /** A trimmed `최종 답변:` reply is kept as it is and parses to its answer. */
  lemma FinalReplyParsed(x: string)
    requires x != [] && !IsSpace(x[0]) && !IsSpace(x[|x| - 1])
    ensures Strip("최종 답변: " + x) == "최종 답변: " + x
    ensures ParseThought("최종 답변: " + x).finalAnswer == Some(x)
  {
    var s := "최종 답변: " + x;
    assert s[0] == '최' && s[|s| - 1] == x[|x| - 1];
    StripKeepsTrimmed(s);
    StripKeepsTrimmed(x);
    FinalAnswerLineParsed(x);
  }

  /** A thought holding a final answer routes to the final step with that answer. */
  lemma ThoughtWithFinalAnswer(v: StateView, t: string, x: string)
    requires x != [] && ParseThought(t).finalAnswer == Some(x)
    ensures Thought(v, t).nextStep == Some("react_finalize")
    ensures Thought(v, t).reactFinalAnswer == Some(x)
  {
  }

  // ---------------------------------------------------------------- act

  /** `state.get("react_action", "")`. */
  function ActionText(v: StateView): string {
    v.reactAction.GetOr("")
  }

  /** The call `_execute_action` makes for an action, if the action names a tool. */
  function ActionCall(action: string, hasClient: bool, outcome: Result<Json, string>, elapsedMs: int): Option<McpToolCall> {
    var parsed := ParseAction(Strip(action));
    if parsed.Some? then Some(CallMcpTool(hasClient, parsed.value.0, parsed.value.1, outcome, elapsedMs))
    else None
  }

  /** The observation `_execute_action` returns: the formatted tool result, or a note that the action was done. */
  function ActObservation(action: string, call: Option<McpToolCall>): string {
    if call.Some? then FormatToolResult(call.value) else "행동 완료: " + action
  }

  /** The state `react_act_node` leaves; `outcome` and `elapsedMs` answer the tool call, if one is made. */
  function ActStep(v: StateView, outcome: Result<Json, string>, elapsedMs: int): StateView {
    var call := ActionCall(ActionText(v), v.hasMcpClient, outcome, elapsedMs);
    v.(toolCalls := if call.Some? then v.toolCalls + [call.value] else v.toolCalls,
       reactObservation := Some(ActObservation(ActionText(v), call)),
       reactCurrentStep := Some("act"),
       nextStep := Some("react_observe"))
  }

  function ActPublished(v: StateView, now: Instant): seq<StreamMessage> {
    if HasSession(v) then
      [CreateActingMessage("행동 실행 중: " + ActionText(v), v.sessionId.value,
                           Some([("action", JStr(ActionText(v)))]), now)]
    else []
  }

  /** `_execute_action`: parses the action and, when it names a tool, calls it. */
  method ExecuteAction(hasClient: bool, action: string, outcome: Result<Json, string>, elapsedMs: int)
    returns (call: Option<McpToolCall>, observation: string)
    ensures call == ActionCall(action, hasClient, outcome, elapsedMs)
    ensures observation == ActObservation(action, call)
  {
    var parsed := ParseAction(Strip(action));
    if parsed.Some? {
      var tc := CallMcpTool(hasClient, parsed.value.0, parsed.value.1, outcome, elapsedMs);
      call, observation := Some(tc), FormatToolResult(tc);
    } else {
      call, observation := None, "행동 완료: " + action;
    }
  }

  /** `react_act_node`. */
  method ReactAct(st: ChatState, outcome: Result<Json, string>, elapsedMs: int, now: Instant)
    returns (published: seq<StreamMessage>)
    modifies st
    ensures st.View() == ActStep(old(st.View()), outcome, elapsedMs)
    ensures published == ActPublished(old(st.View()), now)
  {
    var v := st.View();
    var action := v.reactAction.GetOr("");
    published := [];
    if v.sessionId.Some? && v.sessionId.value != "" {
      published := [CreateActingMessage("행동 실행 중: " + action, v.sessionId.value, Some([("action", JStr(action))]), now)];
    }
    var call, observation := ExecuteAction(v.hasMcpClient, action, outcome, elapsedMs);
    var calls := if call.Some? then v.toolCalls + [call.value] else v.toolCalls;
    st.keys := v.(toolCalls := calls, reactObservation := Some(observation), reactCurrentStep := Some("act"),
                 nextStep := Some("react_observe"));
  }

  /** Acting always leads to observing, keeps the conversation and the counters, and only ever appends tool calls. */
  lemma ActRoutes(v: StateView, outcome: Result<Json, string>, elapsedMs: int)
    ensures var w := ActStep(v, outcome, elapsedMs);
      w.nextStep == Some("react_observe") && w.messages == v.messages && w.reactIteration == v.reactIteration
      && w.reactMaxIterations == v.reactMaxIterations
      && w.toolCalls[..|v.toolCalls|] == v.toolCalls
  {
    var w := ActStep(v, outcome, elapsedMs);
    var call := ActionCall(ActionText(v), v.hasMcpClient, outcome, elapsedMs);
    if call.Some? {
      assert w.toolCalls == v.toolCalls + [call.value];
    }
  }

  /** Acting records exactly one tool call, for the named tool, when the action parses, and none otherwise. */
  lemma ActRecordsParsedAction(v: StateView, outcome: Result<Json, string>, elapsedMs: int)
    ensures var w := ActStep(v, outcome, elapsedMs);
      var parsed := ParseAction(Strip(ActionText(v)));
      && (parsed.Some? <==> |w.toolCalls| == |v.toolCalls| + 1)
      && (parsed.None? <==> w.toolCalls == v.toolCalls)
      && (parsed.Some? ==> w.toolCalls[|v.toolCalls|].toolName == Some(parsed.value.0))
      && (parsed.None? ==> w.reactObservation == Some("행동 완료: " + ActionText(v)))
  {
    var w := ActStep(v, outcome, elapsedMs);
    var parsed := ParseAction(Strip(ActionText(v)));
    if parsed.Some? {
      var tc := CallMcpTool(v.hasMcpClient, parsed.value.0, parsed.value.1, outcome, elapsedMs);
      assert w.toolCalls == v.toolCalls + [tc];
    } else {
      assert w.toolCalls == v.toolCalls;
    }
  }

  /** What the loop needs of acting: the counters are kept and observing comes next. */
  lemma ActLoopFacts(v: StateView, outcome: Result<Json, string>, elapsedMs: int)
    ensures var w := ActStep(v, outcome, elapsedMs);
      w.reactMaxIterations == v.reactMaxIterations && w.reactIteration == v.reactIteration
      && w.nextStep == Some("react_observe")
  {
  }

  /** An action in the requested `tool: argument` form calls that tool with that argument. */
  lemma {:induction false} ActCallsNamedTool(v: StateView, w: string, a: string, outcome: Result<Json, string>, elapsedMs: int)
    requires IsToolName(w) && IsLine(a) && v.reactAction == Some(w + ": " + a)
    ensures var after := ActStep(v, outcome, elapsedMs);
      after.toolCalls == v.toolCalls + [CallMcpTool(v.hasMcpClient, w, a, outcome, elapsedMs)]
  {
    var s := w + ": " + a;
    assert s[0] == w[0];
    StripKeepsTrimmed(s);
    ToolLineParsed(w, a);
  }

  // ---------------------------------------------------------------- observe

  /** The assistant message recording an observation. */
  function ObservationMessage(observation: string, iteration: int, now: Instant): ChatMessage {
    ChatMessage(Assistant, "관찰: " + observation, now,
                Some([("react_step", JStr("observe")), ("iteration", JInt(iteration))]))
  }

  /**
   * The state `react_observe_node` leaves: the observation is appended to the
   * history; at the iteration bound, or when the stop rule says so, the loop
   * ends with the summary as its answer; an error in the stop rule ends it
   * too.  (The summary reads only the calls and the request, which the
   * appended message does not change.)
   */
  function ObserveStep(v: StateView, now: Instant): StateView {
    var observation := v.reactObservation.GetOr("");
    var msgs := v.messages + [ObservationMessage(observation, v.reactIteration, now)];
    var atLimit := v.reactIteration >= v.reactMaxIterations;
    var decision := ShouldContinueReact(msgs);
    var go := !atLimit && decision == Ok(true);
    var failed := !atLimit && decision.Err?;
    v.(messages := msgs,
       reactCurrentStep := Some("observe"),
       reactShouldContinue := go,
       reactFinalAnswer := if go || failed then v.reactFinalAnswer else Some(SummaryAnswer(v)),
       error := if failed then Some("관찰 단계 중 오류: " + decision.error) else v.error,
       nextStep := Some(if go then "react_think" else "react_finalize"))
  }

  function ObservePublished(v: StateView, now: Instant): seq<StreamMessage> {
    var observation := v.reactObservation.GetOr("");
    if HasSession(v) then
      [CreateObservingMessage("결과 관찰: " + observation, v.sessionId.value,
                              Some([("observation", JStr(observation)), ("iteration", JInt(v.reactIteration))]), now)]
    else []
  }

  /** The observing progress message, published when the state has a session. */
  method ObserveMessages(v: StateView, now: Instant) returns (published: seq<StreamMessage>)
    ensures published == ObservePublished(v, now)
  {
    var observation := v.reactObservation.GetOr("");
    published := [];
    if v.sessionId.Some? && v.sessionId.value != "" {
      published := [CreateObservingMessage("결과 관찰: " + observation, v.sessionId.value,
                                           Some([("observation", JStr(observation)), ("iteration", JInt(v.reactIteration))]), now)];
    }
  }

  /** `react_observe_node`. */
  method ReactObserve(st: ChatState, now: Instant) returns (published: seq<StreamMessage>)
    modifies st
    ensures st.View() == ObserveStep(old(st.View()), now)
    ensures published == ObservePublished(old(st.View()), now)
  {
    var v := st.View();
    var observation := v.reactObservation.GetOr("");
    published := ObserveMessages(v, now);
    var messages := v.messages + [ObservationMessage(observation, v.reactIteration, now)];
    var go, failed, error := false, false, "";
    if v.reactIteration < v.reactMaxIterations {
      var decision := ShouldContinueReact(messages);
      match decision {
        case Ok(b) => go := b;
        case Err(e) => failed, error := true, e;
      }
    }
    st.keys := v.(messages := messages, reactCurrentStep := Some("observe"), reactShouldContinue := go,
                 reactFinalAnswer := if go || failed then v.reactFinalAnswer else Some(SummaryAnswer(v)),
                 error := if failed then Some("관찰 단계 중 오류: " + error) else v.error,
                 nextStep := Some(if go then "react_think" else "react_finalize"));
  }

  /** Observing appends exactly one observation message, and finishes once the iteration bound is reached. */
  lemma ObserveRoutes(v: StateView, now: Instant)
    ensures var w := ObserveStep(v, now);
      |w.messages| == |v.messages| + 1 && w.messages[..|v.messages|] == v.messages
      && IsObservation(w.messages[|v.messages|]) && w.messages[|v.messages|].role == Assistant
      && w.toolCalls == v.toolCalls && w.reactIteration == v.reactIteration
      && w.reactMaxIterations == v.reactMaxIterations
      && (w.nextStep == Some("react_think") || w.nextStep == Some("react_finalize"))
      && (v.reactIteration >= v.reactMaxIterations ==> w.nextStep == Some("react_finalize"))
      && (w.nextStep == Some("react_finalize") && w.error.None? ==> w.reactFinalAnswer.Some?)
  {
    var w := ObserveStep(v, now);
    var m := w.messages[|v.messages|];
    assert m.metadata.value[0] == ("react_step", JStr("observe"));
  }

  /** What the loop needs of observing: the counters are kept, and thinking follows only below the bound. */
  lemma ObserveLoopFacts(v: StateView, now: Instant)
    ensures var w := ObserveStep(v, now);
      w.reactMaxIterations == v.reactMaxIterations && w.reactIteration == v.reactIteration
      && (w.nextStep == Some("react_think") || w.nextStep == Some("react_finalize"))
      && (w.nextStep == Some("react_think") ==> v.reactIteration < v.reactMaxIterations)
  {
  }

  /** Every observation message the node writes has a first word, so the stop rule's division is safe
      on a history whose observations all come from this node. */
  lemma ObservationMessageHasWord(observation: string, iteration: int, now: Instant)
    ensures var m := ObservationMessage(observation, iteration, now);
      m.content != [] && !IsSpace(m.content[0])
  {
  }

  // ---------------------------------------------------------------- finalize

  /** What the model does during finalization: the tokens it streams, whether the stream then
      raises, and the reply of the non-streaming call that is made without a session or after
      a failed stream (the text of the exception if that raises too). */
  datatype FinalizeLlm = FinalizeLlm(tokens: seq<string>, streamError: Option<string>, invoke: Result<string, string>)

  /** `"".join(parts)`. */
  function Concat(parts: seq<string>): string {
    if parts == [] then "" else Concat(parts[..|parts| - 1]) + parts[|parts| - 1]
  }

  lemma ConcatSnoc(parts: seq<string>, last: string)
    ensures Concat(parts + [last]) == Concat(parts) + last
  {
    assert (parts + [last])[..|parts|] == parts;
  }

  /** No chunk in `ws` is all whitespace. */
  predicate NoneBlank(ws: seq<string>) {
    forall k :: 0 <= k < |ws| ==> !AllSpace(ws[k])
  }

  lemma NoneBlankSnoc(ws: seq<string>, w: string)
    requires NoneBlank(ws) && !AllSpace(w)
    ensures NoneBlank(ws + [w])
  {
    forall k | 0 <= k < |ws| + 1 ensures !AllSpace((ws + [w])[k]) {
      if k < |ws| { assert (ws + [w])[k] == ws[k]; }
    }
  }

  lemma AppendAssoc(a: string, b: string, c: string)
    ensures (a + b) + c == a + (b + c)
  {
  }

  /** The separators of the three lists the node checks a token against; each is one character. */
  predicate IsSeparator(c: char) {
    c == ' ' || c == '\t' || c == '.' || c == '!' || c == '?' || c == ',' || c == ';' || c == ':' || c == '\n'
    || c == '。' || c == '！' || c == '？' || c == '，' || c == '；' || c == '：'
  }

  /** When the word buffer is sent after `token`: a separator, a buffer of 15 characters or more, or every 20th token. */
  predicate ShouldSend(token: string, buffer: string, count: nat) {
    (|token| == 1 && IsSeparator(token[0])) || |buffer| >= 15 || count % 20 == 0
  }

  /** `should_send and word_buffer.strip()`: the buffer is sent when it is due and not all whitespace. */
  method SendDue(token: string, buffer: string, count: nat) returns (due: bool)
    ensures due <==> ShouldSend(token, buffer, count) && !AllSpace(buffer)
  {
    StripEmptyIffAllSpace(buffer);
    due := ShouldSend(token, buffer, count) && Strip(buffer) != "";
  }

  /**
   * The word-buffer loop of `react_finalize_node`: every non-empty token is
   * added to the answer and the buffer, and a buffer that is due and not all
   * whitespace is sent as one chunk.  Returns the answer, the chunks sent
   * and what is left in the buffer.
   */
  method StreamWords(tokens: seq<string>) returns (answer: string, sent: seq<string>, buffer: string)
    ensures answer == Concat(tokens)
    ensures Concat(sent) + buffer == answer
    ensures NoneBlank(sent)
  {
    answer, sent, buffer := "", [], "";
    var count: nat := 0;
    var i := 0;
    while i < |tokens|
      invariant 0 <= i <= |tokens|
      invariant answer == Concat(tokens[..i])
      invariant Concat(sent) + buffer == answer
      invariant NoneBlank(sent)
    {
      var token := tokens[i];
      assert tokens[..i + 1] == tokens[..i] + [token];
      ConcatSnoc(tokens[..i], token);
      if token != "" {
        AppendAssoc(Concat(sent), buffer, token);
        answer := answer + token;
        buffer := buffer + token;
        count := count + 1;
        var due := SendDue(token, buffer, count);
        if due {
          ConcatSnoc(sent, buffer);
          NoneBlankSnoc(sent, buffer);
          sent := sent + [buffer];
          buffer := "";
        }
      }
      i := i + 1;
    }
    assert tokens[..i] == tokens;
  }

  const STREAM_METADATA: Dict :=
    [("streaming", JBool(true)), ("react_final", JBool(true)), ("word_streaming", JBool(true)), ("cumulative", JBool(false))]

  /** A streamed chunk, with the metadata the node puts on it in place of the factory's. */
  function ChunkMessage(chunk: string, sid: string, now: Instant, last: bool): (m: StreamMessage)
    ensures m.msgType == PartialResponse && m.content == Some(chunk)
  {
    CreatePartialResponseMessage(chunk, sid, now).(
      metadata := Some(STREAM_METADATA + if last then [("final_word", JBool(true))] else []))
  }

  function ChunkMessages(chunks: seq<string>, sid: string, now: Instant): (ms: seq<StreamMessage>)
    ensures |ms| == |chunks| && forall k :: 0 <= k < |ms| ==> ms[k] == ChunkMessage(chunks[k], sid, now, false)
  {
    seq(|chunks|, k requires 0 <= k < |chunks| => ChunkMessage(chunks[k], sid, now, false))
  }

  /** The closing message carrying the whole answer. */
  function FinalMessage(answer: string, sid: string, now: Instant): StreamMessage {
    CreateFinalResponseMessage(answer, sid, now).(metadata := Some([("react_final", JBool(true))]))
  }

  /** The answer the node settles on, or the text of the exception that reaches its handler. */
  function FinalAnswer(v: StateView, llm: FinalizeLlm): Result<string, string> {
    if HasSession(v) && llm.streamError.None? then Ok(Concat(llm.tokens)) else llm.invoke
  }

  /** The state after a successful finalization: the answer is recorded and appended as an assistant message. */
  function Finalized(v: StateView, answer: string, now: Instant): StateView {
    v.(reactFinalAnswer := Some(answer), response := answer, success := true,
       messages := v.messages + [ChatMessage(Assistant, answer, now, None)])
  }

  /**
   * The exception handler of `react_finalize_node`, as corrected: the
   * summary answer is recorded and appended like a model answer.
   */
  function FinalizeFallback(v: StateView, now: Instant): StateView {
    Finalized(v, SummaryAnswer(v), now)
  }

  /** How an exception escaping a node is reported. */
  datatype Raised = UnboundLocal(name: string)

  /**
   * Calling a name the function binds somewhere in its own body: Python
   * makes such a name local to the whole function, so the call raises
   * `UnboundLocalError` unless the binding statement has already run.
   */
  function CallLocal(name: string, bound: bool): Option<Raised> {
    if bound then None else Some(UnboundLocal(name))
  }

  /**
   * The exception handler as written: the summary is recorded in the state,
   * then `add_assistant_message` is called.  The function binds that name
   * only by its own `from .state import add_assistant_message`, so whether
   * the call works depends on whether that import ran before the exception.
   */
  function FinalizeHandlerAsWritten(v: StateView, importRan: bool, now: Instant): (StateView, Option<Raised>) {
    var summary := SummaryAnswer(v);
    var recorded := v.(reactFinalAnswer := Some(summary), response := summary, success := true);
    var raised := CallLocal("add_assistant_message", importRan);
    if raised.None? then (Finalized(v, summary, now), None) else (recorded, raised)
  }

  /**
   * `react_finalize_node` as written.  The model call, and the SSE sends
   * around it, come before the import, so an exception from the model
   * reaches the handler with the import not yet run.
   */
  function FinalizeAsWritten(v: StateView, llm: FinalizeLlm, now: Instant): (StateView, Option<Raised>) {
    var answer := FinalAnswer(v, llm);
    if answer.Ok? then (Finalized(v, answer.value, now), None)
    else FinalizeHandlerAsWritten(v, false, now)
  }

  /** As written, a failed model call makes the handler raise: the summary becomes the response
      but never reaches the history.  With the import already run, the handler would append it. */
  lemma FallbackAsWrittenRaises(v: StateView, llm: FinalizeLlm, now: Instant)
    ensures FinalAnswer(v, llm).Err? ==>
      var (w, raised) := FinalizeAsWritten(v, llm, now);
      raised == Some(UnboundLocal("add_assistant_message")) && w.messages == v.messages
      && w.response == SummaryAnswer(v)
    ensures FinalAnswer(v, llm).Ok? ==> FinalizeAsWritten(v, llm, now) == (FinalizeStep(v, llm, now), None)
    ensures FinalizeHandlerAsWritten(v, true, now) == (FinalizeFallback(v, now), None)
  {
  }

  /** Corrected, the handler ends the turn with the summary as the last message and as the response. */
  lemma FallbackRecordsSummary(v: StateView, now: Instant)
    ensures var w := FinalizeFallback(v, now);
      w.success && w.response == SummaryAnswer(v) && |w.messages| == |v.messages| + 1
      && w.messages[|v.messages|].content == SummaryAnswer(v) && w.messages[..|v.messages|] == v.messages
  {
  }

  /** The state `react_finalize_node` leaves, with the corrected handler. */
  function FinalizeStep(v: StateView, llm: FinalizeLlm, now: Instant): StateView {
    var answer := FinalAnswer(v, llm);
    Finalized(v, if answer.Ok? then answer.value else SummaryAnswer(v), now)
  }

  /** The text of the partial responses among `ms`, concatenated. */
  function PartialText(ms: seq<StreamMessage>): string {
    if ms == [] then ""
    else
      var m := ms[|ms| - 1];
      PartialText(ms[..|ms| - 1]) + if m.msgType == PartialResponse && m.content.Some? then m.content.value else ""
  }

  lemma {:induction false} PartialTextOfChunks(chunks: seq<string>, sid: string, now: Instant)
    ensures PartialText(ChunkMessages(chunks, sid, now)) == Concat(chunks)
  {
    if chunks != [] {
      var ms := ChunkMessages(chunks, sid, now);
      assert ms[..|ms| - 1] == ChunkMessages(chunks[..|chunks| - 1], sid, now);
      PartialTextOfChunks(chunks[..|chunks| - 1], sid, now);
    }
  }

  /**
   * What the streamed messages of a finished answer look like: the chunks,
   * concatenated, are the answer up to trailing whitespace, and the closing
   * message carries the whole answer.
   */
  predicate Streamed(published: seq<StreamMessage>, answer: string, sid: string, now: Instant) {
    |published| >= 1 && published[|published| - 1] == FinalMessage(answer, sid, now)
    && var sent := PartialText(published[..|published| - 1]);
       StartsWith(answer, sent) && AllSpace(answer[|sent|..])
  }

  /**
   * The answer part of `react_finalize_node`: with a session the answer is
   * streamed word by word and closed by a final message; without one, or
   * when the stream raises, the model is called once more without streaming.
   */
  method FinalizeAnswer(v: StateView, llm: FinalizeLlm, now: Instant)
    returns (answer: Result<string, string>, published: seq<StreamMessage>)
    ensures answer == FinalAnswer(v, llm)
    ensures !HasSession(v) ==> published == []
    ensures HasSession(v) && llm.streamError.None? ==> Streamed(published, answer.value, v.sessionId.value, now)
  {
    published := [];
    if v.sessionId.Some? && v.sessionId.value != "" {
      var sid := v.sessionId.value;
      var streamed, sent, rest := StreamWords(llm.tokens);
      published := ChunkMessages(sent, sid, now);
      PartialTextOfChunks(sent, sid, now);
      if llm.streamError.None? {
        if !AllSpace(rest) {
          published := published + [ChunkMessage(rest, sid, now, true)];
          assert PartialText(published) == streamed;
        } else {
          assert PartialText(published) + rest == streamed;
        }
        answer := Ok(streamed);
      } else {
        answer := llm.invoke;
      }
      if answer.Ok? {
        published := published + [FinalMessage(answer.value, sid, now)];
      }
    } else {
      answer := llm.invoke;
    }
  }

  /** `react_finalize_node` (with the corrected exception handler). */
  method ReactFinalize(st: ChatState, llm: FinalizeLlm, now: Instant) returns (published: seq<StreamMessage>)
    modifies st
    ensures st.View() == FinalizeStep(old(st.View()), llm, now)
    ensures !HasSession(old(st.View())) ==> published == []
    ensures HasSession(old(st.View())) && llm.streamError.None? ==>
      Streamed(published, Concat(llm.tokens), old(st.keys.sessionId).value, now)
  {
    var v := st.View();
    var answer;
    answer, published := FinalizeAnswer(v, llm, now);
    // On an exception the corrected handler settles on the summary answer.
    var text := if answer.Ok? then answer.value else SummaryAnswer(v);
    st.keys := v.(reactFinalAnswer := Some(text), response := text, success := true);
    WorkflowState.AddAssistantMessage(st, text, None, now);
  }
}
