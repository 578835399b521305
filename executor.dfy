/*
 * The LLM workflow executor (`workflows/executor.py`): the router
 * `_decide_next_step`, the graph `create_workflow_executor` builds from the
 * three LLM nodes, a run of that graph, and how `execute_message` builds the
 * initial state and shapes the final one into its result dict.  The nodes
 * themselves are a parameter of a run: what each one does to the state.
 */
module WorkflowExecutor {
  import opened Base
  import opened Json
  import opened Models
  import LlmNodes

  /** `_decide_next_step`: the recorded next step, else the end once there is a success or a response, else the LLM response. */
  function DecideNextStep(v: StateView): (r: string)
    ensures v.nextStep.Some? && v.nextStep.value != [] ==> r == v.nextStep.value
    ensures (v.nextStep.None? || v.nextStep.value == []) ==>
      (r == "completed" <==> v.success || v.response != []) && (r == "completed" || r == "llm_generate_response")
  {
    if v.nextStep.Some? && v.nextStep.value != [] then v.nextStep.value
    else if v.success || v.response != [] then "completed"
    else "llm_generate_response"
  }

  /** The nodes `create_workflow_executor` adds. */
  datatype ExecNode = ParseIntentNode | CallToolNode | GenerateNode

  /** Where an edge leads: a node, or the end of the run. */
  datatype Target = To(node: ExecNode) | Finish

  /** How far a node is from the end: every edge leads closer to it. */
  function Rank(n: ExecNode): nat {
    match n
    case ParseIntentNode => 2
    case CallToolNode => 1
    case GenerateNode => 0
  }

  /** The path map of a node's conditional edge. */
  function PathMap(n: ExecNode): seq<(string, Target)> {
    match n
    case ParseIntentNode => [("llm_call_mcp_tool", To(CallToolNode)), ("llm_generate_response", To(GenerateNode))]
    case CallToolNode => []
    case GenerateNode => [("completed", Finish)]
  }

  /**
   * Where the graph goes after node `n` left state `v`: the tool call always
   * goes on to the response, the other two ask `_decide_next_step` and look
   * the answer up in their path map; `None` when the answer is not mapped.
   */
  function Successor(n: ExecNode, v: StateView): (r: Option<Target>)
    ensures r.Some? && r.value.To? ==> Rank(r.value.node) < Rank(n)
  {
    if n == CallToolNode then Some(To(GenerateNode)) else Lookup(PathMap(n), DecideNextStep(v))
  }

  /** What a node does to the state it is given. */
  type NodeSteps = (ExecNode, StateView) -> StateView

  /**
   * A run of the compiled graph from node `n`: the final state when it reaches
   * the end, or the unmapped answer of `_decide_next_step` that stops it with
   * an error.
   */
  function Walk(n: ExecNode, v: StateView, steps: NodeSteps): Result<StateView, string>
    decreases Rank(n)
  {
    var w := steps(n, v);
    match Successor(n, w)
    case None => Err(DecideNextStep(w))
    case Some(Finish) => Ok(w)
    case Some(To(m)) => Walk(m, w, steps)
  }

  /** A run ends normally only through the response node, with `_decide_next_step` answering "completed". */
  lemma {:induction false} WalkEndsCompleted(n: ExecNode, v: StateView, steps: NodeSteps)
    requires Walk(n, v, steps).Ok?
    ensures DecideNextStep(Walk(n, v, steps).value) == "completed"
    decreases Rank(n)
  {
    var w := steps(n, v);
    var s := Successor(n, w);
    if s.Some? && s.value.To? {
      WalkEndsCompleted(s.value.node, w, steps);
    } else {
      assert n == GenerateNode;
      assert PathMap(n)[0] == ("completed", Finish);
    }
  }

  /** The answers `llm_parse_intent` leaves and where the graph takes each. */
  lemma IntentStepTargets(w: StateView)
    ensures w.nextStep == Some("llm_call_mcp_tool") ==> Successor(ParseIntentNode, w) == Some(To(CallToolNode))
    ensures w.nextStep == Some("llm_generate_response") ==> Successor(ParseIntentNode, w) == Some(To(GenerateNode))
    ensures w.nextStep == Some("switch_to_react") ==> Successor(ParseIntentNode, w).None?
  {
    var keys := PathMap(ParseIntentNode);
    if w.nextStep == Some("llm_generate_response") {
      assert keys[0].0 != "llm_generate_response" by { assert keys[0].0[4] == 'c'; }
    }
    if w.nextStep == Some("switch_to_react") {
      assert keys[0].0[0] == 'l' && keys[1].0[0] == 'l';
    }
  }

  /**
   * After `llm_parse_intent` the graph has an edge for every outcome except a
   * request handed to the ReAct mode (a parsed, complex request outside ReAct
   * mode), whose next step "switch_to_react" the path map does not hold.
   */
  lemma IntentNodeEdges(v: StateView, outcome: Option<ParsedIntent>, complex: bool)
    ensures var w := LlmNodes.RouteIntent(v, outcome, complex);
      (Successor(ParseIntentNode, w).None?) <==> (outcome.Some? && complex && !v.reactMode)
  {
    IntentStepTargets(LlmNodes.RouteIntent(v, outcome, complex));
    LlmNodes.IntentRoutes(v, outcome, complex);
  }

  /** A complex request outside ReAct mode stops every run at the intent node, whatever the other nodes do. */
  lemma ComplexRequestStopsRun(v: StateView, reply: Result<string, string>, rd: LlmNodes.Readers, steps: NodeSteps)
    requires v.currentMessage.Some? && reply.Ok? && LlmNodes.IsComplex(v.currentMessage.value) && !v.reactMode
    requires steps(ParseIntentNode, v) == LlmNodes.ParseIntentStep(v, reply, rd)
    ensures Walk(ParseIntentNode, v, steps) == Err("switch_to_react")
  {
    var m := v.currentMessage.value;
    LlmNodes.IntentRoutes(v, Some(LlmNodes.ParseIntentReply(reply.value, m, rd)), true);
    IntentStepTargets(LlmNodes.ParseIntentStep(v, reply, rd));
  }

  /**
   * After `llm_generate_response` the run ends when it completed; when it
   * falls back to the keyword response step "generate_response", that step
   * has no edge here and the run stops.
   */
  lemma ResponseNodeEdges(w: StateView)
    requires w.nextStep == Some("completed") || w.nextStep == Some("generate_response")
    ensures w.nextStep == Some("completed") <==> Successor(GenerateNode, w) == Some(Finish)
    ensures w.nextStep == Some("generate_response") <==> Successor(GenerateNode, w).None?
  {
  }

  // ---------------------------------------------------------------- execute_message

  /** The state `execute_message` starts from: the user's message, the session, the client, and no history. */
  function ExecInitialView(userMessage: string, sessionId: string, hasMcpClient: bool): (v: StateView)
    ensures v.currentMessage == Some(userMessage) && v.sessionId == Some(sessionId) && v.hasMcpClient == hasMcpClient
    ensures v.messages == [] && v.toolCalls == [] && v.toolResults == [] && v.parsedIntent.None?
    ensures v.response == [] && !v.success && v.error.None? && v.stepCount == 0 && v.nextStep.None?
  {
    EmptyView().(currentMessage := Some(userMessage), sessionId := Some(sessionId), hasMcpClient := hasMcpClient)
  }

  /** One entry of the result's `tool_calls`. */
  function CallEntry(tc: McpToolCall): Dict {
    [("server", OptJson(tc.serverName)), ("tool", OptJson(tc.toolName)), ("arguments", JObj(tc.arguments)),
     ("result", tc.result), ("success", JBool(IsSuccessful(tc))), ("execution_time_ms", OptIntJson(tc.executionTimeMs))]
  }

  /** The result dict built from the final state. */
  function ResultOf(v: StateView, sessionId: string): Dict {
    var intent := if v.parsedIntent.Some? then JStr(IntentValue(v.parsedIntent.value.intentType)) else JNull;
    var calls := seq(|v.toolCalls|, k requires 0 <= k < |v.toolCalls| => JObj(CallEntry(v.toolCalls[k])));
    [("success", JBool(v.success)), ("response", JStr(v.response)), ("intent_type", intent),
     ("tool_calls", JArr(calls)), ("session_id", JStr(sessionId))]
      + if v.success then [] else [("error", OptJson(v.error))]
  }

  const RUN_FAILED := "죄송합니다. 요청을 처리하는 중 오류가 발생했습니다: "

  /** The result dict of a run that raised `e`. */
  function FailureOf(e: string, sessionId: string): Dict {
    [("success", JBool(false)), ("response", JStr(RUN_FAILED + e)), ("error", JStr(e)), ("session_id", JStr(sessionId))]
  }

  /** `execute_message`, with `steps` standing for the three nodes and `e` for a run's exception text. */
  function ExecuteMessage(userMessage: string, sessionId: string, hasMcpClient: bool, steps: NodeSteps): Dict {
    match Walk(ParseIntentNode, ExecInitialView(userMessage, sessionId, hasMcpClient), steps)
    case Ok(final) => ResultOf(final, sessionId)
    case Err(e) => FailureOf(e, sessionId)
  }

  /** The result dict has an `error` key exactly when it reports failure, and always echoes the session. */
  lemma {:induction false} ResultErrorIffFailure(v: StateView, sessionId: string)
    ensures var r := ResultOf(v, sessionId);
      && Get(r, "success") == Some(JBool(v.success))
      && Get(r, "session_id") == Some(JStr(sessionId))
      && (Get(r, "error").Some? <==> !v.success)
      && (!v.success ==> Get(r, "error") == Some(OptJson(v.error)))
  {
    var r := ResultOf(v, sessionId);
    GetAt(r, 4);
    if !v.success {
      GetAt(r, 5);
    }
  }

  /** The result lists the state's tool calls one for one and in order. */
  lemma {:induction false} ResultListsToolCalls(v: StateView, sessionId: string)
    ensures Get(ResultOf(v, sessionId), "tool_calls").Some?
    ensures var calls := Get(ResultOf(v, sessionId), "tool_calls").value;
      calls.JArr? && |calls.items| == |v.toolCalls|
      && forall k :: 0 <= k < |v.toolCalls| ==> calls.items[k] == JObj(CallEntry(v.toolCalls[k]))
  {
    GetAt(ResultOf(v, sessionId), 3);
  }

  /** A run that raises reports failure with the exception's text, in the response too, and the session. */
  lemma {:induction false} FailureReported(e: string, sessionId: string)
    ensures var r := FailureOf(e, sessionId);
      && Get(r, "success") == Some(JBool(false)) && Get(r, "error") == Some(JStr(e))
      && Get(r, "response") == Some(JStr(RUN_FAILED + e)) && Get(r, "session_id") == Some(JStr(sessionId))
  {
    var r := FailureOf(e, sessionId);
    GetAt(r, 1);
    GetAt(r, 2);
    GetAt(r, 3);
  }

  /** Every result of `execute_message` says whether it succeeded and has an `error` key exactly when it did not. */
  lemma ExecuteErrorIffFailure(userMessage: string, sessionId: string, hasMcpClient: bool, steps: NodeSteps)
    ensures var r := ExecuteMessage(userMessage, sessionId, hasMcpClient, steps);
      (Get(r, "success") == Some(JBool(false)) <==> Get(r, "error").Some?)
      && Get(r, "session_id") == Some(JStr(sessionId))
  {
    var w := Walk(ParseIntentNode, ExecInitialView(userMessage, sessionId, hasMcpClient), steps);
    if w.Ok? {
      ResultErrorIffFailure(w.value, sessionId);
    } else {
      FailureReported(w.error, sessionId);
    }
  }
}
