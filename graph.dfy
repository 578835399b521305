/*
 * The LangGraph workflow of `workflows/graph.py`: the three routing
 * functions, the node and edge table `create_workflow` declares, how a run
 * moves along it, and `MCPWorkflowExecutor`'s shaping of the final state
 * into a result dict.
 */
module Graph {
  import opened Base
  import opened Json
  import opened Models
  import WorkflowState
  import ReactNodes

  /** LangGraph's name for the end of a run. */
  const END := "__end__"

  /** `should_call_mcp_tool`: the ReAct loop when ReAct mode is on, else the tool call for a tool intent. */
  function ShouldCallMcpTool(v: StateView): (r: string)
    ensures r == "react_think" <==> v.reactMode
    ensures r == "call_mcp_tool" <==> !v.reactMode && v.parsedIntent.Some? && IsMcpAction(v.parsedIntent.value)
    ensures r == "react_think" || r == "call_mcp_tool" || r == "generate_response"
  {
    if v.reactMode then "react_think"
    else if v.parsedIntent.Some? && IsMcpAction(v.parsedIntent.value) then "call_mcp_tool"
    else "generate_response"
  }

  /** The steps `should_continue_react` passes through unchanged. */
  predicate IsReactStep(s: string) {
    s == "react_think" || s == "react_act" || s == "react_observe" || s == "react_finalize"
  }

  /** `should_continue_react`: a ReAct step goes where `next_step` says, an error to the plain
      response, anything else to the end. */
  function ShouldContinueReact(v: StateView): (r: string)
    ensures v.nextStep.Some? && IsReactStep(v.nextStep.value) ==> r == v.nextStep.value
    ensures v.nextStep == Some("error_handler") ==> r == "generate_response"
    ensures r == END <==> !(v.nextStep.Some? && (IsReactStep(v.nextStep.value) || v.nextStep.value == "error_handler"))
  {
    match v.nextStep
    case Some(s) =>
      if s == "react_think" then "react_think"
      else if s == "react_act" then "react_act"
      else if s == "react_observe" then "react_observe"
      else if s == "react_finalize" then "react_finalize"
      else if s == "error_handler" then "generate_response"
      else END
    case None => END
  }

  /** `should_continue`: ends on an error message or a cleared `should_continue`. */
  function ShouldContinue(v: StateView): (r: string)
    ensures r == END <==> (v.errorMessage.Some? && v.errorMessage.value != "") || !v.shouldContinue
    ensures r == END || r == "generate_response"
  {
    if (v.errorMessage.Some? && v.errorMessage.value != "") || !v.shouldContinue then END
    else "generate_response"
  }

  // ---------------------------------------------------------------- the graph

  datatype Node =
    | ParseMessage | CallMcpTool | GenerateResponse
    | ReactThink | ReactAct | ReactObserve | ReactFinalize
    | End

  /** The routers of the conditional edges. */
  datatype Router = ByIntent | ByNextStep

  /** An edge out of a node: always to one node, or to the node the router's answer is mapped to. */
  datatype Edge = Always(target: Node) | Branch(router: Router, paths: seq<(string, Node)>)

  /** `set_entry_point`. */
  const ENTRY := ParseMessage

  /** The edges `create_workflow` adds, one per node; the end has none. */
  function EdgeFrom(n: Node): Option<Edge> {
    match n
    case ParseMessage =>
      Some(Branch(ByIntent, [("call_mcp_tool", CallMcpTool), ("generate_response", GenerateResponse),
                             ("react_think", ReactThink)]))
    case CallMcpTool => Some(Always(GenerateResponse))
    case GenerateResponse => Some(Always(End))
    case ReactThink =>
      Some(Branch(ByNextStep, [("react_act", ReactAct), ("react_finalize", ReactFinalize),
                               ("generate_response", GenerateResponse), (END, End)]))
    case ReactAct =>
      Some(Branch(ByNextStep, [("react_observe", ReactObserve), ("react_finalize", ReactFinalize), (END, End)]))
    case ReactObserve =>
      Some(Branch(ByNextStep, [("react_think", ReactThink), ("react_finalize", ReactFinalize), (END, End)]))
    case ReactFinalize => Some(Always(End))
    case End => None
  }

  function Route(r: Router, v: StateView): string {
    match r
    case ByIntent => ShouldCallMcpTool(v)
    case ByNextStep => ShouldContinueReact(v)
  }

  /** Every node an edge out of `n` can lead to. */
  function Targets(n: Node): set<Node> {
    match EdgeFrom(n)
    case None => {}
    case Some(Always(t)) => {t}
    case Some(Branch(_, paths)) => set k | 0 <= k < |paths| :: paths[k].1
  }

  /**
   * The node that runs after `n` has left the state `v`: `None` at the end,
   * and also when the router answers a name the path map lacks, on which
   * LangGraph raises instead of moving on.
   */
  function Next(n: Node, v: StateView): (r: Option<Node>)
    ensures r.Some? ==> r.value in Targets(n)
  {
    match EdgeFrom(n)
    case None => None
    case Some(Always(t)) => Some(t)
    case Some(Branch(router, paths)) => Lookup(paths, Route(router, v))
  }

  /** From observing, only thinking, finalizing or the end can follow. */
  lemma ObserveSuccessors()
    ensures Targets(ReactObserve) == {ReactThink, ReactFinalize, End}
  {
    var paths := EdgeFrom(ReactObserve).value.paths;
    assert paths[0].1 == ReactThink && paths[1].1 == ReactFinalize && paths[2].1 == End;
  }

  /** From acting, only observing, finalizing or the end can follow. */
  lemma ActSuccessors()
    ensures Targets(ReactAct) == {ReactObserve, ReactFinalize, End}
  {
    var paths := EdgeFrom(ReactAct).value.paths;
    assert paths[0].1 == ReactObserve && paths[1].1 == ReactFinalize && paths[2].1 == End;
  }

  /** Finalizing and the plain response end the run; the tool call is always followed by the response. */
  lemma FixedEdges(v: StateView)
    ensures Next(ReactFinalize, v) == Some(End) && Next(GenerateResponse, v) == Some(End)
    ensures Next(CallMcpTool, v) == Some(GenerateResponse)
  {
  }

  /** The first routing sends every state somewhere: ReAct mode to thinking, else the tool call or the response. */
  lemma {:induction false} ParseMessageRoutes(v: StateView)
    ensures Next(ParseMessage, v) == Some(if v.reactMode then ReactThink
                                         else if v.parsedIntent.Some? && IsMcpAction(v.parsedIntent.value) then CallMcpTool
                                         else GenerateResponse)
  {
    var paths := EdgeFrom(ParseMessage).value.paths;
    assert paths[0].0 == "call_mcp_tool";
    assert paths[1..][0].0 == "generate_response";
    assert paths[1..][1..][0].0 == "react_think";
  }

  // ---------------------------------------------------------------- the ReAct loop

  /** What the outside world answers at one step of the loop: the model's reply when thinking,
      the tool's outcome and its duration when acting, and the clock. */
  datatype Oracle = Oracle(reply: Result<string, string>, outcome: Result<Json, string>, elapsedMs: int, now: Instant)

  predicate InLoop(n: Node) {
    n == ReactThink || n == ReactAct || n == ReactObserve
  }

  /** The state a node of the loop leaves. */
  function LoopStep(n: Node, v: StateView, o: Oracle): StateView
    requires InLoop(n)
  {
    match n
    case ReactThink => ReactNodes.ThinkStep(v, o.reply)
    case ReactAct => ReactNodes.ActStep(v, o.outcome, o.elapsedMs)
    case ReactObserve => ReactNodes.ObserveStep(v, o.now)
  }

  /** The next steps the thinking node sets are all mapped: to acting, finalizing, and (for an error) the plain response. */
  lemma {:induction false} ThinkEdges(w: StateView)
    ensures w.nextStep == Some("react_act") ==> Next(ReactThink, w) == Some(ReactAct)
    ensures w.nextStep == Some("react_finalize") ==> Next(ReactThink, w) == Some(ReactFinalize)
    ensures w.nextStep == Some("error_handler") ==> Next(ReactThink, w) == Some(GenerateResponse)
  {
    var paths := EdgeFrom(ReactThink).value.paths;
    assert paths[0].0 == "react_act";
    assert paths[1..][0].0 == "react_finalize";
    assert paths[1..][1..][0].0 == "generate_response";
  }

  /** The next step the acting node sets is mapped to observing. */
  lemma {:induction false} ActEdges(w: StateView)
    ensures w.nextStep == Some("react_observe") ==> Next(ReactAct, w) == Some(ReactObserve)
  {
    assert EdgeFrom(ReactAct).value.paths[0].0 == "react_observe";
  }

  /** The next steps the observing node sets are mapped to thinking and finalizing. */
  lemma {:induction false} ObserveEdges(w: StateView)
    ensures w.nextStep == Some("react_think") ==> Next(ReactObserve, w) == Some(ReactThink)
    ensures w.nextStep == Some("react_finalize") ==> Next(ReactObserve, w) == Some(ReactFinalize)
  {
    var paths := EdgeFrom(ReactObserve).value.paths;
    assert paths[0].0 == "react_think";
    assert paths[1..][0].0 == "react_finalize";
  }

  /** Whatever a loop node leaves, the graph knows where to go next: no step of the loop raises for a missing edge. */
  lemma {:induction false} LoopNeverStuck(n: Node, v: StateView, o: Oracle)
    requires InLoop(n)
    ensures Next(n, LoopStep(n, v, o)).Some?
  {
    var w := LoopStep(n, v, o);
    match n
    case ReactThink =>
      ReactNodes.ThinkLoopFacts(v, o.reply);
      ThinkEdges(w);
    case ReactAct =>
      ReactNodes.ActLoopFacts(v, o.outcome, o.elapsedMs);
      ActEdges(w);
    case ReactObserve =>
      ReactNodes.ObserveLoopFacts(v, o.now);
      ObserveEdges(w);
  }

  /** How many times the loop acts, running from node `n` in state `v` with one answer per step,
      until it leaves the loop or the answers run out. */
  function ActsRun(n: Node, v: StateView, os: seq<Oracle>): nat
    decreases |os|
  {
    if os == [] || !InLoop(n) then 0
    else
      var w := LoopStep(n, v, os[0]);
      var next := Next(n, w);
      (if n == ReactAct then 1 else 0) + (if next.Some? then ActsRun(next.value, w, os[1..]) else 0)
  }

  /** The acts still allowed at `n` in `v`: one per think, and a think below the bound after each observation. */
  function Budget(n: Node, v: StateView): nat {
    var left := v.reactMaxIterations - v.reactIteration;
    match n
    case ReactThink => if left >= 1 then left else 1
    case ReactAct => if left >= 0 then 1 + left else 1
    case ReactObserve => if left >= 0 then left else 0
    case _ => 0
  }

  /** Thinking spends no act: it leads to acting with one iteration more, or leaves the loop. */
  lemma {:induction false} ThinkWithinBudget(v: StateView, reply: Result<string, string>)
    ensures var w := ReactNodes.ThinkStep(v, reply);
      var next := Next(ReactThink, w);
      (if next.Some? then Budget(next.value, w) else 0) <= Budget(ReactThink, v)
  {
    ReactNodes.ThinkLoopFacts(v, reply);
    ThinkBudget(v, ReactNodes.ThinkStep(v, reply));
  }

  /** The budget arithmetic of thinking, for any state with the facts the thinking node guarantees. */
  lemma {:induction false} ThinkBudget(v: StateView, w: StateView)
    requires w.reactMaxIterations == v.reactMaxIterations
    requires w.nextStep == Some("error_handler")
             || (w.reactIteration == v.reactIteration + 1
                 && (w.nextStep == Some("react_act") || w.nextStep == Some("react_finalize")))
    ensures var next := Next(ReactThink, w);
      (if next.Some? then Budget(next.value, w) else 0) <= Budget(ReactThink, v)
  {
    ThinkEdges(w);
  }

  /** Acting spends one act and leads to observing with the same counters. */
  lemma {:induction false} ActWithinBudget(v: StateView, outcome: Result<Json, string>, elapsedMs: int)
    ensures var w := ReactNodes.ActStep(v, outcome, elapsedMs);
      var next := Next(ReactAct, w);
      1 + (if next.Some? then Budget(next.value, w) else 0) <= Budget(ReactAct, v)
  {
    var w := ReactNodes.ActStep(v, outcome, elapsedMs);
    ReactNodes.ActLoopFacts(v, outcome, elapsedMs);
    ActEdges(w);
  }

  /** Observing spends no act, and thinks again only while below the bound. */
  lemma {:induction false} ObserveWithinBudget(v: StateView, now: Instant)
    ensures var w := ReactNodes.ObserveStep(v, now);
      var next := Next(ReactObserve, w);
      (if next.Some? then Budget(next.value, w) else 0) <= Budget(ReactObserve, v)
  {
    ReactNodes.ObserveLoopFacts(v, now);
    ObserveBudget(v, ReactNodes.ObserveStep(v, now));
  }

  /** The budget arithmetic of observing, for any state with the facts the observing node guarantees. */
  lemma {:induction false} ObserveBudget(v: StateView, w: StateView)
    requires w.reactMaxIterations == v.reactMaxIterations && w.reactIteration == v.reactIteration
    requires w.nextStep == Some("react_think") || w.nextStep == Some("react_finalize")
    requires w.nextStep == Some("react_think") ==> v.reactIteration < v.reactMaxIterations
    ensures var next := Next(ReactObserve, w);
      (if next.Some? then Budget(next.value, w) else 0) <= Budget(ReactObserve, v)
  {
    ObserveEdges(w);
  }

  /** A single step spends at most the budget it uses: acting spends one, and the others none. */
  lemma {:induction false} StepWithinBudget(n: Node, v: StateView, o: Oracle)
    requires InLoop(n)
    ensures var w := LoopStep(n, v, o);
      var next := Next(n, w);
      (if n == ReactAct then 1 else 0) + (if next.Some? then Budget(next.value, w) else 0) <= Budget(n, v)
  {
    match n
    case ReactThink => ThinkWithinBudget(v, o.reply);
    case ReactAct => ActWithinBudget(v, o.outcome, o.elapsedMs);
    case ReactObserve => ObserveWithinBudget(v, o.now);
  }

  /** However the model and the tools answer, the loop never acts more often than its budget. */
  lemma {:induction false} ActsWithinBudget(n: Node, v: StateView, os: seq<Oracle>)
    ensures ActsRun(n, v, os) <= Budget(n, v)
    decreases |os|
  {
    if os != [] && InLoop(n) {
      var w := LoopStep(n, v, os[0]);
      var next := Next(n, w);
      StepWithinBudget(n, v, os[0]);
      if next.Some? {
        ActsWithinBudget(next.value, w, os[1..]);
      }
    }
  }

  /** A turn that enters the loop from a fresh state acts at most `react_max_iterations` (10) times. */
  lemma ReactLoopBound(userMessage: string, sessionId: Option<string>, hasMcpClient: bool, now: Instant, os: seq<Oracle>)
    ensures var v := WorkflowState.InitialView(userMessage, sessionId, hasMcpClient, now).(reactMode := true);
      v.reactMaxIterations == 10 && ActsRun(ReactThink, v, os) <= 10
  {
    var v := WorkflowState.InitialView(userMessage, sessionId, hasMcpClient, now).(reactMode := true);
    ActsWithinBudget(ReactThink, v, os);
  }

}

/*
 * `MCPWorkflowExecutor` of `workflows/graph.py`: running the compiled
 * workflow on the initial state and shaping its final state into the
 * result dict.
 */
module GraphExecutor {
  import opened Base
  import opened Json
  import opened Models
  import WorkflowState

  /** One entry of the result's `tool_calls`. */
  function CallEntry(tc: McpToolCall): Dict {
    [("server", OptJson(tc.serverName)), ("tool", OptJson(tc.toolName)), ("arguments", JObj(tc.arguments)),
     ("result", tc.result), ("success", JBool(IsSuccessful(tc))), ("execution_time_ms", OptIntJson(tc.executionTimeMs))]
  }

  /** Whether `error_message` holds a non-empty text. */
  predicate HasErrorMessage(v: StateView) {
    v.errorMessage.Some? && v.errorMessage.value != ""
  }

  /** The dict `_extract_result` returns when the final state carries an error message. */
  function ErrorResult(msg: string): Dict {
    [("success", JBool(false)), ("response", JStr("오류: " + msg)), ("intent_type", JNull),
     ("tool_calls", JArr([])), ("conversation_history", JArr([])), ("error", JStr(msg))]
  }

  /** `_extract_result`: succeeds exactly when no error message is set, and has an `error` key exactly when it fails,
      in which case it is the error dict. */
  function ExtractResult(v: StateView): (r: Dict)
    ensures Get(r, "success") == Some(JBool(!HasErrorMessage(v)))
    ensures Get(r, "error").Some? <==> HasErrorMessage(v)
    ensures HasErrorMessage(v) ==> r == ErrorResult(v.errorMessage.value)
  {
    if HasErrorMessage(v) then
      var r := ErrorResult(v.errorMessage.value);
      GetAt(r, 5);
      r
    else
      var response := if v.responseContent.Some? && v.responseContent.value != "" then v.responseContent.value else "";
      var intent := if v.parsedIntent.Some? then JStr(IntentValue(v.parsedIntent.value.intentType)) else JNull;
      var calls := seq(|v.mcpCalls|, k requires 0 <= k < |v.mcpCalls| => JObj(CallEntry(v.mcpCalls[k])));
      var history := seq(|v.messages|, k requires 0 <= k < |v.messages| => JObj(MessageToDict(v.messages[k])));
      [("success", JBool(true)), ("response", JStr(response)), ("intent_type", intent),
       ("tool_calls", JArr(calls)), ("conversation_history", JArr(history))]
  }

  /** Each key of the error dict holds its own value. */
  lemma {:induction false} ErrorResultAt(msg: string, k: nat)
    requires k < 6
    ensures Get(ErrorResult(msg), ErrorResult(msg)[k].0) == Some(ErrorResult(msg)[k].1)
  {
    GetAt(ErrorResult(msg), k);
  }

  /** With an error message the result reports it, says so in the response, and fills nothing else. */
  lemma {:induction false} ErrorResultFields(msg: string)
    ensures var r := ErrorResult(msg);
      Get(r, "error") == Some(JStr(msg)) && Get(r, "response") == Some(JStr("오류: " + msg))
      && Get(r, "intent_type") == Some(JNull)
      && Get(r, "tool_calls") == Some(JArr([])) && Get(r, "conversation_history") == Some(JArr([]))
  {
    ErrorResultAt(msg, 1);
    ErrorResultAt(msg, 2);
    ErrorResultAt(msg, 3);
    ErrorResultAt(msg, 4);
    ErrorResultAt(msg, 5);
  }

  /** Without an error, the result lists the recorded MCP calls one for one and in order. */
  lemma {:induction false} ResultListsCalls(v: StateView)
    requires !HasErrorMessage(v)
    ensures Get(ExtractResult(v), "tool_calls").Some?
    ensures var calls := Get(ExtractResult(v), "tool_calls").value;
      calls.JArr? && |calls.items| == |v.mcpCalls|
      && forall k :: 0 <= k < |v.mcpCalls| ==> calls.items[k] == JObj(CallEntry(v.mcpCalls[k]))
  {
    GetAt(ExtractResult(v), 3);
  }

  /** Without an error, the result lists the conversation history one message for one and in order. */
  lemma {:induction false} ResultListsHistory(v: StateView)
    requires !HasErrorMessage(v)
    ensures Get(ExtractResult(v), "conversation_history").Some?
    ensures var history := Get(ExtractResult(v), "conversation_history").value;
      history.JArr? && |history.items| == |v.messages|
      && forall k :: 0 <= k < |v.messages| ==> history.items[k] == JObj(MessageToDict(v.messages[k]))
  {
    GetAt(ExtractResult(v), 4);
  }

  /** The result's response comes from `response_content` alone: the `response` key the nodes
      write never reaches it. */
  lemma ResultIgnoresResponseKey(v: StateView, text: string)
    ensures ExtractResult(v.(response := text)) == ExtractResult(v)
    ensures !HasErrorMessage(v) && v.responseContent.None? ==> Get(ExtractResult(v), "response") == Some(JStr(""))
  {
    if !HasErrorMessage(v) {
      GetAt(ExtractResult(v), 1);
    }
  }

  /** The context entries `execute_message` copies into the initial state. */
  datatype ExecContext = ExecContext(availableServers: Option<seq<string>>, availableTools: Option<seq<(string, seq<string>)>>)

  /** The state `execute_message` starts the workflow from. */
  function ExecInitialView(userMessage: string, sessionId: Option<string>, hasMcpClient: bool,
                           context: ExecContext, now: Instant): StateView {
    var v := WorkflowState.InitialView(userMessage, sessionId, hasMcpClient, now);
    var v := if context.availableServers.Some? then v.(availableServers := context.availableServers.value) else v;
    if context.availableTools.Some? then v.(availableTools := context.availableTools.value) else v
  }

  const APOLOGY := "죄송합니다. 요청을 처리하는 중 오류가 발생했습니다."

  /**
   * `execute_message`, with the compiled workflow as `run`: the final state
   * it reaches from the initial state, or the text of the exception it raises.
   */
  function ExecuteMessage(userMessage: string, sessionId: Option<string>, hasMcpClient: bool, context: ExecContext,
                          now: Instant, run: StateView -> Result<StateView, string>): Dict
  {
    match run(ExecInitialView(userMessage, sessionId, hasMcpClient, context, now))
    case Err(e) => [("success", JBool(false)), ("error", JStr(e)), ("response", JStr(APOLOGY))]
    case Ok(final) => ExtractResult(final)
  }

  /** A run that raises, and one that ends with an error message, both report failure with the error. */
  lemma FailuresReported(userMessage: string, sessionId: Option<string>, hasMcpClient: bool, context: ExecContext,
                         now: Instant, run: StateView -> Result<StateView, string>)
    ensures var outcome := run(ExecInitialView(userMessage, sessionId, hasMcpClient, context, now));
      var r := ExecuteMessage(userMessage, sessionId, hasMcpClient, context, now, run);
      ((outcome.Err? || HasErrorMessage(outcome.value)) <==> Get(r, "success") == Some(JBool(false)))
      && (outcome.Err? ==> Get(r, "error") == Some(JStr(outcome.error)) && Get(r, "response") == Some(JStr(APOLOGY)))
      && (outcome.Ok? && HasErrorMessage(outcome.value) ==> Get(r, "error") == Some(JStr(outcome.value.errorMessage.value)))
  {
    var outcome := run(ExecInitialView(userMessage, sessionId, hasMcpClient, context, now));
    var r := ExecuteMessage(userMessage, sessionId, hasMcpClient, context, now, run);
    if outcome.Err? {
      GetAt(r, 1);
      GetAt(r, 2);
    } else if HasErrorMessage(outcome.value) {
      ErrorResultFields(outcome.value.errorMessage.value);
    }
  }
}
