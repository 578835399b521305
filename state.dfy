/*
 * Creating the initial workflow state and the message helpers of
 * `workflows/state.py`.
 */
module WorkflowState {
  import opened Base
  import opened Json
  import opened Models
  import StateUtils

  /** The state `create_initial_state` builds: the user's message is both the
      current message and the only message of the history. */
  function InitialView(userMessage: string, sessionId: Option<string>, hasMcpClient: bool, now: Instant): StateView {
    EmptyView().(currentMessage := Some(userMessage),
                 messages := [ChatMessage(User, userMessage, now, None)],
                 sessionId := sessionId,
                 hasMcpClient := hasMcpClient)
  }

  /** `create_initial_state`. */
  method CreateInitialState(userMessage: string, sessionId: Option<string>, hasMcpClient: bool, now: Instant)
    returns (st: ChatState)
    ensures fresh(st)
    ensures st.View() == InitialView(userMessage, sessionId, hasMcpClient, now)
  {
    st := new ChatState.FromView(InitialView(userMessage, sessionId, hasMcpClient, now));
  }

  /** A fresh state is not complete and has not taken a step. */
  lemma InitialStateNotComplete(userMessage: string, sessionId: Option<string>, hasMcpClient: bool, now: Instant)
    ensures var v := InitialView(userMessage, sessionId, hasMcpClient, now);
      !IsWorkflowComplete(v) && !StateUtils.IsWorkflowComplete(v) && v.stepCount == 0
      && v.messages[0].role == User && v.currentMessage == Some(v.messages[0].content)
  {
  }

  /** `add_assistant_message`: appends an assistant message and makes it the response. */
  method AddAssistantMessage(st: ChatState, content: string, metadata: Option<Dict>, now: Instant)
    modifies st
    ensures st.View() == old(st.View()).(messages := old(st.keys.messages) + [ChatMessage(Assistant, content, now, metadata)],
                                         response := content)
  {
    st.keys := st.keys.(messages := st.keys.messages + [ChatMessage(Assistant, content, now, metadata)], response := content);
  }

  /** The text of the tool message `add_tool_message` appends. */
  function ToolMessageContent(tc: McpToolCall): (r: string)
    ensures StartsWith(r, "도구 호출: ")
  {
    "도구 호출: " + OptStr(tc.serverName) + "." + OptStr(tc.toolName)
    + (if IsSuccessful(tc) then "\n결과: " + PyStr(tc.result) else "\n오류: " + OptStr(tc.error))
  }

  function ToolMessageMetadata(tc: McpToolCall): Dict {
    [("server_name", OptJson(tc.serverName)),
     ("tool_name", OptJson(tc.toolName)),
     ("arguments", JObj(tc.arguments)),
     ("execution_time_ms", OptIntJson(tc.executionTimeMs))]
  }

  /** `add_tool_message`: appends a tool-role message describing the call. */
  method AddToolMessage(st: ChatState, tc: McpToolCall, now: Instant)
    modifies st
    ensures st.View() == old(st.View()).(messages := old(st.keys.messages) +
      [ChatMessage(Tool, ToolMessageContent(tc), now, Some(ToolMessageMetadata(tc)))])
  {
    st.keys := st.keys.(messages := st.keys.messages + [ChatMessage(Tool, ToolMessageContent(tc), now, Some(ToolMessageMetadata(tc)))]);
  }

  /** `get_conversation_history`: the dict form of the messages, all of them when
      `limit` is `None` or 0, otherwise `messages[-limit:]`. */
  function GetConversationHistory(v: StateView, limit: Option<int>): (r: seq<Dict>)
    ensures |r| <= |v.messages|
    ensures limit.None? || limit == Some(0) ==> |r| == |v.messages|
    ensures limit.Some? && limit.value > 0 ==> |r| == Min(limit.value, |v.messages|)
    ensures forall i :: 0 <= i < |r| ==> r[i] == MessageToDict(v.messages[|v.messages| - |r| + i])
  {
    var ms := if limit.Some? && limit.value != 0 then SliceFrom(v.messages, -limit.value) else v.messages;
    seq(|ms|, i requires 0 <= i < |ms| => MessageToDict(ms[i]))
  }

  /** `is_workflow_complete` here: success or an error. */
  predicate IsWorkflowComplete(v: StateView) {
    v.success || v.error.Some?
  }

  /** The two completeness tests differ only in the response clause:
      this one implies the other, and a pending response tells them apart. */
  lemma CompletenessTestsCompared(v: StateView)
    ensures IsWorkflowComplete(v) ==> StateUtils.IsWorkflowComplete(v)
    ensures StateUtils.IsWorkflowComplete(v) && !IsWorkflowComplete(v) <==>
      !v.success && v.error.None? && v.response != ""
  {
  }
}
