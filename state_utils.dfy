/*
 * The small state updates every workflow node is built from
 * (`workflows/state_utils.py`).  Each one changes the keys it names and
 * leaves every other key of the state as it was.
 */
module StateUtils {
  import opened Base
  import opened Json
  import opened Models

  /** `update_workflow_step`: records the next step and counts one more step. */
  method UpdateWorkflowStep(st: ChatState, step: string)
    modifies st
    ensures st.View() == old(st.View()).(nextStep := Some(step), stepCount := old(st.keys.stepCount) + 1)
  {
    st.keys := st.keys.(nextStep := Some(step), stepCount := st.keys.stepCount + 1);
  }

  /** `set_error`: records the error and clears the success flag. */
  method SetError(st: ChatState, message: string)
    modifies st
    ensures st.View() == old(st.View()).(error := Some(message), success := false)
  {
    st.keys := st.keys.(error := Some(message), success := false);
  }

  /** `add_tool_call`: appends the call to `tool_calls`. */
  method AddToolCall(st: ChatState, tc: McpToolCall)
    modifies st
    ensures st.View() == old(st.View()).(toolCalls := old(st.keys.toolCalls) + [tc])
  {
    st.keys := st.keys.(toolCalls := st.keys.toolCalls + [tc]);
  }

  /** `add_tool_result`: appends the result to `tool_results`. */
  method AddToolResult(st: ChatState, result: Dict)
    modifies st
    ensures st.View() == old(st.View()).(toolResults := old(st.keys.toolResults) + [result])
  {
    st.keys := st.keys.(toolResults := st.keys.toolResults + [result]);
  }

  /** `set_success`: marks success, stores the response and clears the error. */
  method SetSuccess(st: ChatState, response: string)
    modifies st
    ensures st.View() == old(st.View()).(success := true, response := response, error := None)
  {
    st.keys := st.keys.(success := true, response := response, error := None);
  }

  /** `add_message`: appends a message stamped with the current time. */
  method AddMessage(st: ChatState, role: MessageRole, content: string, metadata: Option<Dict>, now: Instant)
    modifies st
    ensures st.View() == old(st.View()).(messages := old(st.keys.messages) + [ChatMessage(role, content, now, metadata)])
  {
    st.keys := st.keys.(messages := st.keys.messages + [ChatMessage(role, content, now, metadata)]);
  }

  /** `get_last_message`: the most recent message, if there is one. */
  function GetLastMessage(v: StateView): (r: Option<ChatMessage>)
    ensures r.None? <==> v.messages == []
    ensures r.Some? ==> r.value == v.messages[|v.messages| - 1]
  {
    if v.messages == [] then None else Some(v.messages[|v.messages| - 1])
  }

  /** The message `add_message` appends is the one `get_last_message` returns next. */
  lemma LastMessageAfterAdd(v: StateView, m: ChatMessage)
    ensures GetLastMessage(v.(messages := v.messages + [m])) == Some(m)
  {
  }

  /** `is_workflow_complete` here: success, an error, or a non-empty response. */
  predicate IsWorkflowComplete(v: StateView) {
    v.success || v.error.Some? || v.response != ""
  }

  /** After `set_success` or `set_error` the workflow counts as complete. */
  lemma CompleteAfterSuccessOrError(v: StateView, response: string, message: string)
    ensures IsWorkflowComplete(v.(success := true, response := response, error := None))
    ensures IsWorkflowComplete(v.(error := Some(message), success := false))
  {
  }
}
