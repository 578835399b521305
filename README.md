# simple_MCP_host orchestration core, modelled in Dafny

This project models the host-side orchestration logic of simple_MCP_host. The host
receives a chat message, decides what the user wants, and routes the request.
It can call a tool on an MCP server, loop through a ReAct think/act/observe cycle, or answer
directly. Answers are streamed to the browser as server-sent events. The model covers:

- the conversation session store (`SessionData`, `SessionManager`): classes over a map of
  sessions, with the truncation rule on append and the expiry sweep;
- the SSE connection registry (`SSEConnection`, `SSEManager`): classes over the two maps, with
  the connection cap, superseding of a session's old connection, per-connection queues and
  counted sends; the stream message types and their `data: …\n\n` framing (section 9.2,
  "Server-sent events", of the WHATWG HTML Living Standard);
- the workflow state (`ChatState`) as a class whose dictionary keys form one record, and the
  helpers in `state.py` and `state_utils.py` as methods that update it in place;
- the ReAct nodes: the thought parser, the action parser and tool table, the word-similarity stop
  rule, the summary answer and the word-by-word streaming of the final answer, with a proof that
  a turn acts at most `react_max_iterations` (10) times;
- the routing functions and edge table of `graph.py`, the result shaping of its executor, and
  the LLM-driven pipeline of `llm_nodes.py` and `executor.py`: the line-oriented intent reply
  parser, server inference, the fallback target rules, the complex-request rule, the token
  batching of the streaming callback and the word-buffer loop;
- the keyword pipeline of `nodes.py`: regex hit counting, classification, parameter and target
  tables, argument preparation, simulated tool results and response dispatch;
- the server configuration loader of `mcp_config.py`.

The LLM, the MCP client, the clock, uuid generation, `float()` and `json.loads` are parameters
of the operations that use them: an `Instant` (microseconds and its ISO text), a
`Result` for what a model or a tool call returned or raised, and `Readers` for the two parsing
builtins. Every operation runs atomically.

Python's `str.strip` and `str.isspace` are modelled with the full set of characters CPython
treats as whitespace. `lower()` and the `\w` class are modelled for the characters that can occur
in the compared keywords (ASCII letters, digits, `_` and the Hangul and CJK blocks).

## Model

| member | source | states |
|---|---|---|
| Base.StripEmptyIffAllSpace | mcp_host/config/mcp_config.py:32-33 | `s.strip()` is empty exactly when every character of `s` is whitespace, which is the blank-command test |
| Base.StripIsSlice | mcp_host/workflows/llm_nodes.py:140 | `strip()` removes a whitespace prefix and suffix and keeps the middle unchanged |
| Base.Strip | mcp_host/config/mcp_config.py:32 | `strip()` leaves no whitespace at either end |
| Base.SliceFromNegative | mcp_host/workflows/react_nodes.py:574-576 | `messages[-k:]` holds the last `min(k, len)` elements in order |
| Base.JoinSplitOn | mcp_host/workflows/llm_nodes.py:513-518 | joining `s.split(c)` with `c` gives back `s`, and no piece contains `c` |
| Base.SplitOn | mcp_host/workflows/llm_nodes.py:513-518 | `split(c)` gives at least one piece and no piece contains `c` |
| Base.Find | mcp_host/workflows/nodes.py:69-76 | the first occurrence of a pattern at or after `from`, none before it, and None exactly when there is none |
| Base.DigitsValueNatToString | mcp_host/workflows/nodes.py:118-121 | reading back the decimal text of `n` gives `n` |
| Base.NatToString | mcp_host/workflows/nodes.py:118-121 | `str(n)` is a non-empty string of decimal digits |
| Base.Words | mcp_host/workflows/react_nodes.py:585-586 | `split()` gives non-empty words without whitespace |
| Base.CountListedIsCard | mcp_host/streaming/sse_manager.py:170-195 | counting the listed ids that are in a set gives the size of the intersection |
| Json.GetAt | mcp_host/workflows/graph.py:268-289 | a dict lookup of the key at position `k` finds that entry's value when no earlier entry has the key |
| Json.Get | mcp_host/workflows/graph.py:268-289 | a key is found exactly when an entry has it, and what is found is that entry's value |
| Json.DictSet | mcp_host/sessions/session_manager.py:184 | `d[key] = value` makes `key` map to `value` and leaves every other key as it was |
| Json.DictUpdateGet | mcp_host/sessions/session_manager.py:177-186 | after `d.update(u)` a key maps to its value in `u` if present, else to its old value |
| Json.EscapeChar | mcp_host/streaming/message_types.py:51-53 | an escaped character is never a control character, and it is one character long exactly when no escaping is needed |
| Json.DumpsNoControl | mcp_host/streaming/message_types.py:55-66 | the JSON text of any value contains no control character, so no line break can end an SSE `data:` line early |
| Json.UnescapeEscapeString | mcp_host/streaming/message_types.py:51-53 | decoding an encoded JSON string gives back the original string |
| Json.EscapeString | mcp_host/streaming/message_types.py:51-53 | the encoded string holds no control character |
| Json.ReprChar | mcp_host/workflows/nodes.py:239 | inside a `repr` no character becomes a line break, and a character that is not a backslash, the quote or an ASCII control stays as it is |
| Json.ReprString | mcp_host/workflows/nodes.py:239 | `str()` of a container writes each string between the quote Python's `repr` picks: `"` when the string holds `'` and no `"`, else `'` |
| Json.ReprPlain | mcp_host/workflows/nodes.py:239 | a string without backslashes, quotes or control characters is written as `'` + the string + `'` |
| Json.ReprBodyOneLine | mcp_host/workflows/nodes.py:239 | the `repr` of any string holds no line break, whatever the string holds |
| Models.RoleValueRoundTrip | mcp_host/models.py:15-20 | looking up a role by its value finds that role |
| Models.RoleFromValue | mcp_host/models.py:15-20 | a role found by value has that value |
| Models.IntentFromValue | mcp_host/models.py:23-30 | `IntentType(s)` finds only declared members, and each one it finds has value `s` |
| Models.IntentValueRoundTrip | mcp_host/models.py:23-30 | looking up an intent by its value finds it exactly when it is declared; WEATHER_QUERY and FILE_OPERATION are not found |
| Models.MessageDictRoundTrip | mcp_host/models.py:44-51 | `to_dict` keeps role, content, timestamp and metadata recoverable; absent metadata is rendered as `{}` |
| Models.IsMcpAction | mcp_host/models.py:66-68 | `is_mcp_action`: defined as the intent type being TOOL_CALL; `Graph.ShouldCallMcpTool` and `LlmNodes.IntentRoutes` state where it sends the workflow |
| Models.IsSuccessful | mcp_host/models.py:86-88 | `is_successful`: defined as no error and a result that is not None; `ReactTools.SucceededAndFailed` and `ReactTools.FormatToolResultTells` state its consequences |
| Models.ChatState.FromView | mcp_host/models.py:91-135 | the state holds exactly the given keys |
| StateUtils.UpdateWorkflowStep | mcp_host/workflows/state_utils.py:12-22 | sets `next_step` and adds exactly one to `step_count`, changing nothing else |
| StateUtils.SetError | mcp_host/workflows/state_utils.py:25-33 | sets the error and success false, changing nothing else |
| StateUtils.AddToolCall | mcp_host/workflows/state_utils.py:36-45 | appends exactly one call at the end of `tool_calls`, changing nothing else |
| StateUtils.AddToolResult | mcp_host/workflows/state_utils.py:48-57 | appends exactly one result at the end of `tool_results`, changing nothing else |
| StateUtils.SetSuccess | mcp_host/workflows/state_utils.py:60-69 | sets success true, the response and error None, changing nothing else |
| StateUtils.AddMessage | mcp_host/workflows/state_utils.py:72-90 | appends exactly one message with the given role, content, time and metadata, changing nothing else |
| StateUtils.GetLastMessage | mcp_host/workflows/state_utils.py:93-103 | the last message, and None exactly when there are no messages |
| StateUtils.LastMessageAfterAdd | mcp_host/workflows/state_utils.py:81-103 | after appending `m`, the last message is `m` |
| StateUtils.CompleteAfterSuccessOrError | mcp_host/workflows/state_utils.py:106-118 | after `set_success` or `set_error` the workflow counts as complete |
| WorkflowState.CreateInitialState | mcp_host/workflows/state.py:19-58 | a fresh state holding the initial view: one USER message with the input text |
| WorkflowState.InitialStateNotComplete | mcp_host/workflows/state.py:36-56 | the initial state holds exactly one USER message equal to the current message, no tool calls, success false, step count 0, and is not complete |
| WorkflowState.AddAssistantMessage | mcp_host/workflows/state.py:61-77 | appends exactly one ASSISTANT message at the end and sets `response` to its content |
| WorkflowState.ToolMessageContent | mcp_host/workflows/state.py:87-105 | the tool message text starts with "도구 호출: " |
| WorkflowState.AddToolMessage | mcp_host/workflows/state.py:80-105 | appends one TOOL message naming server and tool, with the result if the call succeeded and the error otherwise |
| WorkflowState.GetConversationHistory | mcp_host/workflows/state.py:108-122 | the last `limit` messages in order when the limit is truthy, all of them otherwise |
| WorkflowState.CompletenessTestsCompared | mcp_host/workflows/state.py:125-133 | this completeness test implies the one in `state_utils.py`; they differ exactly on a state with a response but no success and no error |
| Sessions.CountUsers | mcp_host/sessions/session_manager.py:41 | the number of USER messages never exceeds the number of messages |
| Sessions.AfterAddKeeps | mcp_host/sessions/session_manager.py:33-45 | the new message is last; past 50 messages with more than one USER message the list becomes the first message plus the last 10 (11 in all), and otherwise it is the old list plus the new message |
| Sessions.AfterAddWithinBound | mcp_host/sessions/session_manager.py:39-45 | if a history has at most 50 messages or at most one USER message, it still does after an append |
| Sessions.AssistantOnlyHistoryGrows | mcp_host/sessions/session_manager.py:41-42 | with no USER message a history of 50 grows to 51: the truncation does not fire |
| Sessions.ConversationContext | mcp_host/sessions/session_manager.py:47-57 | the last `limit` messages in original order, all of them for limit 0 |
| Sessions.ContextEntryRole | mcp_host/sessions/session_manager.py:52-56 | each context entry carries the role's lowercase value |
| Sessions.SessionData.constructor | mcp_host/sessions/session_manager.py:24-31 | a new session has no messages and no context, and was created and accessed now |
| Sessions.SessionData.AddMessage | mcp_host/sessions/session_manager.py:33-45 | the messages become the truncated append, `last_accessed` becomes now, the context is untouched |
| Sessions.SessionManager.constructor | mcp_host/sessions/session_manager.py:71-81 | no sessions, with the given timeout and cleanup interval |
| Sessions.SessionManager.CreateOrGetSession | mcp_host/sessions/session_manager.py:100-117 | an absent id gets a fresh empty session; a present one keeps its messages and context; either way it was accessed now |
| Sessions.SessionManager.AddUserMessage | mcp_host/sessions/session_manager.py:119-137 | the session's history becomes the truncated append of one USER message; other sessions are unchanged |
| Sessions.SessionManager.AddAssistantMessage | mcp_host/sessions/session_manager.py:139-159 | the session's history becomes the truncated append of one ASSISTANT message; other sessions are unchanged |
| Sessions.SessionManager.GetConversationHistory | mcp_host/sessions/session_manager.py:161-175 | `[]` for an unknown id, the session's conversation context otherwise |
| Sessions.SessionManager.UpdateSessionContext | mcp_host/sessions/session_manager.py:177-186 | the session's context becomes the old one updated with the new keys; messages and other sessions are unchanged |
| Sessions.SessionManager.GetSessionContext | mcp_host/sessions/session_manager.py:188-199 | `{}` for an unknown id, the session's context otherwise |
| Sessions.SessionManager.GetSessionStats | mcp_host/sessions/session_manager.py:201-220 | None exactly for an unknown id; otherwise the stats report the message count |
| Sessions.SessionManager.DeleteSession | mcp_host/sessions/session_manager.py:222-235 | reports whether the id was present and removes it, and nothing else |
| Sessions.SessionManager.CleanupExpiredSessions | mcp_host/sessions/session_manager.py:252-268 | removes exactly the sessions idle for strictly more than the timeout and keeps the others unchanged |
| Sessions.SessionData.IsExpired | mcp_host/sessions/session_manager.py:59-61 | `is_expired`: defined as more than the timeout since the last access, compared strictly; `Sessions.SessionManager.CleanupExpiredSessions` states which sessions it removes |
| StreamMessages.TypeFromValue | mcp_host/streaming/message_types.py:14-24 | a type found by value has that value |
| StreamMessages.TypeValueRoundTrip | mcp_host/streaming/message_types.py:14-24 | every type is found by its value, so the nine values are pairwise distinct |
| StreamMessages.NewMessage | mcp_host/streaming/message_types.py:28-43 | keeps a given timestamp, fills it with now only when absent, and keeps the other fields |
| StreamMessages.SseFrameRoundTrip | mcp_host/streaming/message_types.py:45-66 | the SSE form is `data: ` plus the JSON object plus a blank line, and the payload is read back from the frame |
| StreamMessages.CreateSessionStartMessage | mcp_host/streaming/message_types.py:69-77 | a session_start message for the session, with its fixed content and metadata shape |
| StreamMessages.CreateThinkingMessage | mcp_host/streaming/message_types.py:79-87 | a thinking message with the content and `{"iteration": n}` |
| StreamMessages.CreateActingMessage | mcp_host/streaming/message_types.py:89-97 | an acting message with the content and `{"action_details": d or {}}` |
| StreamMessages.CreateObservingMessage | mcp_host/streaming/message_types.py:99-107 | an observing message with the content and `{"observation_data": o or {}}` |
| StreamMessages.CreateToolCallMessage | mcp_host/streaming/message_types.py:109-122 | content `"{server}.{tool} 호출 중"` and server/tool/status/arguments metadata, arguments defaulting to `{}` |
| StreamMessages.CreateFinalResponseMessage | mcp_host/streaming/message_types.py:124-132 | a final_response message with the content and `{"final": True}` |
| StreamMessages.CreatePartialResponseMessage | mcp_host/streaming/message_types.py:134-142 | a partial_response message with the content and `{"partial": True}` |
| StreamMessages.CreateErrorMessage | mcp_host/streaming/message_types.py:144-152 | an error message whose content starts with "오류가 발생했습니다: " |
| StreamMessages.ErrorMessageCarriesError | mcp_host/streaming/message_types.py:144-152 | the content after the prefix is the raw error, which is also `metadata["error"]` |
| StreamMessages.CreateSessionEndMessage | mcp_host/streaming/message_types.py:154-160 | a session_end message for the session, with its fixed content and metadata shape |
| Sse.Opened | mcp_host/streaming/sse_manager.py:22-27 | a new connection is active with an empty queue |
| Sse.Send | mcp_host/streaming/sse_manager.py:29-40 | an active connection enqueues at the tail and reports true; an inactive one reports false and keeps its queue |
| Sse.Closed | mcp_host/streaming/sse_manager.py:60-63 | closing clears `is_active` and changes nothing else |
| Sse.ClosedTakesNothing | mcp_host/streaming/sse_manager.py:29-63 | a closed connection accepts no message, however many are sent |
| Sse.ActiveQueuesAll | mcp_host/streaming/sse_manager.py:29-36 | an active connection queues every message sent, in order |
| Sse.SseConnection.constructor | mcp_host/streaming/sse_manager.py:22-27 | the connection starts in the opened state |
| Sse.SseConnection.SendMessage | mcp_host/streaming/sse_manager.py:29-40 | the connection and the answer are those of `Send` |
| Sse.SseConnection.Close | mcp_host/streaming/sse_manager.py:60-63 | the connection becomes the closed one |
| Sse.Retired | mcp_host/streaming/sse_manager.py:146-150 | a dropped connection is closed, and a session_end message is queued first if it was active |
| Sse.RetiredAll | mcp_host/streaming/sse_manager.py:100-106 | the retired connections are exactly the listed ones that exist |
| Sse.RetiredAllStep | mcp_host/streaming/sse_manager.py:100-106 | retiring one more connection adds its retired form and keeps the others |
| Sse.OneConnectionPerSession | mcp_host/streaming/sse_manager.py:97-159 | under the registry invariant two connections of the same session are the same connection |
| Sse.SessionHasOne | mcp_host/streaming/sse_manager.py:121-128 | under the registry invariant a session's id set is the single connection it holds |
| Sse.UntrackedSessionHasNone | mcp_host/streaming/sse_manager.py:121-128 | a session without an entry has no connection |
| Sse.SameIdsKeepTracked | mcp_host/streaming/sse_manager.py:184-195 | changing queues and flags but not ids keeps the registry invariant |
| Sse.DropWithinCap | mcp_host/streaming/sse_manager.py:89-106 | removing the superseded connections after the cap check keeps the count within the cap |
| Sse.RemoveKeepsTracked | mcp_host/streaming/sse_manager.py:141-159 | removing a connection and its session entry keeps the registry invariant |
| Sse.DropSessionKeepsTracked | mcp_host/streaming/sse_manager.py:97-128 | dropping a session's connections keeps the invariant and leaves no connection of that session |
| Sse.AddKeepsTracked | mcp_host/streaming/sse_manager.py:121-128 | registering a new connection for a session without one keeps the invariant |
| Sse.SessionCountAtMostOne | mcp_host/streaming/sse_manager.py:170-182 | a session has at most one active connection |
| Sse.ListIds | mcp_host/streaming/sse_manager.py:176-188 | the ids of a set listed once each |
| Sse.SseManager.constructor | mcp_host/streaming/sse_manager.py:71-76 | no connections and no sessions, with the given cap |
| Sse.SseManager.DropIds | mcp_host/streaming/sse_manager.py:100-106 | the given connections are removed and returned retired |
| Sse.SseManager.Supersede | mcp_host/streaming/sse_manager.py:97-110 | every previous connection of the session is retired and removed, and the invariant holds without that session |
| Sse.SseManager.Register | mcp_host/streaming/sse_manager.py:112-128 | the new connection holds exactly one session_start message and is the session's only connection |
| Sse.SseManager.CreateConnection | mcp_host/streaming/sse_manager.py:78-136 | at the cap it fails with "최대 연결 수 초과 (50)"-style text and changes nothing; otherwise the session's old connections are retired and the new one is its only connection; the cap always holds |
| Sse.SseManager.RemoveStored | mcp_host/streaming/sse_manager.py:141-159 | a registered connection is retired and removed from both maps |
| Sse.SseManager.RemoveConnection | mcp_host/streaming/sse_manager.py:138-161 | an unknown id changes nothing; a known one is retired and removed from both maps, with its session entry |
| Sse.SseManager.SendToConnection | mcp_host/streaming/sse_manager.py:163-168 | true exactly when the connection exists and is active; only its queue changes |
| Sse.SseManager.SendEach | mcp_host/streaming/sse_manager.py:170-195 | the count is the number of listed connections that were active, and each one's queue is as after `Send` |
| Sse.SseManager.SendToSession | mcp_host/streaming/sse_manager.py:170-182 | counts the session's active connections, so 0 for an unknown session and never more than 1 |
| Sse.SseManager.BroadcastMessage | mcp_host/streaming/sse_manager.py:184-195 | counts all active connections, and every connection is as after `Send` |
| Sse.SseManager.CleanupInactiveConnections | mcp_host/streaming/sse_manager.py:197-210 | removes exactly the inactive connections and those older than an hour, retired |
| ReactParse.SkipSpace | mcp_host/workflows/react_nodes.py:442-478 | the end of the whitespace run at `i` (`\s*` in the patterns) |
| ReactParse.LineEnd | mcp_host/workflows/react_nodes.py:452-456 | the end of the line at `i` (`.` without `re.DOTALL`) |
| ReactParse.HeaderAt | mcp_host/workflows/react_nodes.py:442-478 | a matched keyword header ends at a ':' |
| ReactParse.LineGroup | mcp_host/workflows/react_nodes.py:452-456 | a `(.+)` group without `re.DOTALL` captures only text after the header |
| ReactParse.DotAllGroup | mcp_host/workflows/react_nodes.py:442-450 | a `(.+)` group under `re.DOTALL` captures only text after the header |
| ReactParse.LazyGroup | mcp_host/workflows/react_nodes.py:468-472 | the lazy `(.+?)` group captures only text after the header |
| ReactParse.Search | mcp_host/workflows/react_nodes.py:442-478 | a match position lies within the text |
| ReactParse.LineGroupToEnd | mcp_host/workflows/react_nodes.py:452-456 | a group on the last line captures the rest of the text, stripped |
| ReactParse.FirstStop | mcp_host/workflows/react_nodes.py:468-472 | the first place the lazy thought group may stop: a following marker or the end |
| ReactParse.FirstSome | mcp_host/workflows/react_nodes.py:442-478 | the first position where a pattern matches, and none before it |
| ReactParse.TableAt | mcp_host/workflows/react_nodes.py:442-478 | the table of match attempts holds the attempt at each position |
| ReactParse.SearchLeftmost | mcp_host/workflows/react_nodes.py:442-478 | `re.search` finds the leftmost position where a pattern matches, and none before it |
| ReactParse.CaptureIffMatch | mcp_host/workflows/react_nodes.py:442-478 | a pattern captures exactly when it matches at some position |
| ReactParse.CaptureAtStart | mcp_host/workflows/react_nodes.py:442-478 | a pattern that matches at the start captures there |
| ReactParse.MatchNeedsKeyword | mcp_host/workflows/react_nodes.py:442-478 | a match starts with the pattern's keyword, case-insensitively |
| ReactParse.NoKeywordNoCapture | mcp_host/workflows/react_nodes.py:442-478 | a text without the keyword gives no capture |
| ReactParse.ParseThoughtKeys | mcp_host/workflows/react_nodes.py:437-480 | a final answer is found exactly when a final-answer pattern matches, and then nothing else is reported; otherwise action and thought are set exactly when their patterns match |
| ReactParse.ActionLineParsed | mcp_host/workflows/react_nodes.py:452-456 | a reply `행동: x` without other markers parses to action `x` only |
| ReactParse.ActionCaptured | mcp_host/workflows/react_nodes.py:452-456 | the `행동:` pattern captures the rest of the line |
| ReactParse.FinalAnswerLineParsed | mcp_host/workflows/react_nodes.py:442-450 | a reply `최종 답변: x` parses to final answer `x` stripped, whatever `x` contains |
| ReactParse.WordEnd | mcp_host/workflows/react_nodes.py:491-497 | the end of the `\w+` run at `i` |
| ReactParse.DigitEnd | mcp_host/workflows/nodes.py:118-121 | the end of the `\d+` run at `i` |
| ReactParse.ColonCall | mcp_host/workflows/react_nodes.py:491-493 | the `tool: argument` form yields a tool name made of word characters |
| ReactParse.LastClose | mcp_host/workflows/react_nodes.py:494-496 | the last ')' before `hi`, as the greedy `(.+)\)` group needs |
| ReactParse.ParenCall | mcp_host/workflows/react_nodes.py:494-496 | the `tool(argument)` form yields a tool name made of word characters |
| ReactParse.ParseAction | mcp_host/workflows/react_nodes.py:488-501 | the first of the three action patterns that matches gives the tool and argument |
| ReactParse.ToolLineParsed | mcp_host/workflows/react_nodes.py:491-493 | `tool: argument` on one line parses to that tool and argument |
| ReactParse.ColonCallFirst | mcp_host/workflows/react_nodes.py:488-501 | the colon form takes precedence over the other two |
| ReactParse.LineGroupOfLine | mcp_host/workflows/react_nodes.py:452-456 | a one-line group captures the line after one space |
| ReactParse.ListItemParsed | mcp_host/workflows/react_nodes.py:497-499 | `- tool: argument` parses to that tool and argument |
| ReactTools.ToolRequest | mcp_host/workflows/react_nodes.py:511-540 | the server is weather, file-manager or default, with one string argument first |
| ReactTools.ToolTable | mcp_host/workflows/react_nodes.py:511-540 | get_weather/get_forecast go to weather (the forecast with days 3), list_files to file-manager with the directory or ".", read_file/file_info with the filename, anything else to default with the query |
| ReactTools.CallMcpTool | mcp_host/workflows/react_nodes.py:504-562 | the call records the mapped server, tool, arguments and elapsed time |
| ReactTools.CallOutcome | mcp_host/workflows/react_nodes.py:542-558 | a missing client or a raised call is stored as the error instead of raised; a result is stored with no error |
| ReactTools.FormatToolResult | mcp_host/workflows/react_nodes.py:563-570 | the observation starts with the tool's name |
| ReactTools.FormatToolResultTells | mcp_host/workflows/react_nodes.py:563-570 | the observation reports success exactly when the call succeeded, followed by the result or the error |
| ReactTools.Observations | mcp_host/workflows/react_nodes.py:577-579 | the messages tagged `react_step = observe`, in order |
| ReactTools.ShouldContinueReact | mcp_host/workflows/react_nodes.py:571-593 | the only failure is the division by zero of two empty observations |
| ReactTools.SimilarityInIntegers | mcp_host/workflows/react_nodes.py:585-589 | the ratio test `shared / larger > 0.8` is the integer test `5·shared > 4·larger` |
| ReactTools.ObservationsNeverDivideByZero | mcp_host/workflows/react_nodes.py:583-589 | when every observation starts with a non-space character the rule never divides by zero |
| ReactTools.LeadingWord | mcp_host/workflows/react_nodes.py:585-586 | a text starting with a non-space character has at least one word |
| ReactTools.StopRule | mcp_host/workflows/react_nodes.py:571-593 | the loop stops exactly when the last 4 messages hold at least 2 observations whose last two share more than 80% of the larger word set |
| ReactTools.Succeeded | mcp_host/workflows/react_nodes.py:650-652 | the successful calls, drawn from the calls |
| ReactTools.Failed | mcp_host/workflows/react_nodes.py:650-652 | the failed calls, drawn from the calls |
| ReactTools.SucceededAndFailed | mcp_host/workflows/react_nodes.py:650-652 | every call is in exactly one of the two lists |
| ReactTools.WeatherCalls | mcp_host/workflows/react_nodes.py:678-681 | the calls to the weather tools |
| ReactTools.SuccessLines | mcp_host/workflows/react_nodes.py:660-668 | two lines per successful call: a heading and a result line |
| ReactTools.SuccessSection | mcp_host/workflows/react_nodes.py:657-668 | two lines for each successful call |
| ReactTools.FailureLine | mcp_host/workflows/react_nodes.py:670-675 | a numbered failure line |
| ReactTools.FailureSection | mcp_host/workflows/react_nodes.py:670-675 | one numbered line per failed call, in order |
| ReactTools.ComparisonSection | mcp_host/workflows/react_nodes.py:677-690 | three lines exactly when more than one weather call succeeded and the message mentions "비교", none otherwise |
| ReactTools.FailuresReported | mcp_host/workflows/react_nodes.py:670-675 | each failed call yields its line `"i. tool 실행 실패: error"` in the summary |
| ReactTools.ComparisonOnlyWhenAsked | mcp_host/workflows/react_nodes.py:677-690 | the comparison heading appears exactly when the comparison condition holds |
| ReactTools.SuccessSectionNotComparison | mcp_host/workflows/react_nodes.py:657-668 | the success section never contains the comparison heading |
| ReactTools.FailureSectionNotComparison | mcp_host/workflows/react_nodes.py:670-675 | the failure section never contains the comparison heading |
| ReactTools.SummaryWithoutCalls | mcp_host/workflows/react_nodes.py:640-648 | with no tool calls the summary is the fixed "요청을 분석했지만…" text |
| ReactNodes.ThinkMessages | mcp_host/workflows/react_nodes.py:85-97 | the thinking message published for a parsed thought when there is a session |
| ReactNodes.ReactThink | mcp_host/workflows/react_nodes.py:46-127 | the state becomes the think step of the reply, and the published messages are those of the thought |
| ReactNodes.ThinkStep | mcp_host/workflows/react_nodes.py:46-125 | the think node as a specification; `ReactNodes.ThoughtRoutes`, `ReactNodes.ThinkRoutes` and `ReactNodes.ThinkLoopFacts` state its routing and counters |
| ReactNodes.ThoughtRoutes | mcp_host/workflows/react_nodes.py:99-116 | one more iteration; a final answer gives react_finalize and stops, an action alone gives react_act, neither gives react_finalize |
| ReactNodes.ThinkRoutes | mcp_host/workflows/react_nodes.py:99-123 | as above for a reply; an LLM exception gives error_handler with `react_should_continue` false and the iteration unchanged |
| ReactNodes.ThinkLoopFacts | mcp_host/workflows/react_nodes.py:99-123 | the bound is kept, a reply counts one iteration, an error leads to error_handler |
| ReactNodes.ThinkActionReply | mcp_host/workflows/react_nodes.py:99-116 | a reply `행동: x` leads to the action step with action `x` |
| ReactNodes.ThoughtWithAction | mcp_host/workflows/react_nodes.py:109-113 | a parsed action without a final answer leads to react_act with that action |
| ReactNodes.ThinkFinalReply | mcp_host/workflows/react_nodes.py:99-116 | a reply `최종 답변: x` finishes with answer `x`, whatever `x` says |
| ReactNodes.FinalReplyParsed | mcp_host/workflows/react_nodes.py:442-450 | a stripped `최종 답변: x` reply parses to final answer `x` |
| ReactNodes.ThoughtWithFinalAnswer | mcp_host/workflows/react_nodes.py:103-108 | a parsed final answer leads to react_finalize with that answer |
| ReactNodes.ExecuteAction | mcp_host/workflows/react_nodes.py:481-503 | the call made for an action naming a tool, and the observation text |
| ReactNodes.ReactAct | mcp_host/workflows/react_nodes.py:128-177 | the state becomes the act step, and the acting message is published when there is a session |
| ReactNodes.ActStep | mcp_host/workflows/react_nodes.py:128-175 | the act node as a specification; `ReactNodes.ActRoutes`, `ReactNodes.ActRecordsParsedAction`, `ReactNodes.ActLoopFacts` and `ReactNodes.ActCallsNamedTool` state what it records and where it goes |
| ReactNodes.ActRoutes | mcp_host/workflows/react_nodes.py:154-173 | acting leads to react_observe, keeps the messages and both iteration counters, and the earlier tool calls stay as a prefix |
| ReactNodes.ActRecordsParsedAction | mcp_host/workflows/react_nodes.py:154-173 | exactly one call, for the tool the action names, is appended when the action parses, none otherwise, with observation "행동 완료: <action>" |
| ReactNodes.ActLoopFacts | mcp_host/workflows/react_nodes.py:154-173 | acting always leads to react_observe, with the counters unchanged |
| ReactNodes.ActCallsNamedTool | mcp_host/workflows/react_nodes.py:154-173 | an action `tool: argument` appends one call to that tool |
| ReactNodes.ObserveMessages | mcp_host/workflows/react_nodes.py:224-232 | the observing message published when there is a session |
| ReactNodes.ReactObserve | mcp_host/workflows/react_nodes.py:178-241 | the state becomes the observe step, and the observing message is published |
| ReactNodes.ObserveStep | mcp_host/workflows/react_nodes.py:178-239 | the observe node as a specification; `ReactNodes.ObserveRoutes` and `ReactNodes.ObserveLoopFacts` state the observation it adds and when it stops |
| ReactNodes.ObserveRoutes | mcp_host/workflows/react_nodes.py:192-222 | exactly one ASSISTANT observation message is appended; at the bound it finalizes; a finalize without error has a final answer |
| ReactNodes.ObserveLoopFacts | mcp_host/workflows/react_nodes.py:206-222 | observing thinks again only below the bound |
| ReactNodes.ObservationMessageHasWord | mcp_host/workflows/react_nodes.py:192-200 | an observation message starts with a non-space character |
| ReactNodes.SendDue | mcp_host/workflows/react_nodes.py:283-291 | a word is sent exactly on a separator token, a 15-character buffer or every 20th token, and never for a blank buffer |
| ReactNodes.StreamWords | mcp_host/workflows/react_nodes.py:275-327 | the answer is the concatenated tokens, the sent chunks plus the buffer make up the answer, and no sent chunk is blank |
| ReactNodes.ChunkMessage | mcp_host/workflows/react_nodes.py:293-300 | a partial_response message carrying the chunk |
| ReactNodes.ChunkMessages | mcp_host/workflows/react_nodes.py:293-326 | one partial message per chunk, in order |
| ReactNodes.PartialTextOfChunks | mcp_host/workflows/react_nodes.py:293-326 | the partial messages' text concatenated is the chunks concatenated |
| ReactNodes.FinalizeAnswer | mcp_host/workflows/react_nodes.py:258-345 | with a session and no stream error, the partials make up the answer up to a blank tail and one final_response carries the whole answer last; without a session nothing is published |
| ReactNodes.ReactFinalize | mcp_host/workflows/react_nodes.py:242-371 | the answer is recorded as final answer and response, success is set, and it is appended once as an assistant message |
| ReactNodes.FinalizeStep | mcp_host/workflows/react_nodes.py:242-356 | the finalize node's normal path as a specification; `ReactNodes.ReactFinalize` and `ReactNodes.FallbackRecordsSummary` state what it records |
| ReactNodes.FallbackAsWrittenRaises | mcp_host/workflows/react_nodes.py:259-371 | as written, when the model call raises before the local import at line 352 has run, the handler's call of `add_assistant_message` raises UnboundLocalError: the summary becomes the response but never reaches the history; had the import run, the handler would append it |
| ReactNodes.FallbackRecordsSummary | mcp_host/workflows/react_nodes.py:363-371 | corrected, the summary becomes the response and the last message |
| Graph.ShouldCallMcpTool | mcp_host/workflows/graph.py:20-38 | react_think exactly in ReAct mode, else call_mcp_tool exactly for a TOOL_CALL intent, else generate_response |
| Graph.ShouldContinueReact | mcp_host/workflows/graph.py:41-63 | the four ReAct steps map to themselves, error_handler to generate_response, anything else to END |
| Graph.ShouldContinue | mcp_host/workflows/graph.py:66-81 | END exactly when an error message is set or `should_continue` is false, else generate_response |
| Graph.Next | mcp_host/workflows/graph.py:128-163 | the next node is always one of the node's declared targets |
| Graph.EdgeFrom | mcp_host/workflows/graph.py:117-163 | the edge table of `create_workflow`; `Graph.FixedEdges`, `Graph.ParseMessageRoutes`, `Graph.ThinkEdges`, `Graph.ActEdges`, `Graph.ObserveEdges` and `Graph.LoopNeverStuck` state it edge by edge |
| Graph.ObserveSuccessors | mcp_host/workflows/graph.py:153-161 | from react_observe only react_think, react_finalize or END are reachable |
| Graph.ActSuccessors | mcp_host/workflows/graph.py:143-151 | from react_act only react_observe, react_finalize or END are reachable |
| Graph.FixedEdges | mcp_host/workflows/graph.py:128-163 | react_finalize and generate_response go to END, call_mcp_tool to generate_response |
| Graph.ParseMessageRoutes | mcp_host/workflows/graph.py:117-125 | after parse_message the graph takes the edge `should_call_mcp_tool` names |
| Graph.ThinkEdges | mcp_host/workflows/graph.py:132-141 | think's next steps lead to act, finalize, or generate_response on error |
| Graph.ActEdges | mcp_host/workflows/graph.py:143-151 | act's react_observe leads to the observe node |
| Graph.ObserveEdges | mcp_host/workflows/graph.py:153-161 | observe's react_think and react_finalize lead to those nodes |
| Graph.LoopNeverStuck | mcp_host/workflows/graph.py:132-161 | every step inside the loop has an edge to follow |
| Graph.StepWithinBudget | mcp_host/workflows/react_nodes.py:99-222 | one loop step spends at most its budget: acting spends one, thinking and observing none |
| Graph.ThinkWithinBudget | mcp_host/workflows/react_nodes.py:99-123 | thinking never raises the loop's remaining budget |
| Graph.ActWithinBudget | mcp_host/workflows/react_nodes.py:128-177 | acting spends one unit of the remaining budget |
| Graph.ObserveWithinBudget | mcp_host/workflows/react_nodes.py:206-222 | observing never raises the remaining budget, because it thinks again only below the bound |
| Graph.ActsWithinBudget | mcp_host/workflows/react_nodes.py:99-222 | however the model and tools answer, the loop acts no more often than its budget |
| Graph.ReactLoopBound | mcp_host/workflows/react_nodes.py:99-222 | a turn entering the loop from a fresh state acts at most `react_max_iterations` = 10 times |
| GraphExecutor.ExtractResult | mcp_host/workflows/graph.py:241-297 | success is false and an error key exists exactly when an error message is set, and then the result is the error dict |
| GraphExecutor.ErrorResultFields | mcp_host/workflows/graph.py:260-265 | the error dict reports the message and "오류: " + message, and fills nothing else |
| GraphExecutor.ErrorResultAt | mcp_host/workflows/graph.py:260-265 | each key of the error dict finds its own value |
| GraphExecutor.ResultListsCalls | mcp_host/workflows/graph.py:268-289 | the result lists the recorded MCP calls one for one and in order |
| GraphExecutor.ResultListsHistory | mcp_host/workflows/graph.py:268-289 | the result lists the history one message for one and in order |
| GraphExecutor.ResultIgnoresResponseKey | mcp_host/workflows/graph.py:268-289 | the response comes only from `response_content`; the `response` key never reaches the result |
| GraphExecutor.FailuresReported | mcp_host/workflows/graph.py:187-240 | a raised run reports the exception text and the apology; an error message in the final state is reported |
| GraphExecutor.ExecuteMessage | mcp_host/workflows/graph.py:187-240 | `execute_message` with the run as a parameter; `GraphExecutor.FailuresReported` and `GraphExecutor.ExtractResult` state its results |
| LlmNodes.ReadLine | mcp_host/workflows/llm_nodes.py:442-473 | a line without a key leaves the fields unchanged |
| LlmNodes.NullWordIsLowerNull | mcp_host/workflows/llm_nodes.py:463-464 | the "null" test of TARGET_TOOL is `lower() == "null"` |
| LlmNodes.LastLineWins | mcp_host/workflows/llm_nodes.py:442-473 | each of the four fields holds the value of the last line with its key, read as that key is read, and keeps its start value when there is no such line |
| LlmNodes.KeysExclusive | mcp_host/workflows/llm_nodes.py:451-461 | a line starts with at most one of the four keys, so the order of the `elif` chain decides nothing |
| LlmNodes.FieldsFromLastLines | mcp_host/workflows/llm_nodes.py:442-473 | the last CONFIDENCE line gives `float(value)` or 0.5 when that raises; the last TARGET_TOOL line gives its value, or no tool when it is "null" in any case; the last PARAMETERS line gives `json.loads(value)` or `{}` when that raises; absent lines leave 0.5, no tool and `{}` |
| LlmNodes.ReplyFieldsAreLastLines | mcp_host/workflows/llm_nodes.py:431-502 | unless the fallback raised, the parsed intent carries the confidence and the parameters of the last such lines, with 0.5 and `{}` for an unreadable or missing one |
| LlmNodes.ReplyToolIsLastLine | mcp_host/workflows/llm_nodes.py:431-502 | the last TARGET_TOOL line names the tool unless it reads "null" in any case; outside TOOL_CALL a missing or "null" tool leaves the intent without one |
| LlmNodes.KeylessRepliesKeepFields | mcp_host/workflows/llm_nodes.py:442-473 | lines without a key change nothing |
| LlmNodes.InferServerFromTool | mcp_host/workflows/llm_nodes.py:504-522 | a server exactly when the name has '-' or '_', and then the prefix before the first '-' if any, else before the first '_' |
| LlmNodes.FirstPiece | mcp_host/workflows/llm_nodes.py:513-518 | `split(c)[0]` is the prefix before the first `c` |
| LlmNodes.DottedAt | mcp_host/workflows/llm_nodes.py:538-542 | a `word.word` match at `i` |
| LlmNodes.FirstDotted | mcp_host/workflows/llm_nodes.py:538-542 | the first `word.word` match, none before it |
| LlmNodes.MentionEnd | mcp_host/workflows/llm_nodes.py:545-549 | the end of a word followed by "서버" or "server" |
| LlmNodes.MentionAt | mcp_host/workflows/llm_nodes.py:545-549 | a `word 서버\|server` match at `i` |
| LlmNodes.FirstMention | mcp_host/workflows/llm_nodes.py:545-549 | the first such match, none before it |
| LlmNodes.FallbackRules | mcp_host/workflows/llm_nodes.py:524-558 | the rules in order: a set first parameter gives (None, None); else the first `word.word`; else the first server mention with no tool; else (None, None); non-dict parameters raise |
| LlmNodes.TargetFallback | mcp_host/workflows/llm_nodes.py:524-558 | `_determine_target_from_intent_fallback`; `LlmNodes.FallbackRules` states its rules in order |
| LlmNodes.FromFields | mcp_host/workflows/llm_nodes.py:474-502 | an unknown intent becomes GENERAL_CHAT; with a tool the server is inferred from it; a TOOL_CALL without a tool uses the fallback; the intent carries the confidence and parameters read unless the fallback raised, and then it is the handler's GENERAL_CHAT 0.3 intent |
| LlmNodes.ParseLlmIntentResponse | mcp_host/workflows/llm_nodes.py:431-502 | the parsed intent is the one specified by the lines read |
| LlmNodes.ParseIntentReply | mcp_host/workflows/llm_nodes.py:431-502 | `_parse_llm_intent_response` as a specification; `LlmNodes.ReplyIntentIsLastLine`, `LlmNodes.ReplyFieldsAreLastLines`, `LlmNodes.ReplyToolIsLastLine` and `LlmNodes.KeylessReplyGivesDefaults` state what it parses |
| LlmNodes.ReadReply | mcp_host/workflows/llm_nodes.py:442-473 | the loop over the reply's lines reads the same fields as the specification |
| LlmNodes.KeylessReplyGivesDefaults | mcp_host/workflows/llm_nodes.py:436-441 | a reply without key lines gives GENERAL_CHAT, 0.5, `{}` and no target |
| LlmNodes.ReplyIntentIsLastLine | mcp_host/workflows/llm_nodes.py:442-480 | the intent type is that of the last INTENT line when declared, GENERAL_CHAT otherwise |
| LlmNodes.NoBackslashNoGroup | mcp_host/workflows/llm_nodes.py:146 | the word-group pattern, whose `\\s` matches a literal backslash, never matches a text without one |
| LlmNodes.UnitEnd | mcp_host/workflows/llm_nodes.py:146 | a unit of the word-group pattern starts at a backslash |
| LlmNodes.ComplexWithoutBackslash | mcp_host/workflows/llm_nodes.py:140-159 | for a text without a backslash, complex means at least 3 commas, or a keyword with at least one comma |
| LlmNodes.IsComplex | mcp_host/workflows/llm_nodes.py:140-159 | the complex-request test; `LlmNodes.ComplexWithoutBackslash` and `LlmNodes.NoBackslashNoGroup` state when it holds |
| LlmNodes.RecordIntent | mcp_host/workflows/llm_nodes.py:136-196 | the state becomes the routed one |
| LlmNodes.LlmParseIntent | mcp_host/workflows/llm_nodes.py:30-196 | the state becomes the parse-intent step of the reply |
| LlmNodes.IntentRoutes | mcp_host/workflows/llm_nodes.py:163-196 | an exception gives llm_generate_response; a complex request outside ReAct mode gives switch_to_react; otherwise llm_call_mcp_tool exactly for TOOL_CALL |
| LlmNodes.IntentRecorded | mcp_host/workflows/llm_nodes.py:137-195 | one step counted, and the parsed intent, or the GENERAL_CHAT 0.5 fallback, recorded |
| LlmNodes.IntentRoutingKeepsState | mcp_host/workflows/llm_nodes.py:163-175 | ReAct mode is set only by a complex request, and messages, calls, response and error are kept |
| LlmNodes.RouteIntent | mcp_host/workflows/llm_nodes.py:163-196 | the routing block of `llm_parse_intent`; `LlmNodes.IntentRoutes`, `LlmNodes.IntentRecorded` and `LlmNodes.IntentRoutingKeepsState` state where it goes and what it keeps |
| LlmNodes.ParseIntentStep | mcp_host/workflows/llm_nodes.py:30-196 | `llm_parse_intent` as a specification: the reply parsed and routed, or the fallback intent when the node raised |
| LlmNodes.LlmCallToolStep | mcp_host/workflows/llm_nodes.py:199-246 | `llm_call_mcp_tool` as a specification: the keyword node's `call_mcp_tool` followed by the step to llm_generate_response, or the recorded ValueError without an intent |
| LlmNodes.LlmCallMcpTool | mcp_host/workflows/llm_nodes.py:199-246 | the state becomes `LlmCallToolStep` of the old state |
| LlmNodes.LlmCallRoutes | mcp_host/workflows/llm_nodes.py:199-246 | without an intent only the error "도구 호출 실패: 파싱된 의도가 없습니다" is recorded and the route, step count and tool calls stay; with one the next step is llm_generate_response and the messages are unchanged |
| LlmNodes.LlmCallBadArguments | mcp_host/workflows/llm_nodes.py:199-246 | arguments that cannot be prepared become the error "도구 호출 실패: …", success is false, nothing is recorded, and the node still counts its own step before moving on |
| LlmNodes.LlmCallRecordedOnce | mcp_host/workflows/llm_nodes.py:199-246 | a recorded call is appended once to `mcp_calls` and `tool_calls`, is the current call, and two steps are counted |
| LlmNodes.BatchSize | mcp_host/workflows/llm_nodes.py:576 | the batch size stays in [2, 5]: 3 below 20 tokens, 5 from 40 |
| LlmNodes.BatchSizeGrows | mcp_host/workflows/llm_nodes.py:576 | the batch size never shrinks as tokens arrive |
| LlmNodes.StreamingCallback.constructor | mcp_host/workflows/llm_nodes.py:563-567 | empty content and no tokens |
| LlmNodes.StreamingCallback.OnLlmNewToken | mcp_host/workflows/llm_nodes.py:569-580 | a blank token is ignored; another is appended and counted, and the content is sent when the count is a multiple of the batch size |
| LlmNodes.StreamingCallback.OnLlmEnd | mcp_host/workflows/llm_nodes.py:582-585 | the remaining content is sent when there is any |
| LlmNodes.WordSendDue | mcp_host/workflows/llm_nodes.py:722-733 | a word is sent exactly on a separator, an adaptive buffer length or an adaptive batch count, and never for a blank buffer |
| LlmNodes.IsBlank | mcp_host/workflows/llm_nodes.py:762 | `not s.strip()` holds exactly when `s` is all whitespace |
| LlmNodes.StreamWordBuffer | mcp_host/workflows/llm_nodes.py:708-767 | the sent chunks plus the buffer always equal the full response; only a blank remainder stays unsent; no sent chunk is blank |
| LlmNodes.WordMessage | mcp_host/workflows/llm_nodes.py:736-765 | a partial_response message carrying the word for the session |
| KeywordNodes.AltAt | mcp_host/workflows/nodes.py:69-76 | the first alternative of a pattern that occurs at `i`, none before it |
| KeywordNodes.NoOccurrenceNoHits | mcp_host/workflows/nodes.py:69-76 | a pattern none of whose alternatives occurs has no hits |
| KeywordNodes.HitAt | mcp_host/workflows/nodes.py:69-76 | an occurrence gives at least one hit |
| KeywordNodes.PatternsWellFormed | mcp_host/workflows/nodes.py:28-53 | one pattern list per keyword intent, with no empty alternative |
| KeywordNodes.Scores | mcp_host/workflows/nodes.py:69-76 | one score per intent, the total hits of its patterns |
| KeywordNodes.CountScores | mcp_host/workflows/nodes.py:69-76 | the loops compute those scores |
| KeywordNodes.BestIndex | mcp_host/workflows/nodes.py:78-79 | a maximal score, the first one on ties |
| KeywordNodes.ClassifyRules | mcp_host/workflows/nodes.py:78-100 | no hits exactly gives GENERAL_CHAT 0.8; otherwise the first best intent with confidence `min(0.3·score, 1.0)`; never TOOL_CALL; confidence in (0, 1] |
| KeywordNodes.FirstListed | mcp_host/workflows/nodes.py:108-112 | the first listed name that occurs, none before it |
| KeywordNodes.FindCity | mcp_host/workflows/nodes.py:108-112 | the loop finds the first city of the fixed list that occurs |
| KeywordNodes.WeatherParameters | mcp_host/workflows/nodes.py:106-121 | `forecast` is set exactly by 예보/forecast, `location` exactly when a city occurs |
| KeywordNodes.ExtractParameters | mcp_host/workflows/nodes.py:102-132 | the parameters built by the loops are those specified |
| KeywordNodes.LocationIsFirstCity | mcp_host/workflows/nodes.py:108-112 | the location is present exactly when a city occurs, and is the first city in list order that occurs |
| KeywordNodes.DetermineTarget | mcp_host/workflows/nodes.py:134-151 | weather gives get_forecast exactly when forecast is set, else get_weather; file gives its tool, list_files by default; others (None, None) |
| KeywordNodes.ParseIntent | mcp_host/workflows/nodes.py:55-100 | the keyword parse is the one specified |
| KeywordNodes.KeywordIntentNeverCallsTools | mcp_host/workflows/nodes.py:33-100 | the keyword parser never yields TOOL_CALL, and its only undeclared intents are WEATHER_QUERY and FILE_OPERATION |
| KeywordNodes.ToolArguments | mcp_host/workflows/nodes.py:275-290 | weather gets `location` (default 서울) and, exactly for get_forecast, `days` (default 3); list_files gets `directory` (default "."); read_file and file_info get `filename` (default "README.md"); other tools and intents get no arguments; non-dict parameters raise exactly where `.get` is called |
| KeywordNodes.SimulateToolCall | mcp_host/workflows/nodes.py:293-314 | a non-empty text, the fixed simulation text for any unknown (server, tool) pair |
| KeywordNodes.ParseMessage | mcp_host/workflows/nodes.py:158-193 | the state becomes the parse-message step |
| KeywordNodes.KeywordPathSkipsTools | mcp_host/workflows/nodes.py:170-186 | the keyword intent is recorded and the next step is always generate_response |
| KeywordNodes.ToolCallRecord | mcp_host/workflows/nodes.py:225-264 | the client's result when it answers, else the simulated result with 100 ms; never an error |
| KeywordNodes.CallMcpTool | mcp_host/workflows/nodes.py:196-272 | the state becomes the call-tool step |
| KeywordNodes.CallRecordedOnce | mcp_host/workflows/nodes.py:225-264 | the call is appended once to `mcp_calls` and once to `tool_calls`, is the current call, succeeds, and next_step is generate_response |
| KeywordNodes.CallKeepsMessages | mcp_host/workflows/nodes.py:225-272 | calling a tool, successfully or not, leaves the conversation's messages unchanged |
| KeywordNodes.CallFailureRecorded | mcp_host/workflows/nodes.py:266-272 | without an intent, or when the arguments raise, the error is recorded and no call is appended |
| KeywordNodes.GeneralResponse | mcp_host/workflows/nodes.py:363-369 | the reply quotes the message, or is the greeting when there is none |
| KeywordNodes.ToolListResponse | mcp_host/workflows/nodes.py:396-408 | the loops build the specified tool list text |
| KeywordNodes.ToolResponse | mcp_host/workflows/nodes.py:410-425 | the response ends with the call's result |
| KeywordNodes.ComposeResponse | mcp_host/workflows/nodes.py:334-352 | the dispatch computes the specified response text |
| KeywordNodes.GenerateResponse | mcp_host/workflows/nodes.py:317-360 | the state becomes the generate step |
| KeywordNodes.ResponseNonEmpty | mcp_host/workflows/nodes.py:334-352 | with an intent the response is non-empty |
| KeywordNodes.ResponseCompletes | mcp_host/workflows/nodes.py:346-352 | with an intent the step succeeds, sets completed and counts one step |
| KeywordNodes.GreetingAnswered | mcp_host/workflows/nodes.py:336-369 | a general chat containing "안녕" is answered with a text containing "안녕" |
| KeywordNodes.ResponseWithoutIntent | mcp_host/workflows/nodes.py:322-360 | without an intent the step records the error and does not succeed |
| WorkflowExecutor.DecideNextStep | mcp_host/workflows/executor.py:26-44 | the recorded next step if truthy, else completed exactly on success or a response, else llm_generate_response |
| WorkflowExecutor.Successor | mcp_host/workflows/executor.py:157-175 | every edge leads closer to the end |
| WorkflowExecutor.Walk | mcp_host/workflows/executor.py:145-175 | a run of the compiled graph from a node; `WorkflowExecutor.WalkEndsCompleted`, `WorkflowExecutor.ComplexRequestStopsRun` and `WorkflowExecutor.ResponseNodeEdges` state how it ends |
| WorkflowExecutor.WalkEndsCompleted | mcp_host/workflows/executor.py:157-175 | a run ends normally only with `_decide_next_step` answering completed |
| WorkflowExecutor.IntentStepTargets | mcp_host/workflows/executor.py:157-164 | llm_call_mcp_tool and llm_generate_response have edges; switch_to_react has none |
| WorkflowExecutor.IntentNodeEdges | mcp_host/workflows/executor.py:157-164 | after the intent node there is no edge exactly for a parsed complex request outside ReAct mode |
| WorkflowExecutor.ComplexRequestStopsRun | mcp_host/workflows/llm_nodes.py:163-169 | such a request stops every run at the intent node with "switch_to_react" |
| WorkflowExecutor.ResponseNodeEdges | mcp_host/workflows/executor.py:166-175 | after the response node completed ends the run and generate_response has no edge |
| WorkflowExecutor.ExecInitialView | mcp_host/workflows/executor.py:80-94 | the message, session and client, with empty lists, response "", success false, no error, step 0 and no next step |
| WorkflowExecutor.ResultErrorIffFailure | mcp_host/workflows/executor.py:100-121 | the result has an error key exactly when it reports failure, and echoes the session |
| WorkflowExecutor.ResultOf | mcp_host/workflows/executor.py:100-121 | the result dict of a finished run; `WorkflowExecutor.ResultErrorIffFailure` and `WorkflowExecutor.ResultListsToolCalls` state its contents |
| WorkflowExecutor.ResultListsToolCalls | mcp_host/workflows/executor.py:107-116 | the result lists the state's tool calls one for one and in order |
| WorkflowExecutor.FailureReported | mcp_host/workflows/executor.py:126-133 | a raised run reports failure with the exception text, in the response too, and the session |
| WorkflowExecutor.ExecuteErrorIffFailure | mcp_host/workflows/executor.py:58-133 | every result has an error key exactly when it reports failure, and echoes the session |
| WorkflowExecutor.ExecuteMessage | mcp_host/workflows/executor.py:58-133 | `execute_message` with the three nodes as a parameter; `WorkflowExecutor.ExecuteErrorIffFailure` and `WorkflowExecutor.FailureReported` state its results |
| McpConfig.NewServerConfig | mcp_host/config/mcp_config.py:15-35 | valid exactly when the command is a non-blank string and args a list; each failure raises its ValueError message |
| McpConfig.CreateServerConfig | mcp_host/config/mcp_config.py:132-149 | missing fields default to '' / [] / {} / None / None, so a missing command fails; a non-dict entry raises |
| McpConfig.ServerMap | mcp_host/config/mcp_config.py:114-118 | the "servers" object when the document is a dict that has one, else the document; only a TypeError from `in` or indexing is raised here |
| McpConfig.ServerItems | mcp_host/config/mcp_config.py:122 | `.items()` succeeds exactly on a dict and gives its entries; anything else raises AttributeError |
| Base.Lookup | mcp_host/config/mcp_config.py:151-153 | `d.get(key)`: a key is found exactly when an entry has it, and what is found is that entry's value; used for the server dict and for the workflow graphs' path maps |
| McpConfig.PutShape | mcp_host/config/mcp_config.py:125 | `d[name] = c` keeps the keys' order, updates an existing key in place, and appends a new one |
| McpConfig.PutLookup | mcp_host/config/mcp_config.py:125 | after `d[name] = c`, name maps to `c` and every other name as before |
| McpConfig.Put | mcp_host/config/mcp_config.py:125 | `d[name] = c` keeps the size or adds one entry |
| McpConfig.PutWellFormed | mcp_host/config/mcp_config.py:120-127 | storing a config under its own name keeps the names distinct and equal to their keys |
| McpConfig.Created | mcp_host/config/mcp_config.py:120-127 | one creation attempt per entry, in order |
| McpConfig.FailureSticks | mcp_host/config/mcp_config.py:120-127 | once an entry fails, the later entries do not change the outcome |
| McpConfig.FillStep | mcp_host/config/mcp_config.py:120-127 | a valid entry is stored under its key |
| McpConfig.FillStopsAt | mcp_host/config/mcp_config.py:120-127 | the first invalid entry stops the load with its error |
| McpConfig.CreatedNamedAsKeys | mcp_host/config/mcp_config.py:142-149 | each created config is named by its key |
| McpConfig.FillWellFormed | mcp_host/config/mcp_config.py:120-127 | the loaded servers have distinct names equal to their keys |
| McpConfig.FillFailsIffInvalid | mcp_host/config/mcp_config.py:120-130 | the load fails exactly when some entry is invalid |
| McpConfig.FillNames | mcp_host/config/mcp_config.py:120-127 | on success the loaded names are exactly the entries' keys |
| McpConfig.FillValues | mcp_host/config/mcp_config.py:120-127 | whatever a load stores under a name is the configuration created from an entry with that name |
| McpConfig.FillKeepsOrder | mcp_host/config/mcp_config.py:120-127 | on success with distinct keys the servers keep the document's order |
| McpConfig.LoadedServersMatchDocument | mcp_host/config/mcp_config.py:114-127 | on success each name is found exactly when the document has it, with the config created from its entry |
| McpConfig.LoadFailsIffInvalidEntry | mcp_host/config/mcp_config.py:120-130 | the load fails exactly when some entry of the document is invalid |
| McpConfig.LoadKeepsOrder | mcp_host/config/mcp_config.py:120-127 | on success the servers come in the document's order |
| McpConfig.ConfigManager.constructor | mcp_host/config/mcp_config.py:86-96 | no servers |
| McpConfig.ConfigManager.LoadServers | mcp_host/config/mcp_config.py:98-130 | a missing file or malformed JSON becomes ValueError "설정 파일 읽기 실패: …", other reader errors propagate, and a document whose server map cannot be looked up raises, all keeping the servers; otherwise the servers are cleared, stay empty when the server map is not a dict, and are refilled entry by entry up to the first invalid entry |
| McpConfig.ConfigManager.GetServer | mcp_host/config/mcp_config.py:151-153 | None for an unknown name, and a found config carries that name |
| McpConfig.ConfigManager.GetAllServers | mcp_host/config/mcp_config.py:155-157 | a copy that finds the same config for every name |
| McpConfig.ConfigManager.GetServerNames | mcp_host/config/mcp_config.py:159-161 | the names of the servers, each found, without repetition |

## Left out

- Concurrency: the `asyncio.Lock` of the SSE manager, the session cleanup task with `start`/`stop`, the `get_messages` generator with its timeouts and heartbeats, and the thread of `_send_partial_update_sync`. Each operation is modelled as atomic.
- The LLM, the MCP client, `datetime.now`, `time.time`, the event-loop clock and `uuid` are parameters. Streaming read delays (`asyncio.sleep`) are left out.
- `float()` and `json.loads` are the `Readers` parameter, because their parsers are library code. `json.dumps` is modelled for the values the host sends.
- Confidence values are exact reals, so float rounding is not modelled. The similarity ratio is compared by cross-multiplication.
- Prompt texts, emoji and log messages are not modelled. This includes `_build_think_prompt`, `_build_final_answer_prompt`, the system prompts, the emoji-stripping `re.sub` before the LLM call and `_get_server_icon`.
- `llm_generate_response` is not modelled, apart from the word-buffer loop of its streaming variant. It builds a free-text prompt from the tool calls and the history and returns the LLM's free-text answer, which the model does not cover.
- `llm_call_mcp_tool` imports `call_mcp_tool` from `nodes.py` inside its `try` (mcp_host/workflows/llm_nodes.py:229). That module builds a `MessageParser` when imported, which needs the two undeclared intent types. As written the import therefore raises, and the handler records "도구 호출 실패: " and the exception text. `LlmNodes.LlmCallToolStep` models the node as its code reads once `nodes.py` imports.
- The services, the CLI, the visualisation, the adapters, `llm_utils.py` and `env_config.py` are not modelled.
- The state dictionary is one record whose absent keys take the source's defaults. A missing key and a key set to its default cannot be told apart.
- `increment_step_count` is imported at mcp_host/workflows/llm_nodes.py:21 but is not defined in `state_utils.py`. That import raises `ImportError`, so `llm_nodes` cannot be imported, and neither can the modules that import it: `react_nodes.py`, `executor.py`, `graph.py` and the `workflows` package. The model describes each node as its code reads once importable. No member models the state update of the streaming response node.
- `nodes.py` uses `IntentType.WEATHER_QUERY` and `FILE_OPERATION`, which mcp_host/models.py:23-30 does not declare. Importing the keyword nodes would fail. The model's intent type includes the two values for the keyword path, and `Models.IntentFromValue` never finds them.
- `llm_parse_intent` can set next step "switch_to_react" (mcp_host/workflows/llm_nodes.py:168). `llm_generate_response` can fall back to "generate_response" (mcp_host/workflows/llm_nodes.py:427). The executor's edge map (mcp_host/workflows/executor.py:157-175) has a target for neither, so the run stops with an error. `WorkflowExecutor.ComplexRequestStopsRun` and `WorkflowExecutor.ResponseNodeEdges` state this as it is written.
- The executor's "응답을 생성할 수 없습니다." default for a missing `response` is not modelled. The initial state always sets that key.
- `TypeError` texts whose wording depends on the CPython version are modelled by their exception kind.
- `ConfigReader` is a parameter of `LoadServers`: the file read gives either a document or the exception it raised, with its kind.
- Python's `repr` of strings is modelled for ASCII: backslash, the chosen quote, `\n`, `\r`, `\t` and the other ASCII controls are escaped. Other non-printable Unicode characters, which `repr` writes as `\x`, `\u` or `\U` escapes, are kept as they are. Floats are not part of the value type, so their `repr` is not modelled.
- `Sse.SseManager` keeps its connections by value in a map. `create_connection`, `remove_connection`, `send_to_connection`, `send_to_session`, `broadcast_message` and `cleanup_inactive_connections` share one connection object between the two dictionaries and the caller, and that sharing is not captured: a connection the caller holds is not updated when the manager changes it.
- The executor's error for a next step without an edge comes from `langgraph`, which is not part of this model. The model reports the step's key in place of that text.
- `react_finalize_node`: failures of the SSE sends inside it are not modelled.
- `\w`, `\d`, `re.IGNORECASE` and `lower()` are modelled for ASCII and the Hangul and CJK blocks. These are the characters the compared keywords contain.
- `Sessions.SessionManager.GetSessionStats`: only the message count of the stats is stated. The timestamps are ISO texts taken from the clock parameter.

## Findings

| source | as written | input that shows it | evidently intended | confidence | as-written member | corrected member |
|---|---|---|---|---|---|---|
| mcp_host/workflows/react_nodes.py:352-371 | `react_finalize_node` imports `add_assistant_message` inside the function, at line 352. This makes the name local to the whole function. The exception handler calls it at line 369. When the exception came from the LLM call, before line 352 ran, the handler raises `UnboundLocalError` instead of recording the summary. | any turn whose final LLM call raises, e.g. an unreachable model | the handler records the summary answer as the response and appends it once to the history | not executed | ReactNodes.FallbackAsWrittenRaises | ReactNodes.FallbackRecordsSummary |
