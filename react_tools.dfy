/*
 * The pure helpers of the ReAct nodes (`workflows/react_nodes.py`): the
 * tool table of `_call_mcp_tool`, the observation text of
 * `_format_tool_result`, the similarity stop rule of
 * `_should_continue_react` and the fallback answer of
 * `_generate_summary_answer`.
 */
module ReactTools {
  import opened Base
  import opened Json
  import opened Models

  /** The server and the arguments `_call_mcp_tool` sends for a tool, from the stripped argument text. */
  function ToolRequest(tool: string, argument: string): (r: (string, Dict))
    ensures r.0 == "weather" || r.0 == "file-manager" || r.0 == "default"
    ensures |r.1| >= 1 && r.1[0].1.JStr?
  {
    var a := Strip(argument);
    if tool == "get_weather" then ("weather", [("location", JStr(a))])
    else if tool == "get_forecast" then ("weather", [("location", JStr(a)), ("days", JInt(3))])
    else if tool == "list_files" then ("file-manager", [("directory", JStr(if a != "" then a else "."))])
    else if tool == "read_file" || tool == "file_info" then ("file-manager", [("filename", JStr(a))])
    else ("default", [("query", JStr(a))])
  }

  /** The table of `_call_mcp_tool`, one tool at a time. */
  lemma ToolTable(tool: string, argument: string)
    ensures var (server, args) := ToolRequest(tool, argument);
      var a := Strip(argument);
      (tool == "get_weather" ==> server == "weather" && args == [("location", JStr(a))])
      && (tool == "get_forecast" ==> server == "weather" && args == [("location", JStr(a)), ("days", JInt(3))])
      && (tool == "list_files" ==> server == "file-manager" && args == [("directory", JStr(if a == "" then "." else a))])
      && ((tool == "read_file" || tool == "file_info") ==> server == "file-manager" && args == [("filename", JStr(a))])
      && ((tool != "get_weather" && tool != "get_forecast" && tool != "list_files" && tool != "read_file"
           && tool != "file_info") ==> server == "default" && args == [("query", JStr(a))])
  {
  }

  const NO_CLIENT := "MCP 클라이언트가 없습니다"

  /**
   * `_call_mcp_tool`: the call record for `tool`.  `outcome` is what the
   * client's `call_tool` returns or the text of what it raises, and
   * `elapsedMs` the measured duration.  Nothing escapes: a missing client
   * and a failing call both end up in `error`.
   */
  function CallMcpTool(hasClient: bool, tool: string, argument: string,
                       outcome: Result<Json, string>, elapsedMs: int): (tc: McpToolCall)
    ensures tc.serverName == Some(ToolRequest(tool, argument).0) && tc.toolName == Some(tool)
    ensures tc.arguments == ToolRequest(tool, argument).1 && tc.executionTimeMs == Some(elapsedMs)
  {
    var (server, args) := ToolRequest(tool, argument);
    var base := McpToolCall(Some(server), Some(tool), args, JNull, None, None);
    if !hasClient then base.(error := Some(NO_CLIENT), executionTimeMs := Some(elapsedMs))
    else match outcome
      case Ok(result) => base.(result := result, executionTimeMs := Some(elapsedMs))
      case Err(e) => base.(error := Some(e), executionTimeMs := Some(elapsedMs))
  }

  /** A call succeeds exactly when a client is present and returns something other than `None`;
      every failure is recorded with its reason. */
  lemma CallOutcome(hasClient: bool, tool: string, argument: string, outcome: Result<Json, string>, elapsedMs: int)
    ensures var tc := CallMcpTool(hasClient, tool, argument, outcome, elapsedMs);
      (IsSuccessful(tc) <==> hasClient && outcome.Ok? && outcome.value != JNull)
      && (!hasClient ==> tc.error == Some(NO_CLIENT))
      && (hasClient && outcome.Err? ==> tc.error == Some(outcome.error))
      && (hasClient && outcome.Ok? ==> tc.error.None? && tc.result == outcome.value)
  {
  }

  const SUCCEEDED := "' 실행 성공: "
  const FAILED := "' 실행 실패: "

  /** `_format_tool_result`: the observation text for a call. */
  function FormatToolResult(tc: McpToolCall): (r: string)
    ensures StartsWith(r, "도구 '" + OptStr(tc.toolName))
  {
    if IsSuccessful(tc) then "도구 '" + OptStr(tc.toolName) + SUCCEEDED + PyStr(tc.result)
    else "도구 '" + OptStr(tc.toolName) + FAILED + OptStr(tc.error)
  }

  /** Whether an observation about `tool` reports success, read from its text. */
  predicate ReportsSuccess(observation: string, tool: string) {
    var n := |"도구 '" + tool|;
    |observation| >= n + |SUCCEEDED| && observation[n..n + |SUCCEEDED|] == SUCCEEDED
  }

  /** The observation tells a successful call from a failed one. */
  lemma {:induction false} FormatToolResultTells(tc: McpToolCall)
    ensures ReportsSuccess(FormatToolResult(tc), OptStr(tc.toolName)) <==> IsSuccessful(tc)
    ensures IsSuccessful(tc) ==> FormatToolResult(tc)[|"도구 '" + OptStr(tc.toolName) + SUCCEEDED|..] == PyStr(tc.result)
    ensures !IsSuccessful(tc) ==> FormatToolResult(tc)[|"도구 '" + OptStr(tc.toolName) + FAILED|..] == OptStr(tc.error)
  {
    var head := "도구 '" + OptStr(tc.toolName);
    var r := FormatToolResult(tc);
    var n := |head|;
    if IsSuccessful(tc) {
      assert r == head + SUCCEEDED + PyStr(tc.result);
      assert r[n..n + |SUCCEEDED|] == SUCCEEDED;
    } else {
      assert r == head + FAILED + OptStr(tc.error);
      assert r[n + 6] == FAILED[6] != SUCCEEDED[6];
    }
  }

  /** The observation messages `react_observe_node` tags with `react_step = observe`. */
  predicate IsObservation(m: ChatMessage) {
    m.metadata.Some? && Get(m.metadata.value, "react_step") == Some(JStr("observe"))
  }

  /** The observations among `ms`, in order. */
  function Observations(ms: seq<ChatMessage>): (r: seq<ChatMessage>)
    ensures |r| <= |ms|
    ensures forall k :: 0 <= k < |r| ==> IsObservation(r[k]) && r[k] in ms
  {
    if ms == [] then []
    else (if IsObservation(ms[0]) then [ms[0]] else []) + Observations(ms[1..])
  }

  /** The number of words shared by two texts, counted as distinct words. */
  function SharedWords(a: string, b: string): nat {
    |Elems(Words(a)) * Elems(Words(b))|
  }

  /**
   * `_should_continue_react`: among the observations in the last four
   * messages, the last two stop the loop when more than 80% of the larger
   * word count is shared, the ratio compared in integers.  Two non-empty
   * observations without a single word between them divide by zero, which
   * Python raises as `ZeroDivisionError`.
   */
  function ShouldContinueReact(messages: seq<ChatMessage>): (r: Result<bool, string>)
    ensures r.Err? ==> r.error == "division by zero"
  {
    var recent := RecentObservations(messages);
    if |recent| >= 2 then PairVerdict(recent[|recent| - 1].content, recent[|recent| - 2].content)
    else Ok(true)
  }

  /** The observations among the last four messages, in order. */
  function RecentObservations(messages: seq<ChatMessage>): seq<ChatMessage> {
    Observations(SliceFrom(messages, -4))
  }

  /** The rule's verdict on the last observation and the one before it. */
  function PairVerdict(last: string, prev: string): (r: Result<bool, string>)
    ensures r.Err? ==> r.error == "division by zero"
  {
    if |last| > 0 && |prev| > 0 then
      var m := Max(|Words(last)|, |Words(prev)|);
      if m == 0 then Err("division by zero")
      else if 5 * SharedWords(last, prev) > 4 * m then Ok(false)
      else Ok(true)
    else Ok(true)
  }

  /** The source's ratio `shared / larger > 0.8`, over the rationals, is the integer test used. */
  lemma SimilarityInIntegers(shared: nat, larger: nat)
    requires larger > 0
    ensures (shared as real) / (larger as real) > 0.8 <==> 5 * shared > 4 * larger
  {
    var x := shared as real;
    var l := larger as real;
    var q := x / l;
    assert q * l == x;
    if q > 0.8 {
      ScaleStrict(0.8, q, l);
      assert 0.8 * l < x;
      assert (4 * larger) as real < (5 * shared) as real;
    } else {
      ScaleWeak(q, 0.8, l);
      assert x <= 0.8 * l;
      assert (5 * shared) as real <= (4 * larger) as real;
    }
  }

  lemma ScaleStrict(a: real, b: real, c: real)
    requires a < b && c > 0.0
    ensures a * c < b * c
  {
  }

  lemma ScaleWeak(a: real, b: real, c: real)
    requires a <= b && c > 0.0
    ensures a * c <= b * c
  {
  }

  /** A text that starts with a non-space character has a word. */
  lemma {:induction false} LeadingWord(s: string)
    requires s != [] && !IsSpace(s[0])
    ensures |Words(s)| >= 1
  {
  }

  /** When every observation in view has a word, the stop rule never divides by zero. */
  lemma {:induction false} ObservationsNeverDivideByZero(messages: seq<ChatMessage>)
    requires forall k :: 0 <= k < |messages| && IsObservation(messages[k]) ==>
      messages[k].content != [] && !IsSpace(messages[k].content[0])
    ensures ShouldContinueReact(messages).Ok?
  {
    var recent := Observations(SliceFrom(messages, -4));
    if |recent| >= 2 {
      var last := recent[|recent| - 1];
      assert last in SliceFrom(messages, -4);
      assert last in messages;
      LeadingWord(last.content);
    }
  }

  /** The last two observations share more than 80% of the larger word count; an empty text never qualifies. */
  predicate TooSimilar(last: string, prev: string) {
    |last| > 0 && |prev| > 0 && Max(|Words(last)|, |Words(prev)|) > 0
    && 5 * SharedWords(last, prev) > 4 * Max(|Words(last)|, |Words(prev)|)
  }

  /** The stop rule answers "stop" exactly when the last two observations share enough words. */
  lemma StopRule(messages: seq<ChatMessage>)
    ensures ShouldContinueReact(messages) == Ok(false) <==>
      |RecentObservations(messages)| >= 2
      && TooSimilar(RecentObservations(messages)[|RecentObservations(messages)| - 1].content,
                    RecentObservations(messages)[|RecentObservations(messages)| - 2].content)
  {
    var recent := RecentObservations(messages);
    if |recent| >= 2 {
      PairVerdictStops(recent[|recent| - 1].content, recent[|recent| - 2].content);
    }
  }

  lemma PairVerdictStops(last: string, prev: string)
    ensures PairVerdict(last, prev) == Ok(false) <==> TooSimilar(last, prev)
  {
  }

  /** The calls that succeeded, in order. */
  function Succeeded(calls: seq<McpToolCall>): (r: seq<McpToolCall>)
    ensures |r| <= |calls| && forall k :: 0 <= k < |r| ==> IsSuccessful(r[k]) && r[k] in calls
  {
    if calls == [] then []
    else (if IsSuccessful(calls[0]) then [calls[0]] else []) + Succeeded(calls[1..])
  }

  /** The calls that failed, in order. */
  function Failed(calls: seq<McpToolCall>): (r: seq<McpToolCall>)
    ensures |r| <= |calls| && forall k :: 0 <= k < |r| ==> !IsSuccessful(r[k]) && r[k] in calls
  {
    if calls == [] then []
    else (if IsSuccessful(calls[0]) then [] else [calls[0]]) + Failed(calls[1..])
  }

  /** Every call is either a success or a failure. */
  lemma {:induction false} SucceededAndFailed(calls: seq<McpToolCall>)
    ensures |Succeeded(calls)| + |Failed(calls)| == |calls|
    ensures forall tc :: tc in calls ==> (tc in Succeeded(calls) <==> IsSuccessful(tc))
  {
    if calls != [] {
      SucceededAndFailed(calls[1..]);
      assert forall tc :: tc in calls ==> tc == calls[0] || tc in calls[1..];
    }
  }

  /** A call of one of the two weather tools. */
  predicate IsWeatherCall(tc: McpToolCall) {
    tc.toolName == Some("get_weather") || tc.toolName == Some("get_forecast")
  }

  /** The successful weather calls, in order. */
  function WeatherCalls(calls: seq<McpToolCall>): (r: seq<McpToolCall>)
    ensures |r| <= |calls|
    ensures forall k :: 0 <= k < |r| ==> IsWeatherCall(r[k])
  {
    if calls == [] then []
    else (if IsWeatherCall(calls[0]) then [calls[0]] else [])
         + WeatherCalls(calls[1..])
  }

  const UNKNOWN_LOCATION := "알 수 없는 위치"

  /** `tc.arguments.get("location", "알 수 없는 위치")`, as an f-string prints it. */
  function LocationOf(tc: McpToolCall): string {
    PyStr(GetOr(tc.arguments, "location", JStr(UNKNOWN_LOCATION)))
  }

  /** The two lines one successful call adds under "수집된 정보". */
  function SuccessLines(tc: McpToolCall, i: nat): (r: seq<string>)
    ensures |r| == 2 && StartsWith(r[0], "\n**") && StartsWith(r[1], "- ")
  {
    var n := NatToString(i);
    var title :=
      if tc.toolName == Some("get_weather") then n + ". " + LocationOf(tc) + " 날씨:"
      else if tc.toolName == Some("get_forecast") then
        n + ". " + LocationOf(tc) + " " + PyStr(GetOr(tc.arguments, "days", JInt(3))) + "일 예보:"
      else n + ". " + OptStr(tc.toolName) + ":";
    ["\n**" + title + "**", "- " + PyStr(tc.result)]
  }

  /** The collected-information lines for `calls`, numbered from `i`. */
  function SuccessSection(calls: seq<McpToolCall>, i: nat): (r: seq<string>)
    ensures |r| == 2 * |calls|
    ensures forall k :: 0 <= k < |r| ==> StartsWith(r[k], "\n**") || StartsWith(r[k], "- ")
  {
    if calls == [] then [] else SuccessLines(calls[0], i) + SuccessSection(calls[1..], i + 1)
  }

  /** The line a failed call adds under "처리 중 발생한 문제". */
  function FailureLine(tc: McpToolCall, i: nat): (r: string)
    ensures r != [] && IsAsciiDigit(r[0])
  {
    NatToString(i) + ". " + OptStr(tc.toolName) + " 실행 실패: " + OptStr(tc.error)
  }

  /** The failure lines for `calls`, numbered from `i`. */
  function FailureSection(calls: seq<McpToolCall>, i: nat): (r: seq<string>)
    ensures |r| == |calls|
    ensures forall k :: 0 <= k < |r| ==> r[k] == FailureLine(calls[k], i + k)
  {
    seq(|calls|, k requires 0 <= k < |calls| => FailureLine(calls[k], i + k))
  }

  const COMPARISON := "\n### 비교 분석:"

  /** The comparison section is written for more than one weather call and a request mentioning "비교". */
  predicate Compares(v: StateView) {
    |WeatherCalls(Succeeded(v.toolCalls))| > 1 && v.currentMessage.Some? && Contains(v.currentMessage.value, "비교")
  }

  /** The comparison section of the summary. */
  function ComparisonSection(v: StateView): (r: seq<string>)
    ensures Compares(v) ==> |r| == 3 && r[0] == COMPARISON
    ensures !Compares(v) ==> r == []
  {
    var weather := WeatherCalls(Succeeded(v.toolCalls));
    if Compares(v) then
      [COMPARISON,
       "총 " + NatToString(|weather|) + "개 지역의 날씨 정보를 수집했습니다:",
       "- " + Join(", ", seq(|weather|, k requires 0 <= k < |weather| =>
                             LocationOf(weather[k]) + "(" + PyStr(weather[k].result) + ")"))]
    else []
  }

  /** The parts `_generate_summary_answer` joins when some tool was called. */
  function SummaryParts(v: StateView): seq<string> {
    var succeeded := Succeeded(v.toolCalls);
    var failed := Failed(v.toolCalls);
    (if v.currentMessage.Some? then ["## " + v.currentMessage.value + "\n"] else [])
    + (if succeeded != [] then ["### 수집된 정보:"] + SuccessSection(succeeded, 1) else [])
    + (if failed != [] then ["\n### 처리 중 발생한 문제:"] + FailureSection(failed, 1) else [])
    + ComparisonSection(v)
  }

  /** `_generate_summary_answer`: the answer made from the calls when the model gives none. */
  const NO_CALLS_OPENING := "' 요청을 분석했지만"
  const NO_CALLS_CLOSING := ", 추가 정보 수집이 필요하지 않아 일반적인 답변을 제공합니다."

  function SummaryAnswer(v: StateView): string {
    if v.toolCalls == [] then
      if v.currentMessage.Some? then
        ("'" + v.currentMessage.value + NO_CALLS_OPENING) + NO_CALLS_CLOSING
      else "요청을 처리했습니다."
    else Join("\n", SummaryParts(v))
  }

  /** Each failed call is reported on its own numbered line. */
  lemma {:induction false} FailuresReported(v: StateView)
    ensures var failed := Failed(v.toolCalls);
      forall k :: 0 <= k < |failed| ==> FailureLine(failed[k], k + 1) in SummaryParts(v)
  {
    var failed := Failed(v.toolCalls);
    var fs := FailureSection(failed, 1);
    if failed != [] {
      forall k | 0 <= k < |failed| ensures FailureLine(failed[k], k + 1) in SummaryParts(v) {
        assert fs[k] == FailureLine(failed[k], k + 1);
        assert fs[k] in ["\n### 처리 중 발생한 문제:"] + fs;
      }
    }
  }

  /** The comparison heading appears exactly when the comparison rule holds. */
  lemma {:induction false} ComparisonOnlyWhenAsked(v: StateView)
    ensures COMPARISON in SummaryParts(v) <==> Compares(v)
  {
    var succeeded := Succeeded(v.toolCalls);
    var failed := Failed(v.toolCalls);
    var head := if v.currentMessage.Some? then ["## " + v.currentMessage.value + "\n"] else [];
    var ss := if succeeded != [] then ["### 수집된 정보:"] + SuccessSection(succeeded, 1) else [];
    var fs := if failed != [] then ["\n### 처리 중 발생한 문제:"] + FailureSection(failed, 1) else [];
    assert SummaryParts(v) == head + ss + fs + ComparisonSection(v);
    if v.currentMessage.Some? {
      assert head[0][0] != COMPARISON[0];
    }
    if succeeded != [] {
      SuccessSectionNotComparison(succeeded);
    }
    if failed != [] {
      FailureSectionNotComparison(failed);
    }
  }

  lemma {:induction false} SuccessSectionNotComparison(succeeded: seq<McpToolCall>)
    ensures COMPARISON !in ["### 수집된 정보:"] + SuccessSection(succeeded, 1)
  {
    var ss := ["### 수집된 정보:"] + SuccessSection(succeeded, 1);
    forall k | 0 <= k < |ss| ensures ss[k] != COMPARISON {
      if k == 0 {
        assert ss[0][0] != COMPARISON[0];
      } else {
        var line := SuccessSection(succeeded, 1)[k - 1];
        assert ss[k] == line;
        assert StartsWith(line, "\n**") || StartsWith(line, "- ");
        assert line[0] != COMPARISON[0] || line[1] != COMPARISON[1];
      }
    }
  }

  lemma {:induction false} FailureSectionNotComparison(failed: seq<McpToolCall>)
    ensures COMPARISON !in ["\n### 처리 중 발생한 문제:"] + FailureSection(failed, 1)
  {
    var fs := ["\n### 처리 중 발생한 문제:"] + FailureSection(failed, 1);
    forall k | 0 <= k < |fs| ensures fs[k] != COMPARISON {
      if k == 0 {
        var heading := "\n### 처리 중 발생한 문제:";
        assert fs[0] == heading;
        assert heading[5] == '처' && COMPARISON[5] == '비';
      } else {
        assert fs[k] == FailureLine(failed[k - 1], k);
        assert fs[k][0] != COMPARISON[0];
      }
    }
  }

  /** Without any tool call the summary is the fixed reply about the request. */
  lemma SummaryWithoutCalls(v: StateView)
    requires v.toolCalls == []
    ensures v.currentMessage.Some? ==> StartsWith(SummaryAnswer(v), "'" + v.currentMessage.value + NO_CALLS_OPENING)
    ensures v.currentMessage.None? ==> SummaryAnswer(v) == "요청을 처리했습니다."
  {
    if v.currentMessage.Some? {
      var p := "'" + v.currentMessage.value + NO_CALLS_OPENING;
      assert SummaryAnswer(v) == p + NO_CALLS_CLOSING;
      assert SummaryAnswer(v)[..|p|] == p;
    }
  }
}
