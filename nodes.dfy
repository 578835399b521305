/*
 * The keyword workflow nodes (`workflows/nodes.py`): the keyword intent
 * classifier with its parameter, target and argument tables, the simulated
 * tool results, and the three nodes `parse_message`, `call_mcp_tool` and
 * `generate_response`.  The MCP client is a parameter: whether there is
 * one, and what its `call_tool` returns or raises.
 */
module KeywordNodes {
  import opened Base
  import opened Json
  import opened Models
  import opened ReactParse

  // ---------------------------------------------------------------- counting keyword hits

  /** An alternation `a|b|...` of non-empty literal alternatives. */
  predicate NonEmptyAlts(alts: seq<string>) {
    forall k :: 0 <= k < |alts| ==> alts[k] != []
  }

  /** The first alternative, in the order written, that matches at `i`, from `k` on. */
  function AltAt(s: string, alts: seq<string>, i: nat, k: nat): (r: Option<nat>)
    requires k <= |alts|
    ensures r.Some? ==> k <= r.value < |alts| && OccursAt(s, alts[r.value], i)
    ensures r.Some? ==> forall j :: k <= j < r.value ==> !OccursAt(s, alts[j], i)
    ensures r.None? ==> forall j :: k <= j < |alts| ==> !OccursAt(s, alts[j], i)
    decreases |alts| - k
  {
    if k == |alts| then None
    else if OccursAt(s, alts[k], i) then Some(k)
    else AltAt(s, alts, i, k + 1)
  }

  /**
   * `len(re.findall(pattern, s))` from `i` on: the leftmost match, taken
   * with the first alternative that fits there, then the search goes on
   * after it.
   */
  function Hits(s: string, alts: seq<string>, i: nat): nat
    requires NonEmptyAlts(alts) && i <= |s|
    decreases |s| - i
  {
    if i == |s| then 0
    else
      var a := AltAt(s, alts, i, 0);
      if a.Some? then 1 + Hits(s, alts, i + |alts[a.value]|) else Hits(s, alts, i + 1)
  }

  /** A text in which no alternative occurs has no hits. */
  lemma {:induction false} NoOccurrenceNoHits(s: string, alts: seq<string>, i: nat)
    requires NonEmptyAlts(alts) && i <= |s|
    requires forall k, j :: 0 <= k < |alts| && i <= j ==> !OccursAt(s, alts[k], j)
    ensures Hits(s, alts, i) == 0
    decreases |s| - i
  {
    if i < |s| {
      NoOccurrenceNoHits(s, alts, i + 1);
    }
  }

  /** An alternative occurring at `i` is counted there. */
  lemma HitAt(s: string, alts: seq<string>, i: nat, k: nat)
    requires NonEmptyAlts(alts) && i <= |s| && k < |alts| && OccursAt(s, alts[k], i)
    ensures Hits(s, alts, i) >= 1
  {
  }

  /** The patterns of one intent, each an alternation. */
  predicate WellFormed(patterns: seq<seq<string>>) {
    forall p :: 0 <= p < |patterns| ==> NonEmptyAlts(patterns[p])
  }

  /** An intent's score: the hits of all its patterns added up. */
  function Score(s: string, patterns: seq<seq<string>>): nat
    requires WellFormed(patterns)
  {
    if patterns == [] then 0
    else Score(s, patterns[..|patterns| - 1]) + Hits(s, patterns[|patterns| - 1], 0)
  }

  /** The intents the keyword parser scores, in the order it lists them. */
  const KEYWORD_INTENTS: seq<IntentType> := [WeatherQuery, FileOperation, ServerStatus, ToolList, Help]

  const PATTERNS: seq<seq<seq<string>>> := [
    [["날씨", "기온", "온도", "비", "눈", "맑음", "흐림"], ["weather", "temperature", "rain", "snow", "sunny", "cloudy"]],
    [["파일", "디렉토리", "폴더", "목록", "읽기", "저장"], ["file", "directory", "folder", "list", "read", "save"]],
    [["서버", "상태", "연결", "접속"], ["server", "status", "connect", "connection"]],
    [["도구", "툴", "기능", "명령어", "help"], ["tool", "function", "command", "help"]],
    [["도움말", "사용법", "어떻게", "방법"], ["help", "how", "usage", "guide"]]
  ]

  predicate AllWellFormed(table: seq<seq<seq<string>>>) {
    forall k :: 0 <= k < |table| ==> WellFormed(table[k])
  }

  lemma PatternsWellFormed()
    ensures |PATTERNS| == |KEYWORD_INTENTS| && AllWellFormed(PATTERNS)
  {
  }

  /** The score of every intent of `table` on `s`. */
  function Scores(s: string, table: seq<seq<seq<string>>>): (scores: seq<nat>)
    requires AllWellFormed(table)
    ensures |scores| == |table| && forall k :: 0 <= k < |table| ==> scores[k] == Score(s, table[k])
  {
    seq(|table|, k requires 0 <= k < |table| => Score(s, table[k]))
  }

  /** The scoring loops of `parse_intent`: one score per intent, the hits of its patterns added up. */
  method CountScores(s: string, table: seq<seq<seq<string>>>) returns (scores: seq<nat>)
    requires AllWellFormed(table)
    ensures scores == Scores(s, table)
  {
    scores := [];
    var k := 0;
    while k < |table|
      invariant 0 <= k <= |table|
      invariant |scores| == k && forall j :: 0 <= j < k ==> scores[j] == Score(s, table[j])
    {
      var patterns := table[k];
      var score := 0;
      var p := 0;
      while p < |patterns|
        invariant 0 <= p <= |patterns|
        invariant score == Score(s, patterns[..p])
      {
        assert patterns[..p + 1][..p] == patterns[..p];
        score := score + Hits(s, patterns[p], 0);
        p := p + 1;
      }
      assert patterns[..p] == patterns;
      scores := scores + [score];
      k := k + 1;
    }
  }

  /** Python's `max(scores, key=...)`: the first position holding the largest score. */
  function BestIndex(scores: seq<nat>): (b: nat)
    requires |scores| > 0
    ensures b < |scores|
    ensures forall j :: 0 <= j < |scores| ==> scores[j] <= scores[b]
    ensures forall j :: 0 <= j < b ==> scores[j] < scores[b]
  {
    if |scores| == 1 then 0
    else
      var b := BestIndex(scores[..|scores| - 1]);
      if scores[|scores| - 1] > scores[b] then |scores| - 1 else b
  }

  /** The intent and confidence `parse_intent` picks from the scores, the confidence as `min(0.3 * score, 1.0)` in tenths. */
  function Classify(scores: seq<nat>): (IntentType, real)
    requires |scores| == |KEYWORD_INTENTS|
  {
    var b := BestIndex(scores);
    if scores[b] == 0 then (GeneralChat, 0.8)
    else (KEYWORD_INTENTS[b], Min(3 * scores[b], 10) as real / 10.0)
  }

  /**
   * Without a hit the message is general chat with confidence 0.8; otherwise
   * the intent is the first one with the highest score, the confidence grows
   * by 0.3 per hit up to 1.0, and the intent is never a tool call.
   */
  lemma ClassifyRules(scores: seq<nat>)
    requires |scores| == |KEYWORD_INTENTS|
    ensures (forall j :: 0 <= j < |scores| ==> scores[j] == 0) <==> Classify(scores) == (GeneralChat, 0.8)
    ensures (exists j :: 0 <= j < |scores| && scores[j] > 0) ==>
      exists b :: 0 <= b < |scores| && Classify(scores).0 == KEYWORD_INTENTS[b]
        && (forall j :: 0 <= j < |scores| ==> scores[j] <= scores[b])
        && (forall j :: 0 <= j < b ==> scores[j] < scores[b])
        && Classify(scores).1 == (if 3 * scores[b] >= 10 then 1.0 else (3 * scores[b]) as real / 10.0)
    ensures Classify(scores).0 != ToolCall
    ensures 0.0 < Classify(scores).1 <= 1.0
  {
    var b := BestIndex(scores);
    if scores[b] > 0 {
      assert Classify(scores).0 == KEYWORD_INTENTS[b];
    }
  }

  // ---------------------------------------------------------------- parameters and targets

  /** The position in `names` of the first one that occurs in `s`, from `k` on. */
  function FirstListed(s: string, names: seq<string>, k: nat): (r: Option<nat>)
    requires k <= |names|
    ensures r.Some? ==> k <= r.value < |names| && Contains(s, names[r.value])
    ensures forall j :: k <= j < |names| && (r.None? || j < r.value) ==> !Contains(s, names[j])
    decreases |names| - k
  {
    if k == |names| then None
    else if Contains(s, names[k]) then Some(k)
    else FirstListed(s, names, k + 1)
  }

  const CITIES := ["서울", "부산", "대구", "인천", "광주", "대전", "울산"]

  /** The city loop of `_extract_parameters`: the first city of the list that occurs, then `break`. */
  method FindCity(message: string) returns (city: Option<string>)
    ensures city == (var k := FirstListed(message, CITIES, 0); if k.Some? then Some(CITIES[k.value]) else None)
  {
    city := None;
    var k := 0;
    while k < |CITIES|
      invariant 0 <= k <= |CITIES|
      invariant FirstListed(message, CITIES, 0) == FirstListed(message, CITIES, k)
    {
      if Contains(message, CITIES[k]) {
        city := Some(CITIES[k]);
        return;
      }
      k := k + 1;
    }
  }

  /** Where `(\d+)일` first matches at or after `i`: a run of digits followed by `일`, and its value. */
  function DaysFrom(s: string, i: nat): (r: Option<nat>)
    requires i <= |s|
    decreases |s| - i
  {
    if i == |s| then None
    else
      var j := DigitEnd(s, i);
      if j > i && j < |s| && s[j] == '일' then Some(DigitsValue(s[i..j]))
      else DaysFrom(s, i + 1)
  }

  predicate AsksForecast(message: string) {
    Contains(message, "예보") || Contains(Lower(message), "forecast")
  }

  /** The weather parameters: the city, and for a forecast the flag and the number of days. */
  function WeatherParameters(message: string, city: Option<string>): (d: Dict)
    ensures Get(d, "forecast") == (if AsksForecast(message) then Some(JBool(true)) else None)
    ensures Get(d, "location") == (if city.Some? then Some(JStr(city.value)) else None)
  {
    var located := if city.Some? then [("location", JStr(city.value))] else [];
    if AsksForecast(message) then
      var days := DaysFrom(message, 0);
      located + [("forecast", JBool(true))] + if days.Some? then [("days", JInt(days.value))] else []
    else located
  }

  /** The file operation named in the message: list, else read, else info. */
  function FileOperationOf(message: string): Option<string> {
    if Contains(message, "목록") || Contains(Lower(message), "list") then Some("list")
    else if Contains(message, "읽기") || Contains(Lower(message), "read") then Some("read")
    else if Contains(message, "정보") || Contains(Lower(message), "info") then Some("info")
    else None
  }

  /** `_extract_parameters` as a specification. */
  function Parameters(message: string, intent: IntentType): Dict {
    if intent == WeatherQuery then
      var k := FirstListed(message, CITIES, 0);
      WeatherParameters(message, if k.Some? then Some(CITIES[k.value]) else None)
    else if intent == FileOperation then
      var op := FileOperationOf(message);
      if op.Some? then [("operation", JStr(op.value))] else []
    else []
  }

  /** `_extract_parameters`. */
  method ExtractParameters(message: string, intent: IntentType) returns (d: Dict)
    ensures d == Parameters(message, intent)
  {
    d := [];
    if intent == WeatherQuery {
      var city := FindCity(message);
      d := WeatherParameters(message, city);
    } else if intent == FileOperation {
      var op := FileOperationOf(message);
      if op.Some? {
        d := [("operation", JStr(op.value))];
      }
    }
  }

  /** The location of a weather query is the first city of the list that the message names. */
  lemma LocationIsFirstCity(message: string)
    ensures var loc := Get(Parameters(message, WeatherQuery), "location");
      && (loc.Some? <==> exists k :: 0 <= k < |CITIES| && Contains(message, CITIES[k]))
      && (loc.Some? ==> exists k :: (0 <= k < |CITIES| && loc == Some(JStr(CITIES[k])) && Contains(message, CITIES[k])
            && forall j :: 0 <= j < k ==> !Contains(message, CITIES[j])))
  {
    var k := FirstListed(message, CITIES, 0);
    if k.Some? {
      assert Contains(message, CITIES[k.value]);
    }
  }

  /** `tool_map.get(operation, 'list_files')`. */
  function FileTool(op: Json): string {
    if op == JStr("list") then "list_files"
    else if op == JStr("read") then "read_file"
    else if op == JStr("info") then "file_info"
    else "list_files"
  }

  /** `_determine_target`: the server and tool for an intent and its parameters. */
  function DetermineTarget(intent: IntentType, parameters: Dict): (r: (Option<string>, Option<string>))
    ensures intent == WeatherQuery ==> (r.0 == Some("weather")
      && (r.1 == Some("get_forecast") <==> Get(parameters, "forecast").Some? && Truthy(Get(parameters, "forecast").value))
      && (r.1 == Some("get_forecast") || r.1 == Some("get_weather")))
    ensures intent == FileOperation ==> (r.0 == Some("file-manager")
      && (r.1 == Some("list_files") || r.1 == Some("read_file") || r.1 == Some("file_info"))
      && (Get(parameters, "operation").None? ==> r.1 == Some("list_files")))
    ensures intent != WeatherQuery && intent != FileOperation ==> r == (None, None)
  {
    if intent == WeatherQuery then
      var forecast := Get(parameters, "forecast");
      (Some("weather"), Some(if forecast.Some? && Truthy(forecast.value) then "get_forecast" else "get_weather"))
    else if intent == FileOperation then
      (Some("file-manager"), Some(FileTool(GetOr(parameters, "operation", JStr("list")))))
    else (None, None)
  }

  /** `MessageParser.parse_intent` as a specification. */
  function KeywordIntent(message: string): ParsedIntent {
    PatternsWellFormed();
    var c := Classify(Scores(Lower(message), PATTERNS));
    var parameters := Parameters(message, c.0);
    var target := DetermineTarget(c.0, parameters);
    ParsedIntent(c.0, c.1, JObj(parameters), target.0, target.1)
  }

  /** `MessageParser.parse_intent`. */
  method ParseIntent(message: string) returns (p: ParsedIntent)
    ensures p == KeywordIntent(message)
  {
    PatternsWellFormed();
    var scores := CountScores(Lower(message), PATTERNS);
    var c := Classify(scores);
    var parameters := ExtractParameters(message, c.0);
    var target := DetermineTarget(c.0, parameters);
    p := ParsedIntent(c.0, c.1, JObj(parameters), target.0, target.1);
  }

  /** The keyword parser never produces a tool call, and its weather and file intents are not members of `IntentType`. */
  lemma KeywordIntentNeverCallsTools(message: string)
    ensures !IsMcpAction(KeywordIntent(message))
    ensures var t := KeywordIntent(message).intentType; !Declared(t) <==> t == WeatherQuery || t == FileOperation
  {
    PatternsWellFormed();
    ClassifyRules(Scores(Lower(message), PATTERNS));
  }

  // ---------------------------------------------------------------- tool arguments and simulated results

  /** The message of the `AttributeError` raised by calling `.get` on a value that is not a dict. */
  function NoGet(j: Json): string {
    "'" + PyTypeName(j) + "' object has no attribute 'get'"
  }

  /** `_prepare_tool_arguments`: the arguments with their defaults, or the error of calling `.get` on parameters that are not a dict. */
  function ToolArguments(p: ParsedIntent): (r: Result<Dict, string>)
    ensures r.Ok? && p.intentType == WeatherQuery ==> (p.parameters.JObj?
      && Get(r.value, "location") == Some(GetOr(p.parameters.fields, "location", JStr("서울")))
      && (Get(r.value, "days").Some? <==> p.targetTool == Some("get_forecast"))
      && (p.targetTool == Some("get_forecast") ==> Get(r.value, "days") == Some(GetOr(p.parameters.fields, "days", JInt(3))))
      && |r.value| == (if p.targetTool == Some("get_forecast") then 2 else 1))
    ensures r.Ok? && p.intentType == FileOperation && p.targetTool == Some("list_files") ==> (p.parameters.JObj?
      && r.value == [("directory", GetOr(p.parameters.fields, "directory", JStr(".")))])
    ensures r.Ok? && p.intentType == FileOperation && (p.targetTool == Some("read_file") || p.targetTool == Some("file_info"))
      ==> (p.parameters.JObj? && r.value == [("filename", GetOr(p.parameters.fields, "filename", JStr("README.md")))])
    ensures r.Ok? && p.intentType == FileOperation
      && !(p.targetTool == Some("list_files") || p.targetTool == Some("read_file") || p.targetTool == Some("file_info"))
      ==> r.value == []
    ensures r.Ok? && p.intentType != WeatherQuery && p.intentType != FileOperation ==> r.value == []
    ensures r.Err? <==> (!p.parameters.JObj? && (p.intentType == WeatherQuery
      || (p.intentType == FileOperation && p.targetTool.Some?
          && (p.targetTool.value == "list_files" || p.targetTool.value == "read_file" || p.targetTool.value == "file_info"))))
  {
    if p.intentType == WeatherQuery then
      if !p.parameters.JObj? then Err(NoGet(p.parameters))
      else
        var fields := p.parameters.fields;
        var located := [("location", GetOr(fields, "location", JStr("서울")))];
        Ok(if p.targetTool == Some("get_forecast") then located + [("days", GetOr(fields, "days", JInt(3)))] else located)
    else if p.intentType == FileOperation then
      if p.targetTool == Some("list_files") then
        if !p.parameters.JObj? then Err(NoGet(p.parameters))
        else Ok([("directory", GetOr(p.parameters.fields, "directory", JStr(".")))])
      else if p.targetTool == Some("read_file") || p.targetTool == Some("file_info") then
        if !p.parameters.JObj? then Err(NoGet(p.parameters))
        else Ok([("filename", GetOr(p.parameters.fields, "filename", JStr("README.md")))])
      else Ok([])
    else Ok([])
  }

  const SIMULATED := "도구 호출 결과 (시뮬레이션)"

  /** `_simulate_tool_call`: a fixed text per (server, tool), and a generic one for any other pair. */
  function SimulateToolCall(tc: McpToolCall): (r: string)
    ensures r != []
    ensures !(tc.serverName == Some("weather") && (tc.toolName == Some("get_weather") || tc.toolName == Some("get_forecast")))
      && !(tc.serverName == Some("file-manager")
           && (tc.toolName == Some("list_files") || tc.toolName == Some("read_file") || tc.toolName == Some("file_info")))
      ==> r == SIMULATED
  {
    var location := PyStr(GetOr(tc.arguments, "location", JStr("서울")));
    var filename := PyStr(GetOr(tc.arguments, "filename", JStr("README.md")));
    if tc.serverName == Some("weather") && tc.toolName == Some("get_weather") then
      location + ": 맑음, 23도"
    else if tc.serverName == Some("weather") && tc.toolName == Some("get_forecast") then
      location + " " + PyStr(GetOr(tc.arguments, "days", JInt(3))) + "일 예보:\nDay 1: 맑음, 22도\nDay 2: 흐림, 20도\nDay 3: 비, 18도"
    else if tc.serverName == Some("file-manager") && tc.toolName == Some("list_files") then
      ". 디렉토리 파일 목록:\nREADME.md\nmcp_servers.json\ntest_client.py"
    else if tc.serverName == Some("file-manager") && tc.toolName == Some("read_file") then
      "[더미] " + filename + " 파일 내용:\n이것은 테스트용 더미 내용입니다."
    else if tc.serverName == Some("file-manager") && tc.toolName == Some("file_info") then
      filename + ": 크기 1024 bytes, 존재함"
    else SIMULATED
  }

  // ---------------------------------------------------------------- the nodes

  /** `parse_message` as a specification. */
  function ParseMessageStep(v: StateView): StateView {
    if v.currentMessage.None? then
      v.(error := Some("메시지 파싱 실패: 현재 메시지가 없습니다"), success := false)
    else
      var p := KeywordIntent(v.currentMessage.value);
      v.(parsedIntent := Some(p), nextStep := Some(if IsMcpAction(p) then "call_mcp_tool" else "generate_response"),
         stepCount := v.stepCount + 1)
  }

  /** `parse_message`. */
  method ParseMessage(st: ChatState)
    modifies st
    ensures st.View() == ParseMessageStep(old(st.View()))
  {
    var v := st.View();
    if v.currentMessage.None? {
      st.keys := v.(error := Some("메시지 파싱 실패: 현재 메시지가 없습니다"), success := false);
      return;
    }
    var p := ParseIntent(v.currentMessage.value);
    var step := if IsMcpAction(p) then "call_mcp_tool" else "generate_response";
    st.keys := v.(parsedIntent := Some(p), nextStep := Some(step), stepCount := v.stepCount + 1);
  }

  /** The keyword path always goes on to `generate_response`: its intents are never tool calls. */
  lemma KeywordPathSkipsTools(v: StateView)
    requires v.currentMessage.Some?
    ensures ParseMessageStep(v).nextStep == Some("generate_response")
    ensures ParseMessageStep(v).parsedIntent == Some(KeywordIntent(v.currentMessage.value))
  {
    KeywordIntentNeverCallsTools(v.currentMessage.value);
  }

  /**
   * The call record of `call_mcp_tool`: the client's result as text with the
   * measured time, or, without a client or when it raises, the simulated
   * result with 100 ms.
   */
  function ToolCallRecord(p: ParsedIntent, arguments: Dict, hasClient: bool,
                          outcome: Result<Json, string>, elapsedMs: int): (tc: McpToolCall)
    ensures tc.serverName == p.targetServer && tc.toolName == p.targetTool && tc.arguments == arguments
    ensures tc.error.None? && tc.result.JStr?
    ensures hasClient && outcome.Ok? ==> tc.result == JStr(PyStr(outcome.value)) && tc.executionTimeMs == Some(elapsedMs)
    ensures !(hasClient && outcome.Ok?) ==>
      tc.executionTimeMs == Some(100) && tc.result == JStr(SimulateToolCall(McpToolCall(p.targetServer, p.targetTool, arguments, JNull, None, None)))
  {
    var base := McpToolCall(p.targetServer, p.targetTool, arguments, JNull, None, None);
    if hasClient && outcome.Ok? then base.(result := JStr(PyStr(outcome.value)), executionTimeMs := Some(elapsedMs))
    else base.(result := JStr(SimulateToolCall(base)), executionTimeMs := Some(100))
  }

  /** `call_mcp_tool` as a specification. */
  function CallToolStep(v: StateView, outcome: Result<Json, string>, elapsedMs: int): StateView {
    if v.parsedIntent.None? then
      v.(error := Some("도구 호출 실패: 파싱된 의도가 없습니다"), success := false)
    else
      var args := ToolArguments(v.parsedIntent.value);
      if args.Err? then v.(error := Some("도구 호출 실패: " + args.error), success := false)
      else
        var tc := ToolCallRecord(v.parsedIntent.value, args.value, v.hasMcpClient, outcome, elapsedMs);
        v.(currentMcpCall := Some(tc), mcpCalls := v.mcpCalls + [tc], toolCalls := v.toolCalls + [tc],
           nextStep := Some("generate_response"), stepCount := v.stepCount + 1)
  }

  /** `call_mcp_tool`: `outcome` is what the client's `call_tool` returns or raises, `elapsedMs` how long it took. */
  method CallMcpTool(st: ChatState, outcome: Result<Json, string>, elapsedMs: int)
    modifies st
    ensures st.View() == CallToolStep(old(st.View()), outcome, elapsedMs)
  {
    var v := st.View();
    if v.parsedIntent.None? {
      st.keys := v.(error := Some("도구 호출 실패: 파싱된 의도가 없습니다"), success := false);
      return;
    }
    var args := ToolArguments(v.parsedIntent.value);
    if args.Err? {
      st.keys := v.(error := Some("도구 호출 실패: " + args.error), success := false);
      return;
    }
    var tc := ToolCallRecord(v.parsedIntent.value, args.value, v.hasMcpClient, outcome, elapsedMs);
    st.keys := v.(currentMcpCall := Some(tc), mcpCalls := v.mcpCalls + [tc], toolCalls := v.toolCalls + [tc],
                  nextStep := Some("generate_response"), stepCount := v.stepCount + 1);
  }

  /** A call is appended once to `mcp_calls` and once to `tool_calls`, is the current call, and leads to the response. */
  lemma CallRecordedOnce(v: StateView, outcome: Result<Json, string>, elapsedMs: int)
    requires v.parsedIntent.Some? && ToolArguments(v.parsedIntent.value).Ok?
    ensures var w := CallToolStep(v, outcome, elapsedMs);
      && |w.mcpCalls| == |v.mcpCalls| + 1 && w.mcpCalls[..|v.mcpCalls|] == v.mcpCalls
      && |w.toolCalls| == |v.toolCalls| + 1 && w.toolCalls[..|v.toolCalls|] == v.toolCalls
      && w.currentMcpCall == Some(w.toolCalls[|v.toolCalls|]) && w.mcpCalls[|v.mcpCalls|] == w.toolCalls[|v.toolCalls|]
      && w.nextStep == Some("generate_response") && IsSuccessful(w.currentMcpCall.value)
  {
  }

  /** Calling a tool never touches the conversation, whichever way the call goes. */
  lemma CallKeepsMessages(v: StateView, outcome: Result<Json, string>, elapsedMs: int)
    ensures CallToolStep(v, outcome, elapsedMs).messages == v.messages
  {
    if v.parsedIntent.Some? && ToolArguments(v.parsedIntent.value).Ok? {
      RecordKeepsMessages(v, outcome, elapsedMs);
    }
  }

  /** The recording branch of `CallKeepsMessages`, kept apart so that each proof stays small. */
  lemma RecordKeepsMessages(v: StateView, outcome: Result<Json, string>, elapsedMs: int)
    requires v.parsedIntent.Some? && ToolArguments(v.parsedIntent.value).Ok?
    ensures CallToolStep(v, outcome, elapsedMs).messages == v.messages
  {
  }

  /** A failing call node records its error and leaves the calls as they were. */
  lemma CallFailureRecorded(v: StateView, outcome: Result<Json, string>, elapsedMs: int)
    requires v.parsedIntent.None? || ToolArguments(v.parsedIntent.value).Err?
    ensures var w := CallToolStep(v, outcome, elapsedMs);
      w.error.Some? && !w.success && w.toolCalls == v.toolCalls && w.mcpCalls == v.mcpCalls && w.nextStep == v.nextStep
  {
  }

  const APOLOGY := "죄송합니다. 요청을 처리할 수 없습니다."
  const GREETING := "안녕하세요! 날씨 정보나 파일 관리 도움이 필요하시면 말씀해주세요."

  /** `_generate_general_response`: the user's message quoted back, or a greeting without one. */
  function GeneralResponse(message: Option<string>): (r: string)
    ensures message.Some? ==> |r| > |message.value| + 1 && r[0] == '\'' && r[1..1 + |message.value|] == message.value
    ensures message.None? ==> r == GREETING
  {
    if message.Some? then "'" + message.value + "'에 대해 이야기해주셔서 감사합니다. 날씨나 파일 관련 질문이 있으시면 언제든 말씀해주세요!"
    else GREETING
  }

  const HELP_TEXT := "🤖 MCP 호스트 도움말\n\n사용 가능한 기능:\n🌤️ 날씨: \"서울 날씨 알려줘\", \"부산 3일 예보\"\n📁 파일: \"파일 목록 보여줘\", \"README.md 정보\"\n🔧 시스템: \"서버 상태\", \"도구 목록\"\n\n예시:\n- \"서울 날씨 어때?\"\n- \"현재 디렉토리 파일들 보여줘\"\n- \"도구 목록 알려줘\"\n"

  /** `_generate_server_status_response`. */
  function ServerStatusResponse(servers: seq<string>): string {
    if servers != [] then "🟢 연결된 서버: " + Join(", ", servers) + "\n모든 서버가 정상 작동 중입니다."
    else "❌ 연결된 서버가 없습니다."
  }

  /** The lines listing one server's tools. */
  function ToolLines(tools: seq<string>): string {
    if tools == [] then "" else ToolLines(tools[..|tools| - 1]) + "  • " + tools[|tools| - 1] + "\n"
  }

  /** The block of one server in the tool list. */
  function ServerBlock(server: string, lines: string): string {
    "📡 " + server + ":\n" + lines + "\n"
  }

  function ServerBlocks(available: seq<(string, seq<string>)>): string {
    if available == [] then ""
    else ServerBlocks(available[..|available| - 1]) + ServerBlock(available[|available| - 1].0, ToolLines(available[|available| - 1].1))
  }

  const TOOL_LIST_HEADER := "🔧 사용 가능한 도구들:\n\n"

  /** `_generate_tool_list_response` as a specification. */
  function ToolListText(available: seq<(string, seq<string>)>): string {
    if available != [] then TOOL_LIST_HEADER + ServerBlocks(available) else "❌ 사용 가능한 도구가 없습니다."
  }

  /** `_generate_tool_list_response`: the loops over the servers and their tools. */
  method ToolListResponse(available: seq<(string, seq<string>)>) returns (response: string)
    ensures response == ToolListText(available)
  {
    if available == [] {
      return "❌ 사용 가능한 도구가 없습니다.";
    }
    var blocks := "";
    var i := 0;
    while i < |available|
      invariant 0 <= i <= |available|
      invariant blocks == ServerBlocks(available[..i])
    {
      var (server, tools) := available[i];
      var lines := "";
      var j := 0;
      while j < |tools|
        invariant 0 <= j <= |tools|
        invariant lines == ToolLines(tools[..j])
      {
        assert tools[..j + 1][..j] == tools[..j];
        lines := lines + "  • " + tools[j] + "\n";
        j := j + 1;
      }
      assert tools[..j] == tools;
      assert available[..i + 1][..i] == available[..i];
      blocks := blocks + ServerBlock(server, lines);
      i := i + 1;
    }
    assert available[..i] == available;
    response := TOOL_LIST_HEADER + blocks;
  }

  /** `_generate_tool_response`: the call's result under a heading chosen by intent and tool. */
  function ToolResponse(p: ParsedIntent, tc: McpToolCall): (r: string)
    ensures exists heading :: r == heading + PyStr(tc.result)
  {
    var result := PyStr(tc.result);
    if p.intentType == WeatherQuery && tc.toolName == Some("get_weather") then "🌤️ 현재 날씨:\n" + result
    else if p.intentType == WeatherQuery && tc.toolName == Some("get_forecast") then "📅 일기예보:\n" + result
    else if p.intentType == FileOperation && tc.toolName == Some("list_files") then "📁 파일 목록:\n" + result
    else if p.intentType == FileOperation && tc.toolName == Some("read_file") then "📄 파일 내용:\n" + result
    else if p.intentType == FileOperation && tc.toolName == Some("file_info") then "ℹ️ 파일 정보:\n" + result
    else "✅ 작업 완료:\n" + result
  }

  /** The response `generate_response` builds, or the error it raises when no intent was parsed. */
  function ResponseText(v: StateView): Result<string, string> {
    if v.parsedIntent.None? then Err("'NoneType' object has no attribute 'intent_type'")
    else
      var p := v.parsedIntent.value;
      Ok(if p.intentType == GeneralChat then GeneralResponse(v.currentMessage)
         else if p.intentType == Help then HELP_TEXT
         else if p.intentType == ServerStatus then ServerStatusResponse(v.availableServers)
         else if p.intentType == ToolList then ToolListText(v.availableTools)
         else if v.currentMcpCall.Some? && IsSuccessful(v.currentMcpCall.value) then ToolResponse(p, v.currentMcpCall.value)
         else APOLOGY)
  }

  /** What `generate_response` records for a response or an error. */
  function Responded(v: StateView, text: Result<string, string>): StateView {
    if text.Err? then v.(error := Some("응답 생성 실패: " + text.error), success := false)
    else v.(response := text.value, success := true, nextStep := Some("completed"), stepCount := v.stepCount + 1)
  }

  /** `generate_response` as a specification. */
  function GenerateStep(v: StateView): StateView {
    Responded(v, ResponseText(v))
  }

  /** The response chosen by `generate_response`'s dispatch. */
  method ComposeResponse(v: StateView) returns (text: Result<string, string>)
    ensures text == ResponseText(v)
  {
    if v.parsedIntent.None? {
      return Err("'NoneType' object has no attribute 'intent_type'");
    }
    var p := v.parsedIntent.value;
    if p.intentType == GeneralChat {
      text := Ok(GeneralResponse(v.currentMessage));
    } else if p.intentType == Help {
      text := Ok(HELP_TEXT);
    } else if p.intentType == ServerStatus {
      text := Ok(ServerStatusResponse(v.availableServers));
    } else if p.intentType == ToolList {
      var listing := ToolListResponse(v.availableTools);
      text := Ok(listing);
    } else if v.currentMcpCall.Some? && IsSuccessful(v.currentMcpCall.value) {
      text := Ok(ToolResponse(p, v.currentMcpCall.value));
    } else {
      text := Ok(APOLOGY);
    }
  }

  /** `generate_response`. */
  method GenerateResponse(st: ChatState)
    modifies st
    ensures st.View() == GenerateStep(old(st.View()))
  {
    var v := st.View();
    var text := ComposeResponse(v);
    if text.Err? {
      st.keys := v.(error := Some("응답 생성 실패: " + text.error), success := false);
    } else {
      st.keys := v.(response := text.value, success := true, nextStep := Some("completed"), stepCount := v.stepCount + 1);
    }
  }

  /** `p` occurs in `a + s + b` wherever it occurs in `s`. */
  lemma ContainsInside(a: string, s: string, b: string, p: string)
    requires Contains(s, p)
    ensures Contains(a + s + b, p)
  {
    var i := Find(s, p, 0).value;
    var t := a + s + b;
    assert t[|a| + i..|a| + i + |p|] == s[i..i + |p|];
    assert OccursAt(t, p, |a| + i);
  }

  /** Every response `generate_response` can build is non-empty. */
  lemma ResponseNonEmpty(v: StateView)
    requires v.parsedIntent.Some?
    ensures ResponseText(v).Ok? && ResponseText(v).value != []
  {
    var p := v.parsedIntent.value;
    var r := ResponseText(v).value;
    if p.intentType == GeneralChat {
      assert |r| > 0;
    } else if p.intentType == Help {
      assert r == HELP_TEXT;
    } else if p.intentType == ServerStatus {
      assert r[0] == (if v.availableServers != [] then '🟢' else '❌');
    } else if p.intentType == ToolList {
      assert r[0] == (if v.availableTools != [] then '🔧' else '❌');
    } else if v.currentMcpCall.Some? && IsSuccessful(v.currentMcpCall.value) {
      var heading :| r == heading + PyStr(v.currentMcpCall.value.result);
      assert |ToolResponse(p, v.currentMcpCall.value)| > 0;
    }
  }

  /**
   * With an intent, `generate_response` succeeds with a non-empty response,
   * clears nothing and completes the workflow.
   */
  lemma ResponseCompletes(v: StateView)
    requires v.parsedIntent.Some?
    ensures var w := GenerateStep(v);
      w.success && w.nextStep == Some("completed") && w.response != [] && w.error == v.error
      && w.stepCount == v.stepCount + 1
  {
    ResponseNonEmpty(v);
  }

  /** General chat quotes the user's message, so a greeting such as "안녕하세요" is answered with a text containing "안녕". */
  lemma GreetingAnswered(v: StateView)
    requires v.parsedIntent.Some? && v.parsedIntent.value.intentType == GeneralChat
    requires v.currentMessage.Some? && Contains(v.currentMessage.value, "안녕")
    ensures Contains(GenerateStep(v).response, "안녕")
  {
    var m := v.currentMessage.value;
    ContainsInside("'", m, "'에 대해 이야기해주셔서 감사합니다. 날씨나 파일 관련 질문이 있으시면 언제든 말씀해주세요!", "안녕");
  }

  /** Without an intent, `generate_response` records the error and changes no response. */
  lemma ResponseWithoutIntent(v: StateView)
    requires v.parsedIntent.None?
    ensures var w := GenerateStep(v);
      !w.success && w.error.Some? && w.response == v.response && w.nextStep == v.nextStep
  {
  }
}
