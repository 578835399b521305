/*
 * The LLM-driven workflow nodes (`workflows/llm_nodes.py`): reading the
 * model's `INTENT:/CONFIDENCE:/TARGET_TOOL:/PARAMETERS:` reply into a parsed
 * intent, guessing the server from a tool name, the fallback that looks for
 * a server or tool named in the user's message, the rule that sends a
 * complex request to the ReAct loop, and the two token-batching schemes used
 * while a reply is streamed.  The model itself is a parameter: its reply (or
 * the exception it raised), and Python's `float` and `json.loads`, which are
 * treated as oracles.
 */
module LlmNodes {
  import opened Base
  import opened Json
  import opened Models
  import opened StreamMessages
  import opened ReactParse
  import ReactNodes
  import KeywordNodes

  // ---------------------------------------------------------------- the intent reply

  /** What the reply's lines have set so far: the intent name, the confidence, the parameters and the target tool. */
  datatype IntentFields = IntentFields(intent: string, confidence: real, parameters: Json, targetTool: Option<string>)

  /** The values the parser starts from. */
  const DEFAULT_FIELDS := IntentFields("GENERAL_CHAT", 0.5, JObj([]), None)

  /** Python's `float(text)` and `json.loads(text)`, each `None` where it raises. */
  datatype Readers = Readers(toFloat: string -> Option<real>, loads: string -> Option<Json>)

  /** `line.replace(key, "").strip()`. */
  function ValueOf(line: string, key: string): string
    requires |key| > 0
  {
    Strip(ReplaceAll(line, key, ""))
  }

  predicate KeyLine(line: string) {
    StartsWith(line, "INTENT:") || StartsWith(line, "CONFIDENCE:")
    || StartsWith(line, "TARGET_TOOL:") || StartsWith(line, "PARAMETERS:")
  }

  /** One stripped line of the reply: the first key it starts with decides which field it sets. */
  function ReadLine(f: IntentFields, line: string, rd: Readers): (r: IntentFields)
    ensures !KeyLine(line) ==> r == f
  {
    if StartsWith(line, "INTENT:") then
      f.(intent := ValueOf(line, "INTENT:"))
    else if StartsWith(line, "CONFIDENCE:") then
      f.(confidence := ConfidenceOf(ValueOf(line, "CONFIDENCE:"), rd))
    else if StartsWith(line, "TARGET_TOOL:") then
      f.(targetTool := ToolOf(ValueOf(line, "TARGET_TOOL:")))
    else if StartsWith(line, "PARAMETERS:") then
      f.(parameters := ParametersOf(ValueOf(line, "PARAMETERS:"), rd))
    else
      f
  }

  /** A CONFIDENCE value: `float(t)`, or 0.5 when that raises. */
  function ConfidenceOf(t: string, rd: Readers): real {
    var c := rd.toFloat(t);
    if c.Some? then c.value else 0.5
  }

  /** A TARGET_TOOL value: the name, or no tool for "null" in any case. */
  function ToolOf(t: string): Option<string> {
    if !IsNullWord(t) then Some(t) else None
  }

  /** A PARAMETERS value: `json.loads(t)`, or `{}` when that raises. */
  function ParametersOf(t: string, rd: Readers): Json {
    var p := rd.loads(t);
    if p.Some? then p.value else JObj([])
  }

  /** `t.lower() == "null"`, compared letter by letter. */
  predicate IsNullWord(t: string) {
    |t| == 4 && LowerChar(t[0]) == 'n' && LowerChar(t[1]) == 'u' && LowerChar(t[2]) == 'l' && LowerChar(t[3]) == 'l'
  }

  /** The letter-by-letter comparison is Python's `t.lower() == "null"`: "null", "NULL" and "Null" all count. */
  lemma NullWordIsLowerNull(t: string)
    ensures IsNullWord(t) <==> Lower(t) == "null"
  {
    if Lower(t) == "null" {
      assert |t| == 4 && forall k :: 0 <= k < 4 ==> LowerChar(t[k]) == "null"[k];
    }
  }

  /** The fields after reading `lines` in order, each line stripped first. */
  function ReadLines(f: IntentFields, lines: seq<string>, rd: Readers): IntentFields {
    if lines == [] then f
    else ReadLine(ReadLines(f, lines[..|lines| - 1], rd), Strip(lines[|lines| - 1]), rd)
  }

  /** The lines of the reply: `response_text.strip().split('\n')`. */
  function ReplyLines(text: string): seq<string> {
    SplitOn(Strip(text), '\n')
  }

  /** The value of the last line that starts with `key`, if any: an independent reading of "a later line wins". */
  function LastValue(lines: seq<string>, key: string): Option<string>
    requires |key| > 0
  {
    if lines == [] then None
    else if StartsWith(Strip(lines[|lines| - 1]), key) then Some(ValueOf(Strip(lines[|lines| - 1]), key))
    else LastValue(lines[..|lines| - 1], key)
  }

  /** A line starts with at most one of the four keys. */
  lemma KeysExclusive(line: string)
    ensures StartsWith(line, "CONFIDENCE:") ==> !StartsWith(line, "INTENT:")
    ensures StartsWith(line, "TARGET_TOOL:") ==> !StartsWith(line, "INTENT:") && !StartsWith(line, "CONFIDENCE:")
    ensures StartsWith(line, "PARAMETERS:") ==> !StartsWith(line, "INTENT:") && !StartsWith(line, "CONFIDENCE:")
                                                 && !StartsWith(line, "TARGET_TOOL:")
  {
    assert "INTENT:"[0] == 'I' && "CONFIDENCE:"[0] == 'C' && "TARGET_TOOL:"[0] == 'T' && "PARAMETERS:"[0] == 'P';
  }

  /** Each field holds the value of the last line with its key, read as that key is read, and
      stays as it was when there is no such line: a later line overwrites an earlier one. */
  lemma {:induction false} LastLineWins(f: IntentFields, lines: seq<string>, rd: Readers)
    ensures var g := ReadLines(f, lines, rd);
      var intent, conf := LastValue(lines, "INTENT:"), LastValue(lines, "CONFIDENCE:");
      var tool, params := LastValue(lines, "TARGET_TOOL:"), LastValue(lines, "PARAMETERS:");
      && g.intent == intent.GetOr(f.intent)
      && g.confidence == (if conf.Some? then ConfidenceOf(conf.value, rd) else f.confidence)
      && g.targetTool == (if tool.Some? then ToolOf(tool.value) else f.targetTool)
      && g.parameters == (if params.Some? then ParametersOf(params.value, rd) else f.parameters)
  {
    if lines != [] {
      LastLineWins(f, lines[..|lines| - 1], rd);
      KeysExclusive(Strip(lines[|lines| - 1]));
    }
  }

  /** A reply none of whose lines starts with one of the four keys leaves every field at its start value. */
  lemma {:induction false} KeylessRepliesKeepFields(f: IntentFields, lines: seq<string>, rd: Readers)
    requires forall k :: 0 <= k < |lines| ==> !KeyLine(Strip(lines[k]))
    ensures ReadLines(f, lines, rd) == f
  {
    if lines != [] {
      KeylessRepliesKeepFields(f, lines[..|lines| - 1], rd);
    }
  }

  /** `_infer_server_from_tool`: the part of the name before the first '-', or else before the first '_'. */
  function InferServerFromTool(tool: string): (r: Option<string>)
    ensures r.Some? <==> '-' in tool || '_' in tool
    ensures r.Some? ==> var sep := if '-' in tool then '-' else '_';
      |r.value| < |tool| && tool[..|r.value|] == r.value && tool[|r.value|] == sep && sep !in r.value
  {
    if tool == [] then None
    else if '-' in tool then FirstPiece(tool, '-'); Some(SplitOn(tool, '-')[0])
    else if '_' in tool then FirstPiece(tool, '_'); Some(SplitOn(tool, '_')[0])
    else None
  }

  /** `s.split(c)[0]` is the part of `s` before its first `c`. */
  lemma FirstPiece(s: string, c: char)
    requires c in s
    ensures var p := SplitOn(s, c)[0]; |p| < |s| && s[..|p|] == p && s[|p|] == c && c !in p
  {
    var f := Find(s, [c], 0);
    if f.None? {
      var i :| 0 <= i < |s| && s[i] == c;
      assert s[i..i + 1] == [c];
      assert OccursAt(s, [c], i);
      assert false;
    }
    var k := f.value;
    assert SplitOn(s, c)[0] == s[..k];
    assert s[k..k + 1] == [c];
  }

  // ---------------------------------------------------------------- the target fallback

  /** `(\w+)\.(\w+)` matched at `i`: the two names. */
  function DottedAt(s: string, i: nat): (r: Option<(string, string)>)
    requires i <= |s|
    ensures r.Some? ==> (IsToolName(r.value.0) && IsToolName(r.value.1)
      && OccursAt(s, r.value.0 + "." + r.value.1, i))
  {
    var j := WordEnd(s, i);
    if j > i && j < |s| && s[j] == '.' then
      var e := WordEnd(s, j + 1);
      if e > j + 1 then
        assert s[i..e] == s[i..j] + "." + s[j + 1..e];
        Some((s[i..j], s[j + 1..e]))
      else None
    else None
  }

  /** Where the first match of `(\w+)\.(\w+)` at or after `i` starts, as `re.findall(...)[0]` finds it. */
  function FirstDotted(s: string, i: nat): (r: Option<nat>)
    requires i <= |s|
    ensures r.Some? ==> i <= r.value <= |s| && DottedAt(s, r.value).Some?
    ensures forall k :: i <= k <= |s| && (r.None? || k < r.value) ==> DottedAt(s, k).None?
    decreases |s| - i
  {
    if DottedAt(s, i).Some? then Some(i)
    else if i == |s| then None
    else FirstDotted(s, i + 1)
  }

  /** `\s*(?:서버|server)` can follow a name ending at `e`. */
  predicate ServerWordAfter(s: string, e: nat)
    requires e <= |s|
  {
    var a := SkipSpace(s, e);
    OccursAt(s, "서버", a) || OccursAt(s, "server", a)
  }

  /** The longest end in `(i, e]` after which a server word follows: `(\w+)` gives back characters until one does. */
  function MentionEnd(s: string, i: nat, e: nat): (r: Option<nat>)
    requires i < e <= |s|
    ensures r.Some? ==> i < r.value <= e && ServerWordAfter(s, r.value)
    ensures forall e' :: i < e' <= e && (r.None? || r.value < e') ==> !ServerWordAfter(s, e')
    decreases e
  {
    if ServerWordAfter(s, e) then Some(e)
    else if e == i + 1 then None
    else MentionEnd(s, i, e - 1)
  }

  /** `(\w+)\s*(?:서버|server)` matched at `i`: the name. */
  function MentionAt(s: string, i: nat): (r: Option<string>)
    requires i <= |s|
    ensures r.Some? ==> IsToolName(r.value) && StartsWith(s[i..], r.value) && ServerWordAfter(s, i + |r.value|)
  {
    var j := WordEnd(s, i);
    if j > i then
      var e := MentionEnd(s, i, j);
      if e.Some? then
        assert s[i..][..e.value - i] == s[i..e.value];
        Some(s[i..e.value])
      else None
    else None
  }

  /** Where the first match of `(\w+)\s*(?:서버|server)` at or after `i` starts. */
  function FirstMention(s: string, i: nat): (r: Option<nat>)
    requires i <= |s|
    ensures r.Some? ==> i <= r.value <= |s| && MentionAt(s, r.value).Some?
    ensures forall k :: i <= k <= |s| && (r.None? || k < r.value) ==> MentionAt(s, k).None?
    decreases |s| - i
  {
    if MentionAt(s, i).Some? then Some(i)
    else if i == |s| then None
    else FirstMention(s, i + 1)
  }

  /** `if first_key and first_value`: a dict whose first entry has a non-empty key and a truthy value. */
  predicate FirstEntrySet(parameters: Json) {
    parameters.JObj? && parameters.fields != [] && parameters.fields[0].0 != [] && Truthy(parameters.fields[0].1)
  }

  /**
   * `_determine_target_from_intent_fallback`: the (server, tool) pair, or the
   * error raised when parameters that are truthy but not a dict are asked for
   * their keys.
   */
  function TargetFallback(parameters: Json, userInput: string): Result<(Option<string>, Option<string>), string> {
    if Truthy(parameters) && !parameters.JObj? then Err("'parameters' has no attribute 'keys'")
    else if FirstEntrySet(parameters) then Ok((None, None))
    else
      var d := FirstDotted(userInput, 0);
      if d.Some? then
        var names := DottedAt(userInput, d.value).value;
        Ok((Some(names.0), Some(names.1)))
      else
        var lower := Lower(userInput);
        var m := FirstMention(lower, 0);
        if m.Some? then Ok((Some(MentionAt(lower, m.value).value), None))
        else Ok((None, None))
  }

  /** The fallback's rules, in the order it tries them; the first that applies decides. */
  lemma FallbackRules(parameters: Json, userInput: string)
    ensures var r := TargetFallback(parameters, userInput);
      && (r.Err? <==> Truthy(parameters) && !parameters.JObj?)
      && (r.Ok? && FirstEntrySet(parameters) ==> r.value == (None, None))
      && (r.Ok? && !FirstEntrySet(parameters) && FirstDotted(userInput, 0).Some? ==>
            exists i :: 0 <= i <= |userInput| && DottedAt(userInput, i).Some?
              && r.value == (Some(DottedAt(userInput, i).value.0), Some(DottedAt(userInput, i).value.1))
              && forall k :: 0 <= k < i ==> DottedAt(userInput, k).None?)
      && (r.Ok? && !FirstEntrySet(parameters) && FirstDotted(userInput, 0).None? ==>
            r.value.1.None? && (r.value.0.Some? <==> FirstMention(Lower(userInput), 0).Some?))
      && (r.Ok? && r.value.0.Some? ==> IsToolName(r.value.0.value))
  {
    var r := TargetFallback(parameters, userInput);
    if r.Ok? && !FirstEntrySet(parameters) && FirstDotted(userInput, 0).Some? {
      var i := FirstDotted(userInput, 0).value;
      assert forall k :: 0 <= k < i ==> DottedAt(userInput, k).None?;
    }
  }

  // ---------------------------------------------------------------- the parsed intent

  /** The intent a parse that raised returns. */
  const PARSE_FAILED := ParsedIntent(GeneralChat, 0.3, JObj([]), None, None)

  predicate HasTool(f: IntentFields) {
    f.targetTool.Some? && f.targetTool.value != []
  }

  /** Whether the parse ends in its exception handler: a TOOL_CALL without a tool whose fallback raised. */
  predicate FallbackRaised(f: IntentFields, userInput: string) {
    IntentFromValue(f.intent) == Some(ToolCall) && !HasTool(f) && TargetFallback(f.parameters, userInput).Err?
  }

  /** What `_parse_llm_intent_response` builds from the fields once the lines are read. */
  function FromFields(f: IntentFields, userInput: string): (r: ParsedIntent)
    ensures FallbackRaised(f, userInput) ==> r == PARSE_FAILED
    ensures !FallbackRaised(f, userInput) ==> r.confidence == f.confidence && r.parameters == f.parameters
    ensures IntentFromValue(f.intent).None? ==> r.intentType == GeneralChat
    ensures r.intentType != GeneralChat ==> IntentFromValue(f.intent) == Some(r.intentType)
    ensures HasTool(f) ==> r == ParsedIntent(r.intentType, f.confidence, f.parameters,
                                             InferServerFromTool(f.targetTool.value), f.targetTool)
    ensures IntentFromValue(f.intent) == Some(ToolCall) && !HasTool(f) ==>
      if TargetFallback(f.parameters, userInput).Err? then r == PARSE_FAILED
      else r == ParsedIntent(ToolCall, f.confidence, f.parameters,
                             TargetFallback(f.parameters, userInput).value.0,
                             TargetFallback(f.parameters, userInput).value.1)
  {
    var known := IntentFromValue(f.intent);
    var intent := if known.Some? then known.value else GeneralChat;
    if intent == ToolCall && !HasTool(f) then
      var fb := TargetFallback(f.parameters, userInput);
      if fb.Err? then PARSE_FAILED
      else ParsedIntent(intent, f.confidence, f.parameters, fb.value.0, fb.value.1)
    else
      ParsedIntent(intent, f.confidence, f.parameters,
                   if HasTool(f) then InferServerFromTool(f.targetTool.value) else None, f.targetTool)
  }

  /** `_parse_llm_intent_response`, as a specification. */
  function ParseIntentReply(text: string, userInput: string, rd: Readers): ParsedIntent {
    FromFields(ReadLines(DEFAULT_FIELDS, ReplyLines(text), rd), userInput)
  }

  /** `_parse_llm_intent_response`: the lines are read one by one into local variables. */
  method ParseLlmIntentResponse(text: string, userInput: string, rd: Readers) returns (r: ParsedIntent)
    ensures r == ParseIntentReply(text, userInput, rd)
  {
    var f := ReadReply(ReplyLines(text), rd);
    r := FromFields(f, userInput);
  }

  /** The line loop of `_parse_llm_intent_response`: each stripped line read in order from the defaults. */
  method ReadReply(lines: seq<string>, rd: Readers) returns (f: IntentFields)
    ensures f == ReadLines(DEFAULT_FIELDS, lines, rd)
  {
    f := DEFAULT_FIELDS;
    var i := 0;
    while i < |lines|
      invariant 0 <= i <= |lines|
      invariant f == ReadLines(DEFAULT_FIELDS, lines[..i], rd)
    {
      assert lines[..i + 1][..i] == lines[..i];
      f := ReadLine(f, Strip(lines[i]), rd);
      i := i + 1;
    }
    assert lines[..i] == lines;
  }

  /** A reply without any key line gives the defaults: GENERAL_CHAT, 0.5, `{}` and no target. */
  lemma KeylessReplyGivesDefaults(text: string, userInput: string, rd: Readers)
    requires forall k :: 0 <= k < |ReplyLines(text)| ==> !KeyLine(Strip(ReplyLines(text)[k]))
    ensures ParseIntentReply(text, userInput, rd) == ParsedIntent(GeneralChat, 0.5, JObj([]), None, None)
  {
    KeylessRepliesKeepFields(DEFAULT_FIELDS, ReplyLines(text), rd);
    assert "GENERAL_CHAT"[0] != "TOOL_CALL"[0];
    assert IntentFromValue(DEFAULT_FIELDS.intent) == Some(GeneralChat);
  }

  /** The intent type is the one named by the last INTENT line when it is declared, and GENERAL_CHAT otherwise. */
  lemma ReplyIntentIsLastLine(text: string, userInput: string, rd: Readers)
    ensures var r := ParseIntentReply(text, userInput, rd);
      var named := IntentFromValue(LastValue(ReplyLines(text), "INTENT:").GetOr("GENERAL_CHAT"));
      (named.None? ==> r.intentType == GeneralChat)
      && (r.intentType != GeneralChat ==> named == Some(r.intentType))
  {
    LastLineWins(DEFAULT_FIELDS, ReplyLines(text), rd);
  }

  /** The last CONFIDENCE, TARGET_TOOL and PARAMETERS lines decide those fields: an unreadable
      confidence gives 0.5, a "null" tool in any case gives no tool, unreadable parameters give `{}`. */
  lemma FieldsFromLastLines(lines: seq<string>, rd: Readers)
    ensures var f := ReadLines(DEFAULT_FIELDS, lines, rd);
      var conf := LastValue(lines, "CONFIDENCE:");
      var tool := LastValue(lines, "TARGET_TOOL:");
      var params := LastValue(lines, "PARAMETERS:");
      && f.confidence == (if conf.Some? && rd.toFloat(conf.value).Some? then rd.toFloat(conf.value).value else 0.5)
      && f.parameters == (if params.Some? && rd.loads(params.value).Some? then rd.loads(params.value).value else JObj([]))
      && (tool.Some? && Lower(tool.value) == "null" ==> f.targetTool.None?)
      && (tool.Some? && Lower(tool.value) != "null" ==> f.targetTool == tool)
      && (tool.None? ==> f.targetTool.None?)
  {
    LastLineWins(DEFAULT_FIELDS, lines, rd);
    var tool := LastValue(lines, "TARGET_TOOL:");
    if tool.Some? {
      NullWordIsLowerNull(tool.value);
    }
  }

  /** For a whole reply: the fields of the last key lines reach the parsed intent, unless the fallback raised. */
  lemma ReplyFieldsAreLastLines(text: string, userInput: string, rd: Readers)
    ensures var f := ReadLines(DEFAULT_FIELDS, ReplyLines(text), rd);
      var conf := LastValue(ReplyLines(text), "CONFIDENCE:");
      var params := LastValue(ReplyLines(text), "PARAMETERS:");
      var r := ParseIntentReply(text, userInput, rd);
      !FallbackRaised(f, userInput) ==>
        && r.confidence == (if conf.Some? && rd.toFloat(conf.value).Some? then rd.toFloat(conf.value).value else 0.5)
        && r.parameters == (if params.Some? && rd.loads(params.value).Some? then rd.loads(params.value).value else JObj([]))
  {
    var lines := ReplyLines(text);
    FieldsFromLastLines(lines, rd);
  }

  /** For a whole reply: the last TARGET_TOOL line names the tool unless it reads "null"; outside TOOL_CALL a
      missing or "null" tool leaves the intent without one. */
  lemma ReplyToolIsLastLine(text: string, userInput: string, rd: Readers)
    ensures var tool := LastValue(ReplyLines(text), "TARGET_TOOL:");
      var r := ParseIntentReply(text, userInput, rd);
      tool.Some? && tool.value != [] && Lower(tool.value) != "null" ==> r.targetTool == tool
    ensures var tool := LastValue(ReplyLines(text), "TARGET_TOOL:");
      var f := ReadLines(DEFAULT_FIELDS, ReplyLines(text), rd);
      var r := ParseIntentReply(text, userInput, rd);
      (tool.None? || Lower(tool.value) == "null") && IntentFromValue(f.intent) != Some(ToolCall) ==> r.targetTool.None?
  {
    var lines := ReplyLines(text);
    var f := ReadLines(DEFAULT_FIELDS, lines, rd);
    FieldsFromLastLines(lines, rd);
    assert ParseIntentReply(text, userInput, rd) == FromFields(f, userInput);
  }

  // ---------------------------------------------------------------- the complex-request rule

  predicate IsHangul(c: char) { '가' <= c <= '힣' }

  /** The end of the run of `[가-힣]` starting at `i`. */
  function HangulEnd(s: string, i: nat): (j: nat)
    requires i <= |s|
    ensures i <= j <= |s| && (j < |s| ==> !IsHangul(s[j]))
    decreases |s| - i
  {
    if i == |s| || !IsHangul(s[i]) then i else HangulEnd(s, i + 1)
  }

  /** The end of the run of the letter `s` starting at `i`. */
  function LetterSEnd(s: string, i: nat): (j: nat)
    requires i <= |s|
    ensures i <= j <= |s|
    decreases |s| - i
  {
    if i == |s| || s[i] != 's' then i else LetterSEnd(s, i + 1)
  }

  /**
   * One repetition of the group `\\s*,\\s*[가-힣]{2,}` at `i`, where the end is.
   * The pattern is a raw string, so `\\s*` is a backslash followed by any
   * number of the letter `s`; each part is forced, so there is no choice to
   * undo.
   */
  function UnitEnd(s: string, i: nat): (r: Option<nat>)
    requires i <= |s|
    ensures r.Some? ==> i < r.value <= |s| && s[i] == '\\'
  {
    if i < |s| && s[i] == '\\' then
      var a := LetterSEnd(s, i + 1);
      if a + 1 < |s| && s[a] == ',' && s[a + 1] == '\\' then
        var b := LetterSEnd(s, a + 2);
        var e := HangulEnd(s, b);
        if e >= b + 2 then Some(e) else None
      else None
    else None
  }

  /** How many repetitions of the group follow one another from `i`. */
  function UnitRun(s: string, i: nat): nat
    requires i <= |s|
    decreases |s| - i
  {
    var u := UnitEnd(s, i);
    if u.Some? then 1 + UnitRun(s, u.value) else 0
  }

  /** `[가-힣]{2,}(?:\\s*,\\s*[가-힣]{2,}){2,}` matches at `i`. */
  predicate GroupAt(s: string, i: nat)
    requires i <= |s|
  {
    var j := HangulEnd(s, i);
    j >= i + 2 && UnitRun(s, j) >= 2
  }

  predicate HasWordGroup(s: string) {
    exists i :: 0 <= i <= |s| && GroupAt(s, i)
  }

  /** The word-group rule never fires on a message without a backslash: ordinary comma lists do not match it. */
  lemma NoBackslashNoGroup(s: string)
    requires '\\' !in s
    ensures !HasWordGroup(s)
  {
    forall i | 0 <= i <= |s| ensures !GroupAt(s, i) {
      var j := HangulEnd(s, i);
      assert UnitEnd(s, j).None?;
    }
  }

  /** `[,，]` counted. */
  function CommaCount(s: string): nat {
    CountIn(s, {',', '，'})
  }

  predicate HasKeyword(lower: string) {
    Contains(lower, "비교") || Contains(lower, "분석") || Contains(lower, "리포트")
    || Contains(lower, "여러") || Contains(lower, "모든") || Contains(lower, "각각")
  }

  /** The request is complex: three commas, a keyword and a comma, or a word group. */
  predicate IsComplex(userInput: string) {
    var clean := Strip(userInput);
    CommaCount(clean) >= 3 || (HasKeyword(Lower(clean)) && CommaCount(clean) >= 1) || HasWordGroup(clean)
  }

  /** For a message without a backslash, only the comma and keyword rules count. */
  lemma ComplexWithoutBackslash(userInput: string)
    requires '\\' !in userInput
    ensures var clean := Strip(userInput);
      IsComplex(userInput) <==> CommaCount(clean) >= 3 || (HasKeyword(Lower(clean)) && CommaCount(clean) >= 1)
  {
    StripIsSlice(userInput);
    NoBackslashNoGroup(Strip(userInput));
  }

  // ---------------------------------------------------------------- llm_parse_intent

  /** The intent recorded when `llm_parse_intent` raises. */
  const FALLBACK_INTENT := ParsedIntent(GeneralChat, 0.5, JObj([]), None, None)

  /**
   * Where `llm_parse_intent` sends the workflow once the reply is read:
   * `outcome` is the parsed intent, or `None` when the node raised, and
   * `complex` says whether the request is complex.
   */
  function RouteIntent(v: StateView, outcome: Option<ParsedIntent>, complex: bool): StateView {
    if outcome.None? then
      v.(parsedIntent := Some(FALLBACK_INTENT), nextStep := Some("llm_generate_response"), stepCount := v.stepCount + 1)
    else if complex && !v.reactMode then
      v.(parsedIntent := outcome, reactMode := true, shouldUseReact := true,
         nextStep := Some("switch_to_react"), stepCount := v.stepCount + 1)
    else
      var step := if IsMcpAction(outcome.value) then "llm_call_mcp_tool" else "llm_generate_response";
      v.(parsedIntent := outcome, nextStep := Some(step), stepCount := v.stepCount + 1)
  }

  /** `llm_parse_intent` as a specification: `reply` is the model's answer, or the text of the exception it raised. */
  function ParseIntentStep(v: StateView, reply: Result<string, string>, rd: Readers): StateView {
    if v.currentMessage.None? || reply.Err? then RouteIntent(v, None, false)
    else RouteIntent(v, Some(ParseIntentReply(reply.value, v.currentMessage.value, rd)), IsComplex(v.currentMessage.value))
  }

  /** The routing block of `llm_parse_intent`: records the intent and the next step. */
  method RecordIntent(st: ChatState, outcome: Option<ParsedIntent>, complex: bool)
    modifies st
    ensures st.View() == RouteIntent(old(st.View()), outcome, complex)
  {
    var v := st.View();
    if outcome.None? {
      st.keys := v.(parsedIntent := Some(FALLBACK_INTENT), nextStep := Some("llm_generate_response"),
                    stepCount := v.stepCount + 1);
    } else if complex && !v.reactMode {
      st.keys := v.(parsedIntent := outcome, reactMode := true, shouldUseReact := true,
                    nextStep := Some("switch_to_react"), stepCount := v.stepCount + 1);
    } else {
      var step := if IsMcpAction(outcome.value) then "llm_call_mcp_tool" else "llm_generate_response";
      st.keys := v.(parsedIntent := outcome, nextStep := Some(step), stepCount := v.stepCount + 1);
    }
  }

  /** `llm_parse_intent`: reads the reply, decides whether the request is complex, and routes. */
  method LlmParseIntent(st: ChatState, reply: Result<string, string>, rd: Readers)
    modifies st
    ensures st.View() == ParseIntentStep(old(st.View()), reply, rd)
  {
    var v := st.View();
    var outcome: Option<ParsedIntent> := None;
    var complex := false;
    if v.currentMessage.Some? && reply.Ok? {
      var intent := ParseLlmIntentResponse(reply.value, v.currentMessage.value, rd);
      complex := IsComplex(v.currentMessage.value);
      outcome := Some(intent);
    }
    RecordIntent(st, outcome, complex);
  }

  /**
   * Where `llm_parse_intent` sends the workflow: a failure to the plain
   * response, a complex request outside ReAct mode to ReAct, and otherwise a
   * TOOL_CALL intent to the tool call and any other to the plain response.
   */
  lemma IntentRoutes(v: StateView, outcome: Option<ParsedIntent>, complex: bool)
    ensures var w := RouteIntent(v, outcome, complex);
      && (outcome.None? ==> w.nextStep == Some("llm_generate_response"))
      && (outcome.Some? && complex && !v.reactMode ==> w.nextStep == Some("switch_to_react"))
      && (outcome.Some? && !(complex && !v.reactMode) ==>
            w.nextStep == Some(if IsMcpAction(outcome.value) then "llm_call_mcp_tool" else "llm_generate_response"))
  {
  }

  /** Routing records the intent (the fallback one after a failure) and counts one step. */
  lemma IntentRecorded(v: StateView, outcome: Option<ParsedIntent>, complex: bool)
    ensures var w := RouteIntent(v, outcome, complex);
      && w.stepCount == v.stepCount + 1
      && w.parsedIntent == Some(if outcome.None? then ParsedIntent(GeneralChat, 0.5, JObj([]), None, None) else outcome.value)
  {
  }

  /** Routing turns on the two ReAct flags only when it switches to ReAct, and leaves the conversation alone. */
  lemma IntentRoutingKeepsState(v: StateView, outcome: Option<ParsedIntent>, complex: bool)
    ensures var w := RouteIntent(v, outcome, complex);
      && (w.reactMode <==> v.reactMode || (outcome.Some? && complex))
      && (w.shouldUseReact <==> v.shouldUseReact || (outcome.Some? && complex && !v.reactMode))
      && w.messages == v.messages && w.toolCalls == v.toolCalls && w.response == v.response
      && w.error == v.error && w.reactIteration == v.reactIteration
  {
  }

  // ---------------------------------------------------------------- the tool node

  /**
   * `llm_call_mcp_tool` as a specification: without a parsed intent the
   * raised ValueError is recorded by `set_error`; otherwise the keyword
   * node's `call_mcp_tool` runs and the step moves on to the LLM's answer.
   */
  function LlmCallToolStep(v: StateView, outcome: Result<Json, string>, elapsedMs: int): StateView {
    if v.parsedIntent.None? then
      v.(error := Some("도구 호출 실패: 파싱된 의도가 없습니다"), success := false)
    else
      var w := KeywordNodes.CallToolStep(v, outcome, elapsedMs);
      w.(nextStep := Some("llm_generate_response"), stepCount := w.stepCount + 1)
  }

  /** `llm_call_mcp_tool`: `outcome` is what the client's `call_tool` returns or raises, `elapsedMs` how long it took. */
  method LlmCallMcpTool(st: ChatState, outcome: Result<Json, string>, elapsedMs: int)
    modifies st
    ensures st.View() == LlmCallToolStep(old(st.View()), outcome, elapsedMs)
  {
    var v := st.View();
    if v.parsedIntent.None? {
      st.keys := v.(error := Some("도구 호출 실패: 파싱된 의도가 없습니다"), success := false);
      return;
    }
    KeywordNodes.CallMcpTool(st, outcome, elapsedMs);
    var w := st.View();
    st.keys := w.(nextStep := Some("llm_generate_response"), stepCount := w.stepCount + 1);
  }

  /**
   * With a parsed intent the node always moves on to the LLM's answer and
   * leaves the conversation alone; without one only the error is recorded.
   */
  lemma LlmCallRoutes(v: StateView, outcome: Result<Json, string>, elapsedMs: int)
    ensures var w := LlmCallToolStep(v, outcome, elapsedMs);
      v.parsedIntent.None? ==>
        w.error == Some("도구 호출 실패: 파싱된 의도가 없습니다") && !w.success
        && w.nextStep == v.nextStep && w.stepCount == v.stepCount && w.toolCalls == v.toolCalls
    ensures var w := LlmCallToolStep(v, outcome, elapsedMs);
      v.parsedIntent.Some? ==> w.nextStep == Some("llm_generate_response") && w.messages == v.messages
  {
    if v.parsedIntent.Some? {
      var u := KeywordNodes.CallToolStep(v, outcome, elapsedMs);
      assert LlmCallToolStep(v, outcome, elapsedMs) == u.(nextStep := Some("llm_generate_response"), stepCount := u.stepCount + 1);
      KeywordNodes.CallKeepsMessages(v, outcome, elapsedMs);
    }
  }

  /** Arguments that cannot be read become the error message, and the node still counts its own step. */
  lemma LlmCallBadArguments(v: StateView, outcome: Result<Json, string>, elapsedMs: int)
    ensures var w := LlmCallToolStep(v, outcome, elapsedMs);
      v.parsedIntent.Some? && KeywordNodes.ToolArguments(v.parsedIntent.value).Err? ==>
        w.error == Some("도구 호출 실패: " + KeywordNodes.ToolArguments(v.parsedIntent.value).error) && !w.success
        && w.stepCount == v.stepCount + 1 && w.toolCalls == v.toolCalls && w.mcpCalls == v.mcpCalls
  {
    if v.parsedIntent.Some? {
      var args := KeywordNodes.ToolArguments(v.parsedIntent.value);
      if args.Err? {
        var u := KeywordNodes.CallToolStep(v, outcome, elapsedMs);
        assert u == v.(error := Some("도구 호출 실패: " + args.error), success := false);
        assert LlmCallToolStep(v, outcome, elapsedMs) == u.(nextStep := Some("llm_generate_response"), stepCount := u.stepCount + 1);
      }
    }
  }

  /** A call the delegate records is appended once to both lists and counts two steps, the delegate's and the node's own. */
  lemma LlmCallRecordedOnce(v: StateView, outcome: Result<Json, string>, elapsedMs: int)
    requires v.parsedIntent.Some? && KeywordNodes.ToolArguments(v.parsedIntent.value).Ok?
    ensures var w := LlmCallToolStep(v, outcome, elapsedMs);
      && w.nextStep == Some("llm_generate_response") && w.stepCount == v.stepCount + 2 && w.error == v.error
      && |w.toolCalls| == |v.toolCalls| + 1 && w.toolCalls[..|v.toolCalls|] == v.toolCalls
      && |w.mcpCalls| == |v.mcpCalls| + 1 && w.mcpCalls[..|v.mcpCalls|] == v.mcpCalls
      && w.currentMcpCall == Some(w.toolCalls[|v.toolCalls|])
  {
    KeywordNodes.CallRecordedOnce(v, outcome, elapsedMs);
    var u := KeywordNodes.CallToolStep(v, outcome, elapsedMs);
    assert LlmCallToolStep(v, outcome, elapsedMs) == u.(nextStep := Some("llm_generate_response"), stepCount := u.stepCount + 1);
  }

  // ---------------------------------------------------------------- token streaming

  /** The callback's batch size after `count` tokens: `max(2, min(5, 3 + count // 20))`. */
  function BatchSize(count: nat): (b: nat)
    ensures 2 <= b <= 5
    ensures count < 20 ==> b == 3
    ensures count >= 40 ==> b == 5
  {
    Max(2, Min(5, 3 + count / 20))
  }

  /** The callback's batch size never shrinks as tokens arrive. */
  lemma BatchSizeGrows(a: nat, b: nat)
    requires a <= b
    ensures BatchSize(a) <= BatchSize(b)
  {
    assert a / 20 <= b / 20;
  }

  /**
   * `StreamingCallbackHandler`: collects the streamed tokens and, every batch
   * of tokens, sends everything collected so far as one partial response.
   * The messages it would send are returned.
   */
  class StreamingCallback {
    const sessionId: string
    var currentContent: string
    var tokenCount: nat

    constructor(sessionId: string)
      ensures this.sessionId == sessionId && currentContent == "" && tokenCount == 0
    {
      this.sessionId := sessionId;
      currentContent := "";
      tokenCount := 0;
    }

    /** `on_llm_new_token`: a blank token is ignored; otherwise it is added, and the content is sent when the count reaches a batch. */
    method OnLlmNewToken(token: string, now: Instant) returns (published: seq<StreamMessage>)
      modifies this
      ensures AllSpace(token) ==> currentContent == old(currentContent) && tokenCount == old(tokenCount) && published == []
      ensures !AllSpace(token) ==> currentContent == old(currentContent) + token && tokenCount == old(tokenCount) + 1
      ensures published == (if !AllSpace(token) && tokenCount % BatchSize(tokenCount) == 0
                            then [CreatePartialResponseMessage(currentContent, sessionId, now)] else [])
    {
      published := [];
      StripEmptyIffAllSpace(token);
      if token != "" && Strip(token) != "" {
        currentContent := currentContent + token;
        tokenCount := tokenCount + 1;
        var batch := BatchSize(tokenCount);
        if tokenCount % batch == 0 {
          published := [CreatePartialResponseMessage(currentContent, sessionId, now)];
        }
      }
    }

    /** `on_llm_end`: whatever has been collected is sent once more, unless nothing was. */
    method OnLlmEnd(now: Instant) returns (published: seq<StreamMessage>)
      ensures published == (if currentContent != "" then [CreatePartialResponseMessage(currentContent, sessionId, now)] else [])
    {
      published := [];
      if currentContent != "" {
        published := [CreatePartialResponseMessage(currentContent, sessionId, now)];
      }
    }
  }

  /** When the word buffer of `llm_generate_response_with_streaming` is due after the `count`th token. */
  predicate WordDue(token: string, buffer: string, count: nat) {
    (|token| == 1 && ReactNodes.IsSeparator(token[0]))
    || |buffer| >= 12 + |token| / 2
    || count % (15 + count / 10) == 0
  }

  /** `should_send and word_buffer.strip()`: a due buffer is sent unless it is blank. */
  method WordSendDue(token: string, buffer: string, count: nat) returns (due: bool)
    ensures due <==> WordDue(token, buffer, count) && !AllSpace(buffer)
  {
    StripEmptyIffAllSpace(buffer);
    due := WordDue(token, buffer, count) && Strip(buffer) != "";
  }

  /** `not s.strip()`: the text is empty or all whitespace. */
  method IsBlank(s: string) returns (blank: bool)
    ensures blank <==> AllSpace(s)
  {
    StripEmptyIffAllSpace(s);
    blank := Strip(s) == "";
  }

  /**
   * The word-buffer loop of `llm_generate_response_with_streaming`: every
   * non-empty token is added to the reply and the buffer, a due buffer that is
   * not blank is sent as one word, and what is left at the end is sent as the
   * final word unless it is blank.  Returns the reply, the words sent and
   * the blank remainder that is never sent.
   */
  method StreamWordBuffer(tokens: seq<string>) returns (reply: string, sent: seq<string>, rest: string)
    ensures reply == ReactNodes.Concat(tokens)
    ensures ReactNodes.Concat(sent) + rest == reply
    ensures AllSpace(rest)
    ensures ReactNodes.NoneBlank(sent)
  {
    reply, sent := "", [];
    var buffer := "";
    var count: nat := 0;
    var i := 0;
    while i < |tokens|
      invariant 0 <= i <= |tokens|
      invariant reply == ReactNodes.Concat(tokens[..i])
      invariant ReactNodes.Concat(sent) + buffer == reply
      invariant ReactNodes.NoneBlank(sent)
    {
      var token := tokens[i];
      assert tokens[..i + 1] == tokens[..i] + [token];
      ReactNodes.ConcatSnoc(tokens[..i], token);
      if token != "" {
        ReactNodes.AppendAssoc(ReactNodes.Concat(sent), buffer, token);
        reply := reply + token;
        buffer := buffer + token;
        count := count + 1;
        var due := WordSendDue(token, buffer, count);
        if due {
          ReactNodes.ConcatSnoc(sent, buffer);
          ReactNodes.NoneBlankSnoc(sent, buffer);
          sent := sent + [buffer];
          buffer := "";
        }
      }
      i := i + 1;
    }
    assert tokens[..i] == tokens;
    var blank := IsBlank(buffer);
    if !blank {
      ReactNodes.ConcatSnoc(sent, buffer);
      ReactNodes.NoneBlankSnoc(sent, buffer);
      sent := sent + [buffer];
      rest := "";
    } else {
      rest := buffer;
    }
  }

  const WORD_METADATA: Dict := [("word_streaming", JBool(true)), ("cumulative", JBool(false))]

  /** A streamed word with the metadata the node puts on it; the last one is marked as the final word. */
  function WordMessage(word: string, sid: string, now: Instant, last: bool): (m: StreamMessage)
    ensures m.msgType == PartialResponse && m.content == Some(word) && m.sessionId == Some(sid)
  {
    CreatePartialResponseMessage(word, sid, now).(
      metadata := Some(WORD_METADATA + if last then [("final_word", JBool(true))] else []))
  }
}
