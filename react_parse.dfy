/*
 * The two text parsers of the ReAct loop (`workflows/react_nodes.py`): the
 * reading of the model's thought into a final answer, an action and a
 * thought, and the reading of an action into a tool name and its argument.
 *
 * The regular expressions are written out as the matches Python's `re`
 * finds for them.  `\s` is `Base.IsSpace`; `\w` and `\d` are narrowed as
 * `IsWordChar` and `IsAsciiDigit` say; `re.IGNORECASE` is ASCII case folding.
 */
module ReactParse {
  import opened Base

  /** The index of the first non-whitespace character at or after `i` (`\s*` is greedy). */
  function SkipSpace(s: string, i: nat): (j: nat)
    requires i <= |s|
    ensures i <= j <= |s|
    ensures forall k :: i <= k < j ==> IsSpace(s[k])
    ensures j < |s| ==> !IsSpace(s[j])
    decreases |s| - i
  {
    if i == |s| || !IsSpace(s[i]) then i else SkipSpace(s, i + 1)
  }

  /** The index of the first line feed at or after `i`, or `|s|`: where `.` stops without `re.DOTALL`. */
  function LineEnd(s: string, i: nat): (j: nat)
    requires i <= |s|
    ensures i <= j <= |s|
    ensures forall k :: i <= k < j ==> s[k] != '\n'
    ensures j < |s| ==> s[j] == '\n'
    decreases |s| - i
  {
    if i == |s| || s[i] == '\n' then i else LineEnd(s, i + 1)
  }

  /** `kw` occurs at `p` ignoring ASCII case. */
  predicate MatchCI(s: string, p: nat, kw: string) {
    p + |kw| <= |s| && Lower(s[p..p + |kw|]) == Lower(kw)
  }

  /** `kw1\s*kw2\s*...\s*:` starting at `p`: the index of its colon, if it matches there. */
  function HeaderAt(s: string, p: nat, kws: seq<string>): (c: Option<nat>)
    requires p <= |s|
    ensures c.Some? ==> p <= c.value < |s| && s[c.value] == ':'
    decreases |kws|
  {
    if kws == [] then (if p < |s| && s[p] == ':' then Some(p) else None)
    else if MatchCI(s, p, kws[0]) then HeaderAt(s, SkipSpace(s, p + |kws[0]|), kws[1..])
    else None
  }

  /** How the captured group after the header's `\s*` extends. */
  datatype GroupRule =
    | ToEnd        // `(.+)` with `re.DOTALL`
    | ToLineEnd    // `(.+)` without it
    | ToLookahead  // `(.+?)(?=행동|Action|최종|Final|$)` with `re.DOTALL`

  /** Where the lazy thought group may stop: before a marker, at the end, or before a final line feed. */
  predicate StopAt(s: string, e: nat) {
    e == |s| || (e + 1 == |s| && s[e] == '\n')
    || MatchCI(s, e, "행동") || MatchCI(s, e, "action") || MatchCI(s, e, "최종") || MatchCI(s, e, "final")
  }

  /** The first place at or after `e` where the lazy group may stop. */
  function FirstStop(s: string, e: nat): (f: nat)
    requires e <= |s|
    ensures e <= f <= |s| && StopAt(s, f)
    ensures forall k :: e <= k < f ==> !StopAt(s, k)
    decreases |s| - e
  {
    if StopAt(s, e) then e else FirstStop(s, e + 1)
  }

  /** Some character at or after `from` is not a line feed. */
  predicate HasNonNewline(s: string, from: nat) {
    exists k :: from <= k < |s| && s[k] != '\n'
  }

  /** `\s*(.+)` without `re.DOTALL`, stripped: the rest of the line after the
      whitespace, or, when only whitespace follows, a whitespace character the
      engine backtracks to, which strips to "". */
  function LineGroup(s: string, from: nat): (g: Option<string>)
    requires from <= |s|
    ensures g.Some? ==> from < |s|
  {
    var a := SkipSpace(s, from);
    if a < |s| then Some(Strip(s[a..LineEnd(s, a)]))
    else if HasNonNewline(s, from) then Some("")
    else None
  }

  /** `\s*(.+)` with `re.DOTALL`, stripped: the greedy group runs to the end. */
  function DotAllGroup(s: string, from: nat): (g: Option<string>)
    requires from <= |s|
    ensures g.Some? ==> from < |s|
  {
    if from < |s| then Some(Strip(s[from..])) else None
  }

  /** `\s*(.+?)(?=행동|Action|최종|Final|$)` with `re.DOTALL`, stripped. */
  function LazyGroup(s: string, from: nat): (g: Option<string>)
    requires from <= |s|
    ensures g.Some? ==> from < |s|
  {
    var a := SkipSpace(s, from);
    if a < |s| then Some(Strip(s[a..FirstStop(s, a + 1)]))
    else if from < |s| then Some("")
    else None
  }

  /** The stripped group captured after a header whose colon sits just before `from`. */
  function GroupAfter(s: string, from: nat, rule: GroupRule): (g: Option<string>)
    requires from <= |s|
    ensures g.Some? ==> from < |s|
  {
    match rule
    case ToEnd => DotAllGroup(s, from)
    case ToLineEnd => LineGroup(s, from)
    case ToLookahead => LazyGroup(s, from)
  }

  /** The stripped group the pattern captures when it matches at `p`. */
  function GroupAt(s: string, p: nat, kws: seq<string>, rule: GroupRule): Option<string>
    requires p <= |s|
  {
    var c := HeaderAt(s, p, kws);
    if c.Some? then GroupAfter(s, c.value + 1, rule) else None
  }

  /** The first index at or after `p` holding a value. */
  function FirstSome(ms: seq<Option<string>>, p: nat): (r: Option<nat>)
    requires p <= |ms|
    ensures r.Some? ==> p <= r.value < |ms| && ms[r.value].Some?
    ensures r.Some? ==> forall q :: p <= q < r.value ==> ms[q].None?
    ensures r.None? ==> forall q :: p <= q < |ms| ==> ms[q].None?
    decreases |ms| - p
  {
    if p == |ms| then None
    else if ms[p].Some? then Some(p)
    else FirstSome(ms, p + 1)
  }

  /** The values of `f` at `0..n`, in order. */
  function Table(f: nat -> Option<string>, n: nat): (ms: seq<Option<string>>)
    ensures |ms| == n
  {
    if n == 0 then [] else Table(f, n - 1) + [f(n - 1)]
  }

  lemma {:induction false} TableAt(f: nat -> Option<string>, n: nat, q: nat)
    requires q < n
    ensures Table(f, n)[q] == f(q)
  {
    if q < n - 1 {
      TableAt(f, n - 1, q);
    }
  }

  /** What the pattern captures at each start position. */
  function MatchFn(s: string, kws: seq<string>, rule: GroupRule): nat -> Option<string> {
    (q: nat) => if q <= |s| then GroupAt(s, q, kws, rule) else None
  }

  /** `re.search`: the leftmost position where the pattern matches. */
  function Search(s: string, kws: seq<string>, rule: GroupRule): (r: Option<nat>)
    ensures r.Some? ==> r.value <= |s|
  {
    FirstSome(Table(MatchFn(s, kws, rule), |s| + 1), 0)
  }

  /** The search finds the leftmost match, and finds none only when there is none. */
  lemma {:induction false} SearchLeftmost(s: string, kws: seq<string>, rule: GroupRule)
    ensures var r := Search(s, kws, rule);
      (r.Some? ==> GroupAt(s, r.value, kws, rule).Some?
                   && forall q :: 0 <= q < r.value ==> GroupAt(s, q, kws, rule).None?)
      && (r.None? ==> forall q :: 0 <= q <= |s| ==> GroupAt(s, q, kws, rule).None?)
  {
    var ms := Table(MatchFn(s, kws, rule), |s| + 1);
    forall q | 0 <= q <= |s| ensures ms[q] == GroupAt(s, q, kws, rule) {
      TableAt(MatchFn(s, kws, rule), |s| + 1, q);
    }
  }

  /** The stripped group of the leftmost match of the pattern in `s`. */
  function Capture(s: string, kws: seq<string>, rule: GroupRule): Option<string> {
    var r := Search(s, kws, rule);
    if r.Some? then GroupAt(s, r.value, kws, rule) else None
  }

  /** The pattern captures something exactly when it matches somewhere. */
  lemma CaptureIffMatch(s: string, kws: seq<string>, rule: GroupRule)
    ensures Capture(s, kws, rule).Some? <==> exists q :: 0 <= q <= |s| && GroupAt(s, q, kws, rule).Some?
  {
    SearchLeftmost(s, kws, rule);
  }

  /** A pattern that matches at the start captures what it matches there. */
  lemma CaptureAtStart(s: string, kws: seq<string>, rule: GroupRule)
    requires GroupAt(s, 0, kws, rule).Some?
    ensures Capture(s, kws, rule) == GroupAt(s, 0, kws, rule)
  {
    SearchLeftmost(s, kws, rule);
  }

  /** A pattern can match only where its first keyword occurs. */
  lemma MatchNeedsKeyword(s: string, q: nat, kws: seq<string>, rule: GroupRule)
    requires kws != [] && q <= |s| && GroupAt(s, q, kws, rule).Some?
    ensures MatchCI(s, q, kws[0])
  {
  }

  /** A pattern whose first keyword never occurs captures nothing. */
  lemma {:induction false} NoKeywordNoCapture(s: string, kws: seq<string>, rule: GroupRule)
    requires kws != [] && forall q :: 0 <= q <= |s| ==> !MatchCI(s, q, kws[0])
    ensures Capture(s, kws, rule).None?
  {
    forall q | 0 <= q <= |s| ensures GroupAt(s, q, kws, rule).None? {
      if GroupAt(s, q, kws, rule).Some? {
        MatchNeedsKeyword(s, q, kws, rule);
      }
    }
    SearchLeftmost(s, kws, rule);
  }

  /** The keys `_parse_thought_response` fills in; a missing key is `None`. */
  datatype ThoughtParse = ThoughtParse(finalAnswer: Option<string>, action: Option<string>, thought: Option<string>)

  /** The three final-answer patterns, tried in order: `최종 답변:`, `Final Answer:`, `답변:`. */
  function FinalAnswerOf(s: string): Option<string> {
    var f1 := Capture(s, ["최종", "답변"], ToEnd);
    var f2 := Capture(s, ["final", "answer"], ToEnd);
    if f1.Some? then f1 else if f2.Some? then f2 else Capture(s, ["답변"], ToEnd)
  }

  /**
   * `_parse_thought_response`: a final answer, if any pattern finds one, is
   * the whole result; otherwise the first action pattern that matches gives
   * the action and the first thought pattern that matches gives the thought.
   */
  function ParseThought(s: string): ThoughtParse {
    var fa := FinalAnswerOf(s);
    if fa.Some? then ThoughtParse(fa, None, None)
    else
      var a1 := Capture(s, ["행동"], ToLineEnd);
      var t1 := Capture(s, ["생각"], ToLookahead);
      ThoughtParse(None,
                   if a1.Some? then a1 else Capture(s, ["action"], ToLineEnd),
                   if t1.Some? then t1 else Capture(s, ["thought"], ToLookahead))
  }

  /** A final answer excludes the other keys; without one, the action and the thought are
      present exactly when one of their patterns matches. */
  lemma ParseThoughtKeys(s: string)
    ensures var r := ParseThought(s);
      (r.finalAnswer.Some? ==> r.action.None? && r.thought.None?)
      && (r.finalAnswer.None? <==>
            Capture(s, ["최종", "답변"], ToEnd).None? && Capture(s, ["final", "answer"], ToEnd).None?
            && Capture(s, ["답변"], ToEnd).None?)
      && (r.finalAnswer.None? ==>
            (r.action.Some? <==> Capture(s, ["행동"], ToLineEnd).Some? || Capture(s, ["action"], ToLineEnd).Some?)
            && (r.thought.Some? <==> Capture(s, ["생각"], ToLookahead).Some? || Capture(s, ["thought"], ToLookahead).Some?))
  {
  }

  /** `s` has no case-insensitive occurrence of `kw`. */
  predicate Lacks(s: string, kw: string) {
    forall q :: 0 <= q <= |s| ==> !MatchCI(s, q, kw)
  }

  /** A single line with no surrounding whitespace. */
  predicate IsLine(x: string) {
    x != [] && !IsSpace(x[0]) && !IsSpace(x[|x| - 1]) && '\n' !in x
  }

  /** Stripping a string that neither starts nor ends with whitespace keeps it. */
  lemma StripKeepsTrimmed(x: string)
    requires x == [] || (!IsSpace(x[0]) && !IsSpace(x[|x| - 1]))
    ensures Strip(x) == x
  {
    if x != [] {
      assert LStrip(x) == x;
      assert RStrip(x) == x;
    }
  }

  /** The line feed-free text after position `a` up to the end. */
  lemma LineEndOfLine(s: string, a: nat)
    requires a <= |s| && '\n' !in s[a..]
    ensures LineEnd(s, a) == |s|
  {
  }

  /**
   * The reply shape the think prompt asks for, `행동: <action>`, is read back
   * as that action, provided the text names no other marker.
   */
  lemma {:induction false} ActionLineParsed(x: string)
    requires IsLine(x)
    requires var s := "행동: " + x;
      Lacks(s, "최종") && Lacks(s, "final") && Lacks(s, "답변") && Lacks(s, "생각") && Lacks(s, "thought")
    ensures ParseThought("행동: " + x) == ThoughtParse(None, Some(x), None)
  {
    var s := "행동: " + x;
    NoKeywordNoCapture(s, ["최종", "답변"], ToEnd);
    NoKeywordNoCapture(s, ["final", "answer"], ToEnd);
    NoKeywordNoCapture(s, ["답변"], ToEnd);
    NoKeywordNoCapture(s, ["생각"], ToLookahead);
    NoKeywordNoCapture(s, ["thought"], ToLookahead);
    ActionCaptured(x);
    assert FinalAnswerOf(s).None?;
  }

  /** The `행동:` pattern captures the line after the marker. */
  lemma {:induction false} ActionCaptured(x: string)
    requires IsLine(x)
    ensures Capture("행동: " + x, ["행동"], ToLineEnd) == Some(x)
  {
    var s := "행동: " + x;
    assert s[0..2] == "행동";
    assert MatchCI(s, 0, "행동");
    assert SkipSpace(s, 2) == 2;
    assert HeaderAt(s, 0, ["행동"]) == Some(2);
    assert s[3..] == " " + x;
    LineGroupOfLine(s, 3, x);
    CaptureAtStart(s, ["행동"], ToLineEnd);
  }

  /** `최종 답변: <answer>` is read as the answer, whatever else the answer contains. */
  lemma {:induction false} FinalAnswerLineParsed(x: string)
    requires x != [] && !IsSpace(x[0])
    ensures ParseThought("최종 답변: " + x) == ThoughtParse(Some(Strip(x)), None, None)
  {
    var s := "최종 답변: " + x;
    assert s[0..2] == "최종";
    assert MatchCI(s, 0, "최종");
    assert SkipSpace(s, 2) == 3;
    assert s[3..5] == "답변";
    assert MatchCI(s, 3, "답변");
    assert SkipSpace(s, 5) == 5;
    assert HeaderAt(s, 0, ["최종", "답변"]) == Some(5);
    assert s[6..] == " " + x;
    assert LStrip(" " + x) == LStrip(x) by {
      assert (" " + x)[1..] == x;
    }
    CaptureAtStart(s, ["최종", "답변"], ToEnd);
  }

  /** `\w`: ASCII letters, digits and `_`, Hangul jamo and syllables, and CJK ideographs. */
  predicate IsWordChar(c: char) {
    ('a' <= c <= 'z') || ('A' <= c <= 'Z') || IsAsciiDigit(c) || c == '_'
    || ('\U{1100}' <= c <= '\U{11FF}') || ('\U{3130}' <= c <= '\U{318F}')
    || ('\U{4E00}' <= c <= '\U{9FFF}') || ('\U{AC00}' <= c <= '\U{D7A3}')
  }

  /** The end of the run of `\w` characters starting at `i`. */
  function WordEnd(s: string, i: nat): (j: nat)
    requires i <= |s|
    ensures i <= j <= |s|
    ensures forall k :: i <= k < j ==> IsWordChar(s[k])
    ensures j < |s| ==> !IsWordChar(s[j])
    decreases |s| - i
  {
    if i == |s| || !IsWordChar(s[i]) then i else WordEnd(s, i + 1)
  }

  /** The end of the run of `\d` characters starting at `i`. */
  function DigitEnd(s: string, i: nat): (j: nat)
    requires i <= |s|
    ensures i <= j <= |s|
    ensures forall k :: i <= k < j ==> IsAsciiDigit(s[k])
    decreases |s| - i
  {
    if i == |s| || !IsAsciiDigit(s[i]) then i else DigitEnd(s, i + 1)
  }

  /** A tool name as `(\w+)` captures it. */
  predicate IsToolName(w: string) {
    w != [] && forall k :: 0 <= k < |w| ==> IsWordChar(w[k])
  }

  /** `(\w+)\s*:\s*(.+)` matched at the start of `s`: the name and the stripped argument. */
  function ColonCall(s: string): (r: Option<(string, string)>)
    ensures r.Some? ==> IsToolName(r.value.0)
  {
    var k := WordEnd(s, 0);
    var j := SkipSpace(s, k);
    if k > 0 && j < |s| && s[j] == ':' then
      var g := LineGroup(s, j + 1);
      if g.Some? then Some((s[..k], g.value)) else None
    else None
  }

  /** The last `)` in `s[lo..hi]`, if any. */
  function LastClose(s: string, lo: nat, hi: nat): (j: Option<nat>)
    requires lo <= hi <= |s|
    ensures j.Some? ==> lo <= j.value < hi && s[j.value] == ')'
    ensures j.Some? ==> forall k :: j.value < k < hi ==> s[k] != ')'
    ensures j.None? ==> forall k :: lo <= k < hi ==> s[k] != ')'
    decreases hi - lo
  {
    if lo == hi then None
    else if s[hi - 1] == ')' then Some(hi - 1)
    else LastClose(s, lo, hi - 1)
  }

  /** `(\w+)\((.+)\)` matched at the start: the greedy group ends at the last `)` of the line. */
  function ParenCall(s: string): (r: Option<(string, string)>)
    ensures r.Some? ==> IsToolName(r.value.0)
  {
    var k := WordEnd(s, 0);
    if k > 0 && k < |s| && s[k] == '(' then
      var lineEnd := LineEnd(s, k + 1);
      var close := if k + 2 <= lineEnd then LastClose(s, k + 2, lineEnd) else None;
      if close.Some? then Some((s[..k], Strip(s[k + 1..close.value]))) else None
    else None
  }

  /**
   * `_execute_action`'s patterns, tried in order on the stripped action with
   * `re.match`: `name: arg`, `name(arg)`, `1. name: arg` and `- name: arg`.
   * The argument comes back stripped, which is all `_call_mcp_tool` uses of it.
   */
  function ParseAction(s: string): (r: Option<(string, string)>)
    ensures r.Some? ==> IsToolName(r.value.0)
  {
    var d := DigitEnd(s, 0);
    var c1 := ColonCall(s);
    var c2 := ParenCall(s);
    if c1.Some? then c1
    else if c2.Some? then c2
    else if d > 0 && d < |s| && s[d] == '.' then ColonCall(s[SkipSpace(s, d + 1)..])
    else if |s| > 0 && s[0] == '-' then ColonCall(s[SkipSpace(s, 1)..])
    else None
  }

  /** The prompt's `tool: argument` form reads back as that tool and argument. */
  lemma {:induction false} ToolLineParsed(w: string, a: string)
    requires IsToolName(w) && IsLine(a)
    ensures ColonCall(w + ": " + a) == Some((w, a))
    ensures ParseAction(w + ": " + a) == Some((w, a))
  {
    var s := w + ": " + a;
    var j := |w|;
    assert WordEnd(s, 0) == j by {
      forall k | 0 <= k < j ensures IsWordChar(s[k]) {
        assert s[k] == w[k];
      }
      WordEndOver(s, 0, j);
    }
    assert SkipSpace(s, j) == j && s[j] == ':';
    assert s[j + 1..] == " " + a;
    LineGroupOfLine(s, j + 1, a);
    assert s[..j] == w;
    ColonCallFirst(s);
  }

  /** The plain `tool: argument` pattern is tried first. */
  lemma ColonCallFirst(s: string)
    requires ColonCall(s).Some?
    ensures ParseAction(s) == ColonCall(s)
  {
  }

  /** `\s*(.+)` over a last line: the stripped rest of the text. */
  lemma LineGroupToEnd(s: string, from: nat, a: nat)
    requires from <= a < |s| && a == SkipSpace(s, from) && '\n' !in s[a..]
    ensures LineGroup(s, from) == Some(Strip(s[a..]))
  {
    LineEndOfLine(s, a);
    assert s[a..LineEnd(s, a)] == s[a..];
  }

  /** A space and then a single line, up to the end of the text, is captured as that line. */
  lemma {:induction false} LineGroupOfLine(s: string, from: nat, x: string)
    requires from <= |s| && s[from..] == " " + x && IsLine(x)
    ensures LineGroup(s, from) == Some(x)
  {
    assert s[from] == ' ';
    assert s[from + 1] == x[0];
    assert SkipSpace(s, from) == from + 1;
    assert s[from + 1..] == x;
    LineGroupToEnd(s, from, from + 1);
    StripKeepsTrimmed(x);
  }

  /** A list item `- tool: argument` reads back the same way. */
  lemma {:induction false} ListItemParsed(w: string, a: string)
    requires IsToolName(w) && IsLine(a)
    ensures ParseAction("- " + w + ": " + a) == Some((w, a))
  {
    var s := "- " + w + ": " + a;
    assert WordEnd(s, 0) == 0;
    assert DigitEnd(s, 0) == 0;
    assert ColonCall(s).None?;
    assert ParenCall(s).None?;
    assert SkipSpace(s, 1) == 2 by {
      assert s[2] == w[0];
    }
    assert s[2..] == w + ": " + a;
    ToolLineParsed(w, a);
  }

  /** A run of word characters from `i` to `j` followed by a non-word character ends at `j`. */
  lemma {:induction false} WordEndOver(s: string, i: nat, j: nat)
    requires i <= j < |s| && !IsWordChar(s[j])
    requires forall k :: i <= k < j ==> IsWordChar(s[k])
    ensures WordEnd(s, i) == j
    decreases j - i
  {
    if i < j {
      WordEndOver(s, i + 1, j);
    }
  }
}
