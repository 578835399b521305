/*
 * JSON-like Python values (None, bool, int, str, list, dict) as the host
 * passes them around, Python's `json.dumps(value, ensure_ascii=False)` text
 * for them, and Python's `str(value)` for tool results.
 */
module Json {
  import opened Base

  /** A Python value built from dicts, lists, strings, ints, bools and None.
      A dict keeps its insertion order as a sequence of (key, value) pairs. */
  datatype Json =
    | JNull
    | JBool(b: bool)
    | JInt(i: int)
    | JStr(s: string)
    | JArr(items: seq<Json>)
    | JObj(fields: seq<(string, Json)>)

  /** The value stored under `key` in a dict given as its (key, value) pairs. */
  function Get(fields: seq<(string, Json)>, key: string): (r: Option<Json>)
    ensures r.Some? <==> exists k :: 0 <= k < |fields| && fields[k].0 == key
    ensures r.Some? ==> exists k :: 0 <= k < |fields| && fields[k] == (key, r.value)
  {
    if fields == [] then None
    else if fields[0].0 == key then Some(fields[0].1)
    else
      var r := Get(fields[1..], key);
      assert forall k :: 1 <= k < |fields| ==> fields[k] == fields[1..][k - 1];
      r
  }

  /** `dict.get(key, default)` on a value that is a dict. */
  function GetOr(fields: seq<(string, Json)>, key: string, default: Json): Json {
    Get(fields, key).GetOr(default)
  }

  /** The first pair holding a key gives its value. */
  lemma {:induction false} GetAt(fields: seq<(string, Json)>, k: nat)
    requires k < |fields| && forall j :: 0 <= j < k ==> fields[j].0 != fields[k].0
    ensures Get(fields, fields[k].0) == Some(fields[k].1)
  {
    if k > 0 {
      GetAt(fields[1..], k - 1);
    }
  }

  /** No key occurs twice, as in every Python dict. */
  predicate DistinctKeys(fields: seq<(string, Json)>) {
    forall a, b :: 0 <= a < b < |fields| ==> fields[a].0 != fields[b].0
  }

  /** The keys of a dict, in insertion order. */
  function Keys(fields: seq<(string, Json)>): (ks: seq<string>)
    ensures |ks| == |fields| && forall k :: 0 <= k < |ks| ==> ks[k] == fields[k].0
  {
    seq(|fields|, k requires 0 <= k < |fields| => fields[k].0)
  }

  /** `d[key] = value`: replaces the value of an existing key in place, or appends the key. */
  function DictSet(fields: seq<(string, Json)>, key: string, value: Json): (r: seq<(string, Json)>)
    ensures Get(r, key) == Some(value)
    ensures forall other :: other != key ==> Get(r, other) == Get(fields, other)
  {
    if fields == [] then [(key, value)]
    else if fields[0].0 == key then [(key, value)] + fields[1..]
    else
      var rest := DictSet(fields[1..], key, value);
      assert forall other :: other != fields[0].0 ==> Get([fields[0]] + rest, other) == Get(rest, other);
      [fields[0]] + rest
  }

  /** Setting a key keeps the keys of a dict distinct. */
  lemma {:induction false} DictSetDistinct(fields: seq<(string, Json)>, key: string, value: Json)
    requires DistinctKeys(fields)
    ensures DistinctKeys(DictSet(fields, key, value))
  {
    if fields != [] && fields[0].0 != key {
      DictSetDistinct(fields[1..], key, value);
      var rest := DictSet(fields[1..], key, value);
      assert Get(fields[1..], fields[0].0).None? by {
        forall k | 0 <= k < |fields[1..]| ensures fields[1..][k].0 != fields[0].0 {
          assert fields[1..][k] == fields[k + 1];
        }
      }
      assert Get(rest, fields[0].0).None?;
      assert DictSet(fields, key, value) == [fields[0]] + rest;
    } else if fields != [] {
      assert DictSet(fields, key, value) == [(key, value)] + fields[1..];
      assert forall k :: 0 <= k < |fields| ==> DictSet(fields, key, value)[k].0 == fields[k].0;
    }
  }

  /** `d.update(updates)`: sets each key of `updates`, in order. */
  function DictUpdate(fields: seq<(string, Json)>, updates: seq<(string, Json)>): seq<(string, Json)>
    decreases |updates|
  {
    if updates == [] then fields
    else DictUpdate(DictSet(fields, updates[0].0, updates[0].1), updates[1..])
  }

  /** After `d.update(u)` a key holds its value in `u` if it has one there, and its old value otherwise. */
  lemma {:induction false} DictUpdateGet(fields: seq<(string, Json)>, updates: seq<(string, Json)>, key: string)
    requires DistinctKeys(updates)
    ensures Get(DictUpdate(fields, updates), key) ==
      (if Get(updates, key).Some? then Get(updates, key) else Get(fields, key))
    decreases |updates|
  {
    if updates != [] {
      var f1 := DictSet(fields, updates[0].0, updates[0].1);
      DictUpdateGet(f1, updates[1..], key);
      if updates[0].0 == key {
        assert Get(updates[1..], key).None? by {
          forall k | 0 <= k < |updates[1..]| ensures updates[1..][k].0 != key {
            assert updates[1..][k] == updates[k + 1];
          }
        }
      }
    }
  }

  /** The name Python gives the type of a value, as its error messages print it. */
  function PyTypeName(j: Json): string {
    match j
    case JNull => "NoneType"
    case JBool(_) => "bool"
    case JInt(_) => "int"
    case JStr(_) => "str"
    case JArr(_) => "list"
    case JObj(_) => "dict"
  }

  /** Python truthiness: None, False, 0, "", [] and {} are false. */
  predicate Truthy(j: Json) {
    match j
    case JNull => false
    case JBool(b) => b
    case JInt(i) => i != 0
    case JStr(s) => s != []
    case JArr(items) => items != []
    case JObj(fields) => fields != []
  }

  /** A character below U+0020; the JSON encoder never lets one through unescaped. */
  predicate IsControl(c: char) { c < ' ' }

  function HexDigit(d: nat): char
    requires d < 16
  {
    if d < 10 then ('0' as int + d) as char else ('a' as int + d - 10) as char
  }

  /** The JSON string escape of one character, as `json.dumps(..., ensure_ascii=False)` writes it. */
  function EscapeChar(c: char): (e: string)
    ensures |e| >= 1
    ensures forall i :: 0 <= i < |e| ==> !IsControl(e[i])
    ensures |e| == 1 <==> !IsControl(c) && c != '"' && c != '\\'
  {
    if c == '"' then "\\\""
    else if c == '\\' then "\\\\"
    else if c == '\n' then "\\n"
    else if c == '\r' then "\\r"
    else if c == '\t' then "\\t"
    else if c == '\U{8}' then "\\b"
    else if c == '\U{C}' then "\\f"
    else if IsControl(c) then "\\u00" + [HexDigit(c as int / 16), HexDigit(c as int % 16)]
    else [c]
  }

  function EscapeString(s: string): (e: string)
    ensures forall i :: 0 <= i < |e| ==> !IsControl(e[i])
  {
    if s == [] then [] else EscapeChar(s[0]) + EscapeString(s[1..])
  }

  function Quote(s: string): string {
    "\"" + EscapeString(s) + "\""
  }

  /** `json.dumps(j, ensure_ascii=False)` with the default separators `", "` and `": "`. */
  function Dumps(j: Json): string
    decreases j
  {
    match j
    case JNull => "null"
    case JBool(b) => if b then "true" else "false"
    case JInt(i) => IntToString(i)
    case JStr(s) => Quote(s)
    case JArr(items) =>
      "[" + Join(", ", seq(|items|, k requires 0 <= k < |items| => Dumps(items[k]))) + "]"
    case JObj(fields) =>
      "{" + Join(", ", seq(|fields|, k requires 0 <= k < |fields| =>
                              Quote(fields[k].0) + ": " + Dumps(fields[k].1))) + "}"
  }

  predicate NoControl(s: string) {
    forall i :: 0 <= i < |s| ==> !IsControl(s[i])
  }

  lemma {:induction false} JoinNoControl(sep: string, parts: seq<string>)
    requires NoControl(sep)
    requires forall k :: 0 <= k < |parts| ==> NoControl(parts[k])
    ensures NoControl(Join(sep, parts))
  {
    if |parts| > 1 {
      JoinNoControl(sep, parts[1..]);
      var rest := Join(sep, parts[1..]);
      assert Join(sep, parts) == parts[0] + sep + rest;
    }
  }

  /** The JSON text of any value is free of control characters, so in particular
      of the line breaks that delimit server-sent events. */
  lemma {:induction false} DumpsNoControl(j: Json)
    ensures NoControl(Dumps(j))
    decreases j
  {
    match j
    case JNull =>
    case JBool(b) =>
    case JInt(i) =>
    case JStr(s) =>
    case JArr(items) =>
      var parts := seq(|items|, k requires 0 <= k < |items| => Dumps(items[k]));
      forall k | 0 <= k < |items| ensures NoControl(parts[k]) {
        DumpsNoControl(items[k]);
      }
      JoinNoControl(", ", parts);
    case JObj(fields) =>
      var parts := seq(|fields|, k requires 0 <= k < |fields| =>
                          Quote(fields[k].0) + ": " + Dumps(fields[k].1));
      forall k | 0 <= k < |fields| ensures NoControl(parts[k]) {
        DumpsNoControl(fields[k].1);
      }
      JoinNoControl(", ", parts);
  }

  function HexValue(c: char): Option<nat> {
    if '0' <= c <= '9' then Some(c as int - '0' as int)
    else if 'a' <= c <= 'f' then Some(c as int - 'a' as int + 10)
    else None
  }

  /** The character a two-character escape `\x` stands for. */
  function ShortEscape(x: char): Option<char> {
    if x == '"' then Some('"')
    else if x == '\\' then Some('\\')
    else if x == 'n' then Some('\n')
    else if x == 'r' then Some('\r')
    else if x == 't' then Some('\t')
    else if x == 'b' then Some('\U{8}')
    else if x == 'f' then Some('\U{C}')
    else None
  }

  /** The decoder side of `EscapeString`: reads one escaped string back. */
  function Unescape(e: string): Option<string>
    decreases |e|
  {
    if e == [] then Some([])
    else if e[0] != '\\' then
      var rest := Unescape(e[1..]);
      if rest.Some? then Some([e[0]] + rest.value) else None
    else if |e| < 2 then None
    else
      var c := e[1];
      var decoded: Option<(char, nat)> :=
        if ShortEscape(c).Some? then Some((ShortEscape(c).value, 2))
        else if c == 'u' && |e| >= 6 && e[2] == '0' && e[3] == '0'
                && HexValue(e[4]).Some? && HexValue(e[5]).Some?
                && HexValue(e[4]).value * 16 + HexValue(e[5]).value < 0x20
        then Some(((HexValue(e[4]).value * 16 + HexValue(e[5]).value) as char, 6))
        else None;
      if decoded.None? then None
      else
        var rest := Unescape(e[decoded.value.1..]);
        if rest.Some? then Some([decoded.value.0] + rest.value) else None
  }

  /** A character written as itself is read back as itself. */
  lemma UnescapePlain(c: char, tail: string)
    requires c != '\\'
    ensures Unescape([c] + tail) ==
      (if Unescape(tail).Some? then Some([c] + Unescape(tail).value) else None)
  {
    assert ([c] + tail)[1..] == tail;
  }

  /** A two-character escape `\x` is read back as the character it stands for. */
  lemma UnescapeShort(c: char, x: char, tail: string)
    requires ShortEscape(x) == Some(c)
    ensures Unescape(['\\', x] + tail) ==
      (if Unescape(tail).Some? then Some([c] + Unescape(tail).value) else None)
  {
    assert (['\\', x] + tail)[2..] == tail;
  }

  /** A `\u00hh` escape is read back as the control character it encodes. */
  lemma UnescapeHex(c: char, tail: string)
    requires IsControl(c)
    ensures Unescape("\\u00" + [HexDigit(c as int / 16), HexDigit(c as int % 16)] + tail) ==
      (if Unescape(tail).Some? then Some([c] + Unescape(tail).value) else None)
  {
    var hi, lo := c as int / 16, c as int % 16;
    var e := "\\u00" + [HexDigit(hi), HexDigit(lo)] + tail;
    assert HexValue(HexDigit(hi)) == Some(hi);
    assert HexValue(HexDigit(lo)) == Some(lo);
    assert e[2] == '0' && e[3] == '0' && e[4] == HexDigit(hi) && e[5] == HexDigit(lo);
    assert e[6..] == tail;
  }

  lemma UnescapeEscapeChar(c: char, tail: string)
    ensures Unescape(EscapeChar(c) + tail) ==
      (if Unescape(tail).Some? then Some([c] + Unescape(tail).value) else None)
  {
    if c == '"' { UnescapeShort(c, '"', tail); }
    else if c == '\\' { UnescapeShort(c, '\\', tail); }
    else if c == '\n' { UnescapeShort(c, 'n', tail); }
    else if c == '\r' { UnescapeShort(c, 'r', tail); }
    else if c == '\t' { UnescapeShort(c, 't', tail); }
    else if c == '\U{8}' { UnescapeShort(c, 'b', tail); }
    else if c == '\U{C}' { UnescapeShort(c, 'f', tail); }
    else if IsControl(c) { UnescapeHex(c, tail); }
    else { UnescapePlain(c, tail); }
  }

  /** Decoding the escaped text of a string gives the string back. */
  lemma {:induction false} UnescapeEscapeString(s: string)
    ensures Unescape(EscapeString(s)) == Some(s)
  {
    if s != [] {
      UnescapeEscapeString(s[1..]);
      UnescapeEscapeChar(s[0], EscapeString(s[1..]));
      assert [s[0]] + s[1..] == s;
    }
  }

  /** The quote `repr` puts around a string: `'`, unless the string holds `'` and no `"`. */
  function ReprQuote(s: string): char {
    if '\'' in s && '"' !in s then '"' else '\''
  }

  /** One character of a string's `repr` between the quotes `q`: backslash, the quote and the
      ASCII control characters are escaped, everything else is kept. */
  function ReprChar(c: char, q: char): (e: string)
    requires q == '\'' || q == '"'
    ensures |e| >= 1 && '\n' !in e && '\r' !in e
    ensures c != '\\' && c != q && ' ' <= c && c as int != 127 ==> e == [c]
  {
    if c == '\\' then "\\\\"
    else if c == q then ['\\', q]
    else if c == '\n' then "\\n"
    else if c == '\r' then "\\r"
    else if c == '\t' then "\\t"
    else if c < ' ' || c as int == 127 then "\\x" + [HexDigit(c as int / 16), HexDigit(c as int % 16)]
    else [c]
  }

  function ReprBody(s: string, q: char): string
    requires q == '\'' || q == '"'
  {
    if s == [] then "" else ReprBody(s[..|s| - 1], q) + ReprChar(s[|s| - 1], q)
  }

  /** Python `repr(s)` of a string. */
  function ReprString(s: string): (r: string)
    ensures |r| >= 2 && r[0] == ReprQuote(s) && r[|r| - 1] == ReprQuote(s)
  {
    [ReprQuote(s)] + ReprBody(s, ReprQuote(s)) + [ReprQuote(s)]
  }

  /** A string without backslashes, quotes or control characters is written between single quotes as it is. */
  lemma {:induction false} ReprPlain(s: string)
    requires forall i :: 0 <= i < |s| ==> s[i] != '\\' && s[i] != '\'' && s[i] != '"' && ' ' <= s[i] && s[i] as int != 127
    ensures ReprString(s) == "'" + s + "'"
  {
    assert ReprQuote(s) == '\'';
    PlainBody(s);
  }

  lemma {:induction false} PlainBody(s: string)
    requires forall i :: 0 <= i < |s| ==> s[i] != '\\' && s[i] != '\'' && ' ' <= s[i] && s[i] as int != 127
    ensures ReprBody(s, '\'') == s
  {
    if s != [] {
      PlainBody(s[..|s| - 1]);
      assert s[..|s| - 1] + [s[|s| - 1]] == s;
    }
  }

  /** The body of a string's `repr` holds no line break, whatever the string holds. */
  lemma {:induction false} ReprBodyOneLine(s: string, q: char)
    requires q == '\'' || q == '"'
    ensures '\n' !in ReprBody(s, q) && '\r' !in ReprBody(s, q)
  {
    if s != [] {
      ReprBodyOneLine(s[..|s| - 1], q);
    }
  }

  /** Python `repr(v)` inside a container, as `str()` of a list or dict writes it. */
  function PyRepr(j: Json): string
    decreases j, 1
  {
    match j
    case JStr(s) => ReprString(s)
    case _ => PyStr(j)
  }

  /** Python `str(v)`: a string is itself; None, booleans and containers use Python's spelling. */
  function PyStr(j: Json): string
    decreases j, 0
  {
    match j
    case JNull => "None"
    case JBool(b) => if b then "True" else "False"
    case JInt(i) => IntToString(i)
    case JStr(s) => s
    case JArr(items) =>
      "[" + Join(", ", seq(|items|, k requires 0 <= k < |items| => PyRepr(items[k]))) + "]"
    case JObj(fields) =>
      "{" + Join(", ", seq(|fields|, k requires 0 <= k < |fields| =>
                              ReprString(fields[k].0) + ": " + PyRepr(fields[k].1))) + "}"
  }
}
