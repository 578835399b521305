/*
 * Python string behaviour that the host relies on: `str.isspace`, `strip`,
 * `split()` / `split(sep)`, `lower`, `find`, `in`, `replace`, `join`, and the
 * decimal rendering of integers.  Strings are sequences of Unicode scalar
 * values, as in Python 3.
 */
module Base {

  datatype Option<T> = None | Some(value: T) {
    /** `d.get(key, default)` for a key that may be absent. */
    function GetOr(default: T): T {
      if Some? then value else default
    }
  }

  datatype Result<T, E> = Ok(value: T) | Err(error: E)

  /** `d.get(key)` on a dict kept as its list of entries in insertion order. */
  function Lookup<K(==), V(==)>(e: seq<(K, V)>, key: K): (r: Option<V>)
    ensures r.Some? <==> exists k :: 0 <= k < |e| && e[k].0 == key
    ensures r.Some? ==> exists k :: 0 <= k < |e| && e[k] == (key, r.value)
  {
    if e == [] then None
    else if e[0].0 == key then Some(e[0].1)
    else
      var r := Lookup(e[1..], key);
      if r.Some? then
        var k :| 0 <= k < |e[1..]| && e[1..][k] == (key, r.value);
        assert e[k + 1] == (key, r.value);
        r
      else r
  }

  function Min(a: int, b: int): int { if a <= b then a else b }
  function Max(a: int, b: int): int { if a >= b then a else b }

  /** Python `str.isspace` for one character (the characters `strip()` and `split()` remove). */
  predicate IsSpace(c: char) {
    c == ' ' || ('\t' <= c <= '\r') || ('\U{1C}' <= c <= '\U{1F}')
    || c == '\U{85}' || c == '\U{A0}' || c == '\U{1680}'
    || ('\U{2000}' <= c <= '\U{200A}') || c == '\U{2028}' || c == '\U{2029}'
    || c == '\U{202F}' || c == '\U{205F}' || c == '\U{3000}'
  }

  predicate AllSpace(s: string) {
    forall i :: 0 <= i < |s| ==> IsSpace(s[i])
  }

  /** Python `s.lstrip()`. */
  function LStrip(s: string): (r: string)
    ensures |r| <= |s| && r == s[|s| - |r|..]
    ensures AllSpace(s[..|s| - |r|])
    ensures r == [] || !IsSpace(r[0])
  {
    if |s| > 0 && IsSpace(s[0]) then
      var r := LStrip(s[1..]);
      assert s[1..][|s| - 1 - |r|..] == s[|s| - |r|..];
      assert forall i :: 1 <= i < |s| - |r| ==> s[i] == s[1..][..|s| - 1 - |r|][i - 1];
      r
    else s
  }

  /** Python `s.rstrip()`. */
  function RStrip(s: string): (r: string)
    ensures |r| <= |s| && r == s[..|r|]
    ensures AllSpace(s[|r|..])
    ensures r == [] || !IsSpace(r[|r| - 1])
  {
    if |s| > 0 && IsSpace(s[|s| - 1]) then
      var r := RStrip(s[..|s| - 1]);
      assert s[..|s| - 1][..|r|] == s[..|r|];
      assert forall i :: |r| <= i < |s| - 1 ==> s[i] == s[..|s| - 1][|r|..][i - |r|];
      r
    else s
  }

  /** Python `s.strip()`: the slice between the leading and the trailing whitespace. */
  function Strip(s: string): (r: string)
    ensures r == [] || (!IsSpace(r[0]) && !IsSpace(r[|r| - 1]))
  {
    RStrip(LStrip(s))
  }

  /** `s.strip()` removes whitespace only, and only at the two ends. */
  lemma StripIsSlice(s: string)
    ensures exists i, j :: 0 <= i <= j <= |s| && Strip(s) == s[i..j] && AllSpace(s[..i]) && AllSpace(s[j..])
  {
    var l := LStrip(s);
    var r := RStrip(l);
    var i, j := |s| - |l|, |s| - |l| + |r|;
    assert r == l[..|r|] && l == s[i..];
    assert r == s[i..j];
    assert s[j..] == l[|r|..];
    assert Strip(s) == s[i..j] && AllSpace(s[..i]) && AllSpace(s[j..]);
  }

  /** `s.strip()` is empty exactly when `s` is all whitespace. */
  lemma {:induction false} StripEmptyIffAllSpace(s: string)
    ensures Strip(s) == [] <==> AllSpace(s)
  {
    var l := LStrip(s);
    if Strip(s) == [] {
      assert l[|RStrip(l)|..] == l;
      assert s[..|s| - |l|] == s;
    }
  }

  /** Index of the first whitespace character of `s` at or after `from`, or `|s|`. */
  function SpaceFrom(s: string, from: nat): (k: nat)
    requires from <= |s|
    ensures from <= k <= |s|
    ensures forall i :: from <= i < k ==> !IsSpace(s[i])
    ensures k < |s| ==> IsSpace(s[k])
    decreases |s| - from
  {
    if from == |s| || IsSpace(s[from]) then from else SpaceFrom(s, from + 1)
  }

  /** A non-empty run of non-whitespace characters. */
  predicate IsWord(w: string) {
    w != [] && forall i :: 0 <= i < |w| ==> !IsSpace(w[i])
  }

  /** Python `s.split()`: the maximal runs of non-whitespace characters, in order. */
  function Words(s: string): (ws: seq<string>)
    ensures forall k :: 0 <= k < |ws| ==> IsWord(ws[k])
    decreases |s|
  {
    if s == [] then []
    else if IsSpace(s[0]) then Words(s[1..])
    else
      var k := SpaceFrom(s, 0);
      [s[..k]] + Words(s[k..])
  }

  /** The position Python's slice `s[start:]` starts at, for a sequence of length `n`. */
  function SliceStart(start: int, n: nat): (k: nat)
    ensures k <= n
  {
    if start < 0 then Max(start + n, 0) else Min(start, n)
  }

  /** Python `s[start:]`, including negative `start`. */
  function SliceFrom<T>(s: seq<T>, start: int): seq<T> {
    s[SliceStart(start, |s|)..]
  }

  /** `s[-k:]` for a positive `k` is the last `min(k, len(s))` elements. */
  lemma SliceFromNegative<T>(s: seq<T>, k: int)
    requires k > 0
    ensures |SliceFrom(s, -k)| == Min(k, |s|)
    ensures SliceFrom(s, -k) == s[|s| - Min(k, |s|)..]
  {
  }

  predicate IsAsciiUpper(c: char) { 'A' <= c <= 'Z' }

  /** Python `str.lower` on ASCII letters; other characters are kept. */
  function LowerChar(c: char): char {
    if IsAsciiUpper(c) then (c as int + 32) as char else c
  }

  function Lower(s: string): string {
    seq(|s|, i requires 0 <= i < |s| => LowerChar(s[i]))
  }

  predicate StartsWith(s: string, prefix: string) {
    |prefix| <= |s| && s[..|prefix|] == prefix
  }

  predicate OccursAt(s: string, p: string, i: int) {
    0 <= i && i + |p| <= |s| && s[i..i + |p|] == p
  }

  /** Python `s.find(p, from)`: the leftmost occurrence of `p` at or after `from`. */
  function Find(s: string, p: string, from: nat): (r: Option<nat>)
    ensures r.Some? ==> from <= r.value && OccursAt(s, p, r.value)
    ensures r.Some? ==> forall i :: from <= i < r.value ==> !OccursAt(s, p, i)
    ensures r.None? ==> forall i :: from <= i ==> !OccursAt(s, p, i)
    decreases |s| - from
  {
    if from + |p| > |s| then None
    else if s[from..from + |p|] == p then Some(from)
    else Find(s, p, from + 1)
  }

  /** Python `p in s`. */
  predicate Contains(s: string, p: string) {
    Find(s, p, 0).Some?
  }

  /** Python `s.replace(p, rep)`: every non-overlapping occurrence, left to right. */
  function ReplaceAll(s: string, p: string, rep: string): string
    requires |p| > 0
    decreases |s|
  {
    if |s| < |p| then s
    else if s[..|p|] == p then rep + ReplaceAll(s[|p|..], p, rep)
    else [s[0]] + ReplaceAll(s[1..], p, rep)
  }

  /** Python `sep.join(parts)`. */
  function Join(sep: string, parts: seq<string>): string {
    if |parts| == 0 then ""
    else if |parts| == 1 then parts[0]
    else parts[0] + sep + Join(sep, parts[1..])
  }

  /** Python `s.split(c)` for a one-character separator: the pieces between separators. */
  function SplitOn(s: string, c: char): (pieces: seq<string>)
    ensures |pieces| >= 1
    ensures forall k :: 0 <= k < |pieces| ==> c !in pieces[k]
    decreases |s|
  {
    var f := Find(s, [c], 0);
    if f.None? then
      assert forall i :: 0 <= i < |s| ==> s[i] != c by {
        forall i | 0 <= i < |s| ensures s[i] != c {
          assert !OccursAt(s, [c], i);
          assert s[i..i + 1] == [s[i]];
        }
      }
      [s]
    else
      var k := f.value;
      assert forall i :: 0 <= i < k ==> s[i] != c by {
        forall i | 0 <= i < k ensures s[i] != c {
          assert !OccursAt(s, [c], i);
          assert s[i..i + 1] == [s[i]];
        }
      }
      [s[..k]] + SplitOn(s[k + 1..], c)
  }

  /** Splitting on a character and joining with it gives the string back. */
  lemma {:induction false} JoinSplitOn(s: string, c: char)
    ensures Join([c], SplitOn(s, c)) == s
    decreases |s|
  {
    var f := Find(s, [c], 0);
    if f.Some? {
      var k := f.value;
      var rest := SplitOn(s[k + 1..], c);
      JoinSplitOn(s[k + 1..], c);
      assert SplitOn(s, c) == [s[..k]] + rest;
      assert s[k..k + 1] == [c];
      assert s == s[..k] + [c] + s[k + 1..];
    }
  }

  /** Number of characters of `s` that satisfy membership in `cs`. */
  function CountIn(s: string, cs: set<char>): (n: nat)
    ensures n <= |s|
  {
    if s == [] then 0 else (if s[0] in cs then 1 else 0) + CountIn(s[1..], cs)
  }

  function DigitChar(d: nat): char
    requires d < 10
  {
    ('0' as int + d) as char
  }

  /** Python `str(n)` for a natural number. */
  function NatToString(n: nat): (r: string)
    ensures |r| >= 1 && forall i :: 0 <= i < |r| ==> '0' <= r[i] <= '9'
  {
    if n < 10 then [DigitChar(n)] else NatToString(n / 10) + [DigitChar(n % 10)]
  }

  /** Python `str(i)` for an integer. */
  function IntToString(i: int): string {
    if i < 0 then "-" + NatToString(-i) else NatToString(i)
  }

  predicate IsAsciiDigit(c: char) { '0' <= c <= '9' }

  function DigitOf(c: char): nat
    requires IsAsciiDigit(c)
  {
    c as int - '0' as int
  }

  /** Python `int(s)` for a non-empty run of ASCII digits. */
  function DigitsValue(s: string): nat
    requires forall i :: 0 <= i < |s| ==> IsAsciiDigit(s[i])
  {
    if s == [] then 0 else DigitsValue(s[..|s| - 1]) * 10 + DigitOf(s[|s| - 1])
  }

  /** `int(str(n)) == n`. */
  lemma {:induction false} DigitsValueNatToString(n: nat)
    ensures DigitsValue(NatToString(n)) == n
  {
    if n >= 10 {
      DigitsValueNatToString(n / 10);
      var r := NatToString(n);
      assert r[..|r| - 1] == NatToString(n / 10);
    }
  }

  /** No element of `xs` appears twice. */
  predicate Distinct<T(==)>(xs: seq<T>) {
    forall i, j :: 0 <= i < j < |xs| ==> xs[i] != xs[j]
  }

  /** How many entries of the list `xs` are in `members`. */
  function CountListed<T(==)>(xs: seq<T>, members: set<T>): nat {
    if xs == [] then 0
    else CountListed(xs[..|xs| - 1], members) + if xs[|xs| - 1] in members then 1 else 0
  }

  /** The members of a list, as a set. */
  function Elems<T>(xs: seq<T>): set<T> {
    set x | x in xs
  }

  lemma ElemsSnoc<T>(xs: seq<T>, x: T)
    ensures Elems(xs + [x]) == Elems(xs) + {x}
  {
    assert forall y :: y in xs + [x] <==> y in xs || y == x;
  }

  /** Adding a new element to a set adds one to the size of its part in `members` when it is a member. */
  lemma CardAddOne<T>(a: set<T>, x: T, members: set<T>)
    requires x !in a
    ensures |(a + {x}) * members| == |a * members| + if x in members then 1 else 0
  {
    if x in members {
      assert (a + {x}) * members == a * members + {x};
    } else {
      assert (a + {x}) * members == a * members;
    }
  }

  /** For a list without repetitions, the count is the size of the listed part of `members`. */
  lemma {:induction false} CountListedIsCard<T>(xs: seq<T>, members: set<T>)
    requires Distinct(xs)
    ensures CountListed(xs, members) == |Elems(xs) * members|
    decreases |xs|
  {
    if xs != [] {
      var init := xs[..|xs| - 1];
      var last := xs[|xs| - 1];
      assert xs == init + [last];
      assert Distinct(init);
      CountListedIsCard(init, members);
      ElemsSnoc(init, last);
      assert last !in Elems(init) by {
        forall k | 0 <= k < |init|
          ensures init[k] != last
        {
          assert init[k] == xs[k];
        }
      }
      CardAddOne(Elems(init), last, members);
    }
  }
}
