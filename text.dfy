// String helpers shared by the model: JavaScript's whitespace set (what `trim`
// strips and what `\s` matches), trimming, substring search, ASCII case folding
// and decimal rendering of numbers.
module Text {

  /** The WhiteSpace and LineTerminator code points of ECMAScript. */
  predicate IsWhitespace(c: char) {
    c == ' ' || c == '\t' || c == '\n' || c == '\r' || c == '\U{000B}' || c == '\U{000C}'
    || c == '\U{00A0}' || c == '\U{1680}' || ('\U{2000}' <= c <= '\U{200A}')
    || c == '\U{2028}' || c == '\U{2029}' || c == '\U{202F}' || c == '\U{205F}'
    || c == '\U{3000}' || c == '\U{FEFF}'
  }

  /** The LineTerminator code points: the characters a regex `.` does not match. */
  predicate IsLineTerminator(c: char) {
    c == '\n' || c == '\r' || c == '\U{2028}' || c == '\U{2029}'
  }

  predicate AllWhitespace(s: string) {
    forall i :: 0 <= i < |s| ==> IsWhitespace(s[i])
  }

  /** `s.trim()`: the part of `s` between its leading and trailing whitespace. */
  function Trim(s: string): (r: string)
    ensures |r| <= |s|
    ensures r == [] || (!IsWhitespace(r[0]) && !IsWhitespace(r[|r| - 1]))
    ensures r == [] <==> AllWhitespace(s)
    decreases |s|
  {
    if s != [] && IsWhitespace(s[0]) then
      assert forall i :: 1 <= i < |s| ==> s[1..][i - 1] == s[i];
      Trim(s[1..])
    else if s != [] && IsWhitespace(s[|s| - 1]) then
      assert forall i :: 0 <= i < |s| - 1 ==> s[..|s| - 1][i] == s[i];
      Trim(s[..|s| - 1])
    else s
  }

  /** Concatenation regroups freely; stated once so that loops appending pieces need not re-derive it. */
  lemma AppendAssoc(a: string, b: string, c: string)
    ensures a + (b + c) == a + b + c
  {
  }

  /** Trimming twice is trimming once. */
  lemma TrimIdempotent(s: string)
    ensures Trim(Trim(s)) == Trim(s)
  {
    TrimOfTrimmed(Trim(s));
  }

  /** A string without leading or trailing whitespace is its own trim. */
  lemma TrimOfTrimmed(s: string)
    requires s == [] || (!IsWhitespace(s[0]) && !IsWhitespace(s[|s| - 1]))
    ensures Trim(s) == s
  {
  }

  /** Trim ignores whitespace added on either side. */
  lemma {:induction false} TrimPadded(w1: string, s: string, w2: string)
    requires AllWhitespace(w1) && AllWhitespace(w2)
    ensures Trim(w1 + s + w2) == Trim(s)
    decreases |w1| + |w2|
  {
    var x := w1 + s + w2;
    if w1 != [] {
      assert x[0] == w1[0];
      assert x[1..] == w1[1..] + s + w2;
      TrimPadded(w1[1..], s, w2);
    } else if w2 != [] {
      assert x[|x| - 1] == w2[|w2| - 1];
      assert x[..|x| - 1] == w1 + s + w2[..|w2| - 1];
      TrimPadded(w1, s, w2[..|w2| - 1]);
      TrimDropLast(x);
    } else {
      assert x == s;
    }
  }

  /** Removing one trailing whitespace character does not change the trim. */
  lemma {:induction false} TrimDropLast(x: string)
    requires x != [] && IsWhitespace(x[|x| - 1])
    ensures Trim(x) == Trim(x[..|x| - 1])
    decreases |x|
  {
    var y := x[..|x| - 1];
    if IsWhitespace(x[0]) && |x| > 1 {
      assert x[1..][|x| - 2] == x[|x| - 1];
      assert x[1..][..|x| - 2] == y[1..];
      TrimDropLast(x[1..]);
      assert y[0] == x[0];
    }
  }

  predicate StartsWith(s: string, prefix: string) {
    |prefix| <= |s| && s[..|prefix|] == prefix
  }

  predicate EndsWith(s: string, suffix: string) {
    |suffix| <= |s| && s[|s| - |suffix|..] == suffix
  }

  /** `s.includes(sub)`. */
  predicate Contains(s: string, sub: string) {
    exists i :: 0 <= i <= |s| - |sub| && OccursAt(s, sub, i)
  }

  /** `sub` occurs in `s` starting at index `i`. */
  predicate OccursAt(s: string, sub: string, i: int) {
    0 <= i <= |s| - |sub| && s[i..i + |sub|] == sub
  }

  /** An occurrence stays an occurrence when text is added on either side. */
  lemma ContainsInContext(a: string, s: string, b: string, sub: string)
    requires Contains(s, sub)
    ensures Contains(a + s + b, sub)
  {
    var i :| 0 <= i <= |s| - |sub| && OccursAt(s, sub, i);
    var x := a + s + b;
    assert x[|a| + i..|a| + i + |sub|] == sub;
    assert OccursAt(x, sub, |a| + i);
  }

  /** Text put in front keeps an occurrence. */
  lemma ContainsAfter(a: string, s: string, sub: string)
    requires Contains(s, sub)
    ensures Contains(a + s, sub)
  {
    ContainsInContext(a, s, "", sub);
    assert a + s + "" == a + s;
  }

  /** Text put behind keeps an occurrence. */
  lemma ContainsBefore(s: string, b: string, sub: string)
    requires Contains(s, sub)
    ensures Contains(s + b, sub)
  {
    ContainsInContext("", s, b, sub);
    assert "" + s + b == s + b;
  }

  /** An occurrence of an occurrence is an occurrence. */
  lemma ContainsTrans(s: string, t: string, sub: string)
    requires Contains(s, t) && Contains(t, sub)
    ensures Contains(s, sub)
  {
    var i :| 0 <= i <= |s| - |t| && OccursAt(s, t, i);
    var j :| 0 <= j <= |t| - |sub| && OccursAt(t, sub, j);
    assert s[i..i + |t|] == t;
    forall k | 0 <= k < |sub| ensures s[i + j + k] == sub[k] {
      assert s[i + j + k] == s[i..i + |t|][j + k];
      assert t[j + k] == t[j..j + |sub|][k];
    }
    assert s[i + j..i + j + |sub|] == sub;
    assert OccursAt(s, sub, i + j);
  }

  /** A string contains itself. */
  lemma ContainsSelf(s: string)
    ensures Contains(s, s)
  {
    assert s[0..|s|] == s;
    assert OccursAt(s, s, 0);
  }

  /** ASCII lower-casing of one character. */
  function LowerAscii(c: char): (r: char)
    ensures 'A' <= c <= 'Z' ==> 'a' <= r <= 'z'
    ensures !('A' <= c <= 'Z') ==> r == c
  {
    if 'A' <= c <= 'Z' then (c as int + 32) as char else c
  }

  /** `s.toLowerCase()` restricted to ASCII letters. */
  function ToLowerAscii(s: string): (r: string)
    ensures |r| == |s|
    ensures forall i :: 0 <= i < |s| ==> r[i] == LowerAscii(s[i])
  {
    if s == [] then [] else [LowerAscii(s[0])] + ToLowerAscii(s[1..])
  }

  /** Character equality as a regex with the `i` flag sees it, for ASCII patterns. */
  /** Lower-casing keeps an occurrence, as the occurrence of the lower-cased pattern `low`. */
  lemma LowerContains(s: string, sub: string, low: string)
    requires Contains(s, sub)
    requires |low| == |sub| && forall k :: 0 <= k < |sub| ==> LowerAscii(sub[k]) == low[k]
    ensures Contains(ToLowerAscii(s), low)
  {
    var i :| 0 <= i <= |s| - |sub| && OccursAt(s, sub, i);
    var ls := ToLowerAscii(s);
    assert ls[i..i + |sub|] == low by {
      forall k | 0 <= k < |sub| ensures ls[i..i + |sub|][k] == low[k] {
        assert s[i + k] == s[i..i + |sub|][k];
      }
    }
    assert OccursAt(ls, low, i);
  }

  predicate SameIgnoringCase(a: char, b: char) {
    LowerAscii(a) == LowerAscii(b)
  }

  /** `s` begins with `p`, comparing letters case-insensitively. */
  predicate StartsWithIgnoringCase(s: string, p: string) {
    |p| <= |s| && forall i :: 0 <= i < |p| ==> SameIgnoringCase(s[i], p[i])
  }

  /** `s` has an occurrence of `p` at some position, ignoring case. */
  predicate ContainsIgnoringCase(s: string, p: string) {
    exists i :: 0 <= i <= |s| && StartsWithIgnoringCase(s[i..], p)
  }

  /** Joins `parts` with `sep` between consecutive parts, as `Array.prototype.join`. */
  function Join(parts: seq<string>, sep: string): string {
    if parts == [] then ""
    else if |parts| == 1 then parts[0]
    else parts[0] + sep + Join(parts[1..], sep)
  }

  /** Concatenates `parts`. */
  function Concat(parts: seq<string>): string {
    if parts == [] then "" else parts[0] + Concat(parts[1..])
  }

  predicate IsDigit(c: char) {
    '0' <= c <= '9'
  }

  /** The value of a string of decimal digits. */
  function DigitsValue(s: string): nat
    requires forall i :: 0 <= i < |s| ==> IsDigit(s[i])
  {
    if s == [] then 0
    else
      var last := s[|s| - 1];
      assert IsDigit(last);
      10 * DigitsValue(s[..|s| - 1]) + (last as int - '0' as int)
  }

  function DigitChar(d: nat): (c: char)
    requires d < 10
    ensures IsDigit(c) && c as int - '0' as int == d
  {
    ('0' as int + d) as char
  }

  /** `String(n)` for a natural number: its decimal digits. */
  function NatToString(n: nat): (r: string)
    ensures r != []
    ensures forall i :: 0 <= i < |r| ==> IsDigit(r[i])
    ensures DigitsValue(r) == n
    ensures |r| > 1 ==> r[0] != '0'
  {
    if n < 10 then [DigitChar(n)]
    else
      var r := NatToString(n / 10) + [DigitChar(n % 10)];
      assert r[..|r| - 1] == NatToString(n / 10);
      r
  }

  /** `String(i)` for an integer. */
  function IntToString(i: int): (r: string)
    ensures r != []
    ensures i < 0 <==> r[0] == '-'
  {
    if i < 0 then "-" + NatToString(-i) else NatToString(i)
  }
}
