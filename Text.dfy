/** Optional values: a field that may be absent (undefined/null in the source). */
module Optional {
  datatype Option<+T> = None | Some(value: T)
}

/**
 * The character classes and string helpers that the source expresses with
 * JavaScript regular expressions and String methods: `\d`/`\D`, `\s`,
 * `String.prototype.trim`, and `replace(/\D/g, '')`.
 */
module Text {

  /** `\d` in a JavaScript regular expression: the ASCII digits only. */
  predicate IsDigit(c: char) {
    '0' <= c <= '9'
  }

  predicate AllDigits(s: string) {
    forall i :: 0 <= i < |s| ==> IsDigit(s[i])
  }

  /** `parseInt` of one digit character. */
  function DigitValue(c: char): (v: nat)
    requires IsDigit(c)
    ensures v <= 9
  {
    c as int - '0' as int
  }

  /**
   * `\s` in a JavaScript regular expression, which is also the set of
   * characters `String.prototype.trim` removes: the ECMAScript WhiteSpace
   * and LineTerminator code points.
   */
  predicate IsWhitespace(c: char) {
    c == '\t' || c == '\n' || c == '\U{0B}' || c == '\U{0C}' || c == '\r' || c == ' ' ||
    c == '\U{A0}' || c == '\U{1680}' || ('\U{2000}' <= c <= '\U{200A}') ||
    c == '\U{2028}' || c == '\U{2029}' || c == '\U{202F}' || c == '\U{205F}' ||
    c == '\U{3000}' || c == '\U{FEFF}'
  }

  predicate AllWhitespace(s: string) {
    forall i :: 0 <= i < |s| ==> IsWhitespace(s[i])
  }

  /** `s.replace(/\D/g, '')`: the digits of `s`, in order. */
  function DigitsOf(s: string): (r: string)
    ensures AllDigits(r)
    ensures |r| <= |s|
    ensures AllDigits(s) ==> r == s
  {
    if s == [] then []
    else if IsDigit(s[0]) then [s[0]] + DigitsOf(s[1..])
    else DigitsOf(s[1..])
  }

  lemma {:induction false} DigitsOfAppend(a: string, b: string)
    ensures DigitsOf(a + b) == DigitsOf(a) + DigitsOf(b)
  {
    if a == [] {
      assert a + b == b;
    } else {
      assert (a + b)[1..] == a[1..] + b;
      DigitsOfAppend(a[1..], b);
    }
  }

  /** Inserting a non-digit anywhere leaves the digits of a string as they were. */
  lemma DigitsOfInsert(s: string, i: nat, sep: char)
    requires i <= |s| && !IsDigit(sep)
    ensures DigitsOf(s[..i] + [sep] + s[i..]) == DigitsOf(s)
  {
    var a, b := s[..i], s[i..];
    assert DigitsOf([sep]) == [];
    DigitsOfAppend(a, [sep]);
    assert DigitsOf(a + [sep]) == DigitsOf(a);
    DigitsOfAppend(a + [sep], b);
    DigitsOfAppend(a, b);
    assert a + b == s;
  }

  /** The leading-whitespace half of `String.prototype.trim`. */
  function TrimStart(s: string): (r: string)
    ensures |r| <= |s| && r == s[|s| - |r|..]
    ensures AllWhitespace(s[..|s| - |r|])
    ensures r != [] ==> !IsWhitespace(r[0])
  {
    if s != [] && IsWhitespace(s[0]) then
      var r := TrimStart(s[1..]);
      assert s[..|s| - |r|] == [s[0]] + s[1..][..|s[1..]| - |r|];
      r
    else s
  }

  /** The trailing-whitespace half of `String.prototype.trim`. */
  function TrimEnd(s: string): (r: string)
    ensures |r| <= |s| && r == s[..|r|]
    ensures AllWhitespace(s[|r|..])
    ensures r != [] ==> !IsWhitespace(r[|r| - 1])
  {
    if s != [] && IsWhitespace(s[|s| - 1]) then
      var r := TrimEnd(s[..|s| - 1]);
      assert s[|r|..] == s[..|s| - 1][|r|..] + [s[|s| - 1]];
      r
    else s
  }

  /** `String.prototype.trim`. */
  function Trim(s: string): (r: string)
    ensures |r| <= |s|
    ensures r == [] <==> AllWhitespace(s)
    ensures r != [] ==> !IsWhitespace(r[0]) && !IsWhitespace(r[|r| - 1])
    ensures exists a, b :: 0 <= a <= b <= |s| && r == s[a..b] && AllWhitespace(s[..a]) && AllWhitespace(s[b..])
  {
    var t := TrimStart(s);
    var r := TrimEnd(t);
    SliceBetweenWhitespace(s, t, r);
    r
  }

  /**
   * Trimming cuts a whitespace prefix and a whitespace suffix: a
   * whitespace-stripped prefix `r` of a whitespace-stripped suffix `t` of
   * `s` is a slice of `s` with whitespace on both sides, empty exactly when
   * `s` is all whitespace, and neither starting nor ending with whitespace.
   */
  lemma SliceBetweenWhitespace(s: string, t: string, r: string)
    requires |t| <= |s| && t == s[|s| - |t|..] && AllWhitespace(s[..|s| - |t|])
    requires t != [] ==> !IsWhitespace(t[0])
    requires |r| <= |t| && r == t[..|r|] && AllWhitespace(t[|r|..])
    requires r != [] ==> !IsWhitespace(r[|r| - 1])
    ensures |r| <= |s|
    ensures r == [] <==> AllWhitespace(s)
    ensures r != [] ==> !IsWhitespace(r[0]) && !IsWhitespace(r[|r| - 1])
    ensures exists a, b :: 0 <= a <= b <= |s| && r == s[a..b] && AllWhitespace(s[..a]) && AllWhitespace(s[b..])
  {
    var a := |s| - |t|;
    var b := a + |r|;
    assert r == s[a..b];
    assert t[|r|..] == s[b..];
    if r == [] {
      assert t[|r|..] == t;
      assert s[..a] == s;
    } else {
      assert r[0] == t[0];
      assert s[a] == t[0];
    }
  }

  /** `!s.trim()`: nothing is left once the whitespace is trimmed. */
  predicate Blank(s: string)
    ensures Blank(s) <==> AllWhitespace(s)
  {
    s == [] || (IsWhitespace(s[0]) && Blank(s[1..]))
  }

  /** `Blank` is the emptiness of `Trim`. */
  lemma BlankIsTrimmedEmpty(s: string)
    ensures Blank(s) <==> Trim(s) == []
  {
  }

  /** `toLowerCase` on one character; only A-Z are mapped (see README). */
  function LowerChar(c: char): char {
    if 'A' <= c <= 'Z' then (c as int + 32) as char else c
  }

  /** `String.prototype.toLowerCase`, restricted to ASCII letters. */
  function ToLower(s: string): (r: string)
    ensures |r| == |s|
    ensures forall i :: 0 <= i < |s| ==> r[i] == LowerChar(s[i])
    ensures forall i :: 0 <= i < |r| ==> !('A' <= r[i] <= 'Z')
  {
    if s == [] then [] else [LowerChar(s[0])] + ToLower(s[1..])
  }
}
