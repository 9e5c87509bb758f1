/** Optional values, used for nullable JavaScript values and failed searches. */
module Wrappers {
  datatype Option<+T> = None | Some(value: T) {
    /** JavaScript's `x ?? fallback`: the value unless it is null or undefined. */
    function GetOr(fallback: T): T {
      match this
      case Some(v) => v
      case None => fallback
    }
  }
}

/**
 * JavaScript strings as the form sees them: sequences of UTF-16 code units,
 * with the handful of built-in string operations the form relies on
 * (`trim`, `toLowerCase`, `split('/').pop()`, `replace(/\W/g, '_')`).
 */
module JsText {
  import opened Wrappers

  /** One UTF-16 code unit, the value `String.prototype.charCodeAt` returns. */
  type CodeUnit = x: int | 0 <= x < 0x1_0000

  /** A JavaScript string. */
  type JsString = seq<CodeUnit>

  const Slash: CodeUnit := 0x2F
  const Underscore: CodeUnit := 0x5F

  /**
   * The JavaScript string a Dafny string literal stands for. Every literal
   * of the form lies in the Basic Multilingual Plane, where UTF-16 uses one
   * code unit per character; a character beyond it (which no literal here
   * has) would map to U+FFFD.
   */
  function FromString(s: string): (r: JsString)
    ensures |r| == |s|
  {
    seq(|s|, i requires 0 <= i < |s| => if s[i] as int < 0x1_0000 then s[i] as int else 0xFFFD)
  }

  // ---------------------------------------------------------------- trim

  /**
   * The code units `String.prototype.trim` removes: ECMAScript's WhiteSpace
   * (TAB, VT, FF, ZWNBSP and the Unicode space separators) and LineTerminator
   * (LF, CR, LS, PS).
   */
  predicate IsWhitespace(u: CodeUnit) {
    || u == 0x09 || u == 0x0A || u == 0x0B || u == 0x0C || u == 0x0D
    || u == 0x20 || u == 0xA0 || u == 0x1680
    || (0x2000 <= u <= 0x200A)
    || u == 0x2028 || u == 0x2029 || u == 0x202F || u == 0x205F
    || u == 0x3000 || u == 0xFEFF
  }

  /** No leading or trailing whitespace. */
  predicate IsTrimmed(s: JsString) {
    s == [] || (!IsWhitespace(s[0]) && !IsWhitespace(s[|s| - 1]))
  }

  /** The first index at or after `i` that does not hold whitespace, or `|s|`. */
  function SkipLeading(s: JsString, i: nat): (j: nat)
    requires i <= |s|
    ensures i <= j <= |s|
    ensures forall k :: i <= k < j ==> IsWhitespace(s[k])
    ensures j < |s| ==> !IsWhitespace(s[j])
    decreases |s| - i
  {
    if i < |s| && IsWhitespace(s[i]) then SkipLeading(s, i + 1) else i
  }

  /** The end of `s[lo..j]` once its trailing whitespace is cut off. */
  function SkipTrailing(s: JsString, lo: nat, j: nat): (e: nat)
    requires lo <= j <= |s|
    ensures lo <= e <= j
    ensures forall k :: e <= k < j ==> IsWhitespace(s[k])
    ensures lo < e ==> !IsWhitespace(s[e - 1])
    decreases j
  {
    if lo < j && IsWhitespace(s[j - 1]) then SkipTrailing(s, lo, j - 1) else j
  }

  /**
   * `s.trim()`: the result is a slice `s[i..i + |r|]` of the input with
   * only whitespace cut off on either side, and it has no whitespace at its
   * ends.
   */
  function Trim(s: JsString): (r: JsString)
    ensures IsTrimmed(r)
    ensures var i := SkipLeading(s, 0);
            && i + |r| <= |s| && r == s[i..i + |r|]
            && (forall k :: 0 <= k < i ==> IsWhitespace(s[k]))
            && (forall k :: i + |r| <= k < |s| ==> IsWhitespace(s[k]))
  {
    var i := SkipLeading(s, 0);
    s[i..SkipTrailing(s, i, |s|)]
  }

  /** Trimming an already trimmed string changes nothing. */
  lemma TrimOfTrimmed(s: JsString)
    requires IsTrimmed(s)
    ensures Trim(s) == s
  {
  }

  // ---------------------------------------------------------------- toLowerCase

  /** An ASCII capital letter, `A`-`Z`. */
  predicate IsAsciiUpper(u: CodeUnit) {
    0x41 <= u <= 0x5A
  }

  /**
   * Lower-cases an ASCII capital letter and leaves every other code unit
   * alone: the result is never a capital, it is the unit itself or the unit
   * moved to the small letters, and a non-capital is kept.
   */
  function LowerUnit(u: CodeUnit): (r: CodeUnit)
    ensures !IsAsciiUpper(r)
    ensures r == u || r as int == u as int + 0x20
    ensures !IsAsciiUpper(u) ==> r == u
  {
    if 0x41 <= u <= 0x5A then u + 0x20 else u
  }

  /** `s.toLowerCase()`, restricted to the ASCII letters. */
  function ToLower(s: JsString): (r: JsString)
    ensures |r| == |s|
    ensures forall i :: 0 <= i < |s| ==> r[i] == LowerUnit(s[i])
    ensures forall i :: 0 <= i < |r| ==> !IsAsciiUpper(r[i])
  {
    seq(|s|, i requires 0 <= i < |s| => LowerUnit(s[i]))
  }

  /** Lower-casing keeps a trimmed string trimmed: no letter is whitespace. */
  lemma LowerKeepsTrimmed(s: JsString)
    requires IsTrimmed(s)
    ensures IsTrimmed(ToLower(s))
  {
  }

  /** Lower-casing twice is lower-casing once. */
  lemma ToLowerIdempotent(s: JsString)
    ensures ToLower(ToLower(s)) == ToLower(s)
  {
  }

  // ---------------------------------------------------------------- split('/')

  /** `parts.join('/')`. */
  function Join(parts: seq<JsString>): (s: JsString)
    requires |parts| >= 1
  {
    if |parts| == 1 then parts[0]
    else Join(parts[..|parts| - 1]) + [Slash] + parts[|parts| - 1]
  }

  /**
   * `s.split('/')`: never empty, no part holds a slash, and joining the parts
   * with slashes gives `s` back.
   */
  function Split(s: JsString): (parts: seq<JsString>)
    ensures |parts| >= 1
    ensures forall k :: 0 <= k < |parts| ==> Slash !in parts[k]
    ensures Join(parts) == s
  {
    if s == [] then [[]]
    else
      var rest := Split(s[..|s| - 1]);
      var c := s[|s| - 1];
      if c == Slash then
        rest + [[]]
      else
        var parts := rest[..|rest| - 1] + [rest[|rest| - 1] + [c]];
        assert parts[..|parts| - 1] == rest[..|rest| - 1];
        assert |rest| > 1 ==> rest[..|rest| - 1][..|rest| - 2] == rest[..|rest| - 2];
        parts
  }

  /**
   * `s.split('/').pop()`: the text after the last slash (all of `s` if it
   * has none). It holds no slash and ends `s`.
   */
  function LastSegment(s: JsString): (seg: JsString)
    ensures Slash !in seg
    ensures |seg| <= |s| && s[|s| - |seg|..] == seg
  {
    var parts := Split(s);
    assert |parts| > 1 ==> s == Join(parts[..|parts| - 1]) + [Slash] + parts[|parts| - 1];
    parts[|parts| - 1]
  }

  /**
   * The last segment is the longest slash-free suffix of `s`: it is either
   * all of `s` or preceded by a slash.
   */
  lemma LastSegmentIsSuffix(s: JsString)
    ensures |LastSegment(s)| < |s| ==> s[|s| - |LastSegment(s)| - 1] == Slash
  {
    var parts := Split(s);
    if |parts| > 1 {
      assert s == Join(parts[..|parts| - 1]) + [Slash] + LastSegment(s);
    }
  }

  /** A one-unit string other than a slash is its own last segment. */
  lemma LastSegmentOfUnit(u: CodeUnit)
    requires u != Slash
    ensures LastSegment([u]) == [u]
  {
    assert Split([]) == [[]];
    assert Split([u]) == [[]][..0] + [[] + [u]];
  }

  // ---------------------------------------------------------------- \W

  /** The regular-expression class `\w`: `[A-Za-z0-9_]`. */
  predicate IsWordUnit(u: CodeUnit) {
    (0x30 <= u <= 0x39) || (0x41 <= u <= 0x5A) || (0x61 <= u <= 0x7A) || u == Underscore
  }

  /** `s.replace(/\W/g, '_')`: each non-word code unit becomes `_`, the rest stay. */
  function ReplaceNonWord(s: JsString): (r: JsString)
    ensures |r| == |s|
    ensures forall i :: 0 <= i < |s| ==> IsWordUnit(r[i])
    ensures forall i :: 0 <= i < |s| ==> r[i] == if IsWordUnit(s[i]) then s[i] else Underscore
  {
    seq(|s|, i requires 0 <= i < |s| => if IsWordUnit(s[i]) then s[i] else Underscore)
  }

  // ---------------------------------------------------------------- indexOf

  /** `s.indexOf(u)`, or None where JavaScript gives -1. */
  function IndexOf(s: JsString, u: CodeUnit): (r: Option<nat>)
    ensures r.None? <==> u !in s
    ensures r.Some? ==> r.value < |s| && s[r.value] == u && u !in s[..r.value]
  {
    if s == [] then None
    else if s[0] == u then Some(0)
    else
      match IndexOf(s[1..], u)
      case None => None
      case Some(k) =>
        assert s[..k + 1] == [s[0]] + s[1..][..k];
        Some(k + 1)
  }

  /** The first `u` after a `u`-free prefix is found right there. */
  lemma IndexOfAfterFreePrefix(a: JsString, u: CodeUnit, b: JsString)
    requires u !in a
    ensures IndexOf(a + [u] + b, u) == Some(|a|)
  {
    var s := a + [u] + b;
    assert s[|a|] == u && s[..|a|] == a;
  }
}
