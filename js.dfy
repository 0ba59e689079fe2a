/** The few pieces of JavaScript semantics the components rely on:
    `null` versus `undefined`, the truthiness of strings,
    `String.prototype.trim` and the remainder operator `%`. */
module Js {

  /** A value of type `T | null`. */
  datatype Nullable<+T> = Null | Value(value: T)

  /** An optional property `p?: T` of an object literal: absent (undefined) or given. */
  datatype Optional<+T> = Undefined | Given(value: T)

  /** A string is truthy in JavaScript exactly when it is not empty. */
  predicate Truthy(s: string) {
    s != ""
  }

  /** A nullable string is truthy when it is a non-empty string. */
  predicate TruthyNullable(s: Nullable<string>) {
    s.Value? && Truthy(s.value)
  }

  /** The code points `trim` removes: ECMAScript's WhiteSpace (tab, vertical tab,
      form feed, ZERO WIDTH NO-BREAK SPACE and every space separator of category Zs)
      and LineTerminator (LF, CR, LINE SEPARATOR, PARAGRAPH SEPARATOR). */
  predicate IsWhitespace(c: char) {
    var k := c as int;
    k == 0x09 || k == 0x0A || k == 0x0B || k == 0x0C || k == 0x0D || k == 0x20 ||
    k == 0xA0 || k == 0x1680 || (0x2000 <= k <= 0x200A) || k == 0x2028 ||
    k == 0x2029 || k == 0x202F || k == 0x205F || k == 0x3000 || k == 0xFEFF
  }

  /** Every character of `s` is whitespace (the empty string included). */
  ghost predicate AllWhitespace(s: string) {
    forall i :: 0 <= i < |s| ==> IsWhitespace(s[i])
  }

  /** `s` with its leading whitespace removed: the longest suffix that does not start with whitespace. */
  function TrimStart(s: string): (r: string)
    ensures |r| <= |s| && r == s[|s| - |r|..]
    ensures AllWhitespace(s[..|s| - |r|])
    ensures r != [] ==> !IsWhitespace(r[0])
  {
    if s != [] && IsWhitespace(s[0]) then TrimStart(s[1..]) else s
  }

  /** `s` with its trailing whitespace removed: the longest prefix that does not end with whitespace. */
  function TrimEnd(s: string): (r: string)
    ensures |r| <= |s| && r == s[..|r|]
    ensures AllWhitespace(s[|r|..])
    ensures r != [] ==> !IsWhitespace(r[|r| - 1])
  {
    if s != [] && IsWhitespace(s[|s| - 1]) then TrimEnd(s[..|s| - 1]) else s
  }

  /** `s.trim()`. */
  function Trim(s: string): string {
    TrimEnd(TrimStart(s))
  }

  /** `s.trim()` is the empty string exactly when `s` consists of whitespace only. */
  lemma TrimEmptyIffAllWhitespace(s: string)
    ensures Trim(s) == "" <==> AllWhitespace(s)
  {
    var t := TrimStart(s);
    var k := |s| - |t|;
    var u := TrimEnd(t);
    assert t[0..] == t;
    assert u != [] ==> u[|u| - 1] == t[|u| - 1];
    assert t != [] ==> t[0] == s[k];
    assert forall i :: k <= i < |s| ==> s[i] == t[i - k];
    assert forall i :: 0 <= i < k ==> s[i] == s[..k][i];
  }

  /** `a / n` truncated toward zero, the quotient that goes with `%` in JavaScript. */
  function TruncDiv(a: int, n: int): int
    requires n > 0
  {
    if a >= 0 then a / n else -((-a) / n)
  }

  /** `a % n` for integers: the remainder of truncating division,
      which takes the sign of the dividend (Dafny's own `%` is Euclidean). */
  function Rem(a: int, n: int): (r: int)
    requires n > 0
    ensures a == TruncDiv(a, n) * n + r
    ensures -n < r < n
    ensures a >= 0 ==> 0 <= r
    ensures a <= 0 ==> r <= 0
  {
    if a >= 0 then a % n else -((-a) % n)
  }
}
