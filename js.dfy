/**
 * The few pieces of JavaScript semantics the wizard leans on: the result of
 * `parseInt`, the `x || fallback` idiom over numbers, and `String.prototype.trim`.
 */
module Js {

  /** What `parseInt` returns: an integer, or NaN when no digits could be read. */
  datatype ParseResult = NaN | Int(n: int)

  /** A number is falsy exactly when it is 0 or NaN (the integer model has no -0). */
  predicate FalsyNumber(p: ParseResult) {
    p.NaN? || p.n == 0
  }

  /** `parseInt(text) || fallback`: a falsy parse result is replaced by `fallback`. */
  function OrFallback(p: ParseResult, fallback: int): (r: int)
    ensures FalsyNumber(p) ==> r == fallback
    ensures !FalsyNumber(p) ==> r == p.n
    ensures r == 0 ==> fallback == 0
  {
    if FalsyNumber(p) then fallback else p.n
  }

  /** The characters `trim` removes: ECMAScript WhiteSpace and LineTerminator code points. */
  predicate IsWhitespace(c: char) {
    || c == ' ' || c == '\t' || c == '\n' || c == '\r'
    || c == '\U{B}' || c == '\U{C}' || c == '\U{A0}' || c == '\U{1680}'
    || ('\U{2000}' <= c <= '\U{200A}')
    || c == '\U{2028}' || c == '\U{2029}' || c == '\U{202F}' || c == '\U{205F}'
    || c == '\U{3000}' || c == '\U{FEFF}'
  }

  /** Drops the leading whitespace: the result is the suffix of `s` that starts at its first other character. */
  function TrimStart(s: string): (r: string)
    ensures |r| <= |s| && r == s[|s| - |r|..]
    ensures forall k :: 0 <= k < |s| - |r| ==> IsWhitespace(s[k])
    ensures r == [] || !IsWhitespace(r[0])
  {
    if s != [] && IsWhitespace(s[0]) then TrimStart(s[1..]) else s
  }

  /** Drops the trailing whitespace: the result is the prefix of `s` that ends at its last other character. */
  function TrimEnd(s: string): (r: string)
    ensures |r| <= |s| && r == s[..|r|]
    ensures forall k :: |r| <= k < |s| ==> IsWhitespace(s[k])
    ensures r == [] || !IsWhitespace(r[|r| - 1])
  {
    if s != [] && IsWhitespace(s[|s| - 1]) then TrimEnd(s[..|s| - 1]) else s
  }

  /** `r` is `s` from index `a` on, with only whitespace outside it. */
  predicate OuterWhitespaceOf(s: string, a: int, r: string) {
    0 <= a <= |s| - |r| && r == s[a..a + |r|] &&
    forall k :: 0 <= k < |s| && (k < a || a + |r| <= k) ==> IsWhitespace(s[k])
  }

  /**
   * `s.trim()`: the slice of `s` left after dropping whitespace at both ends;
   * everything outside the slice is whitespace, and the slice does not start
   * or end with whitespace.
   */
  function Trim(s: string): (r: string)
    ensures exists a :: OuterWhitespaceOf(s, a, r)
    ensures r == [] || (!IsWhitespace(r[0]) && !IsWhitespace(r[|r| - 1]))
  {
    var t := TrimStart(s);
    var r := TrimEnd(t);
    var a := |s| - |t|;
    assert OuterWhitespaceOf(s, a, r);
    r
  }

  /** `trim` keeps every character that is not whitespace, so it only yields '' for an all-whitespace string. */
  lemma TrimKeepsNonWhitespace(s: string, k: nat)
    requires k < |s| && !IsWhitespace(s[k])
    ensures Trim(s) != []
  {
    var t := TrimStart(s);
    assert |s| - |t| <= k;
    assert t[k - (|s| - |t|)] == s[k];
    var u := TrimEnd(t);
    assert k - (|s| - |t|) < |u|;
  }

  /** `trim` leaves a string alone when it neither starts nor ends with whitespace. */
  lemma TrimIdentity(s: string)
    requires s == [] || (!IsWhitespace(s[0]) && !IsWhitespace(s[|s| - 1]))
    ensures Trim(s) == s
  {
  }
}
