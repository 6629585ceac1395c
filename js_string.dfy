/**
 * String primitives of ECMAScript (ECMA-262) that the application relies on:
 * the white-space class used by `String.prototype.trim` and by `parseInt`,
 * and the trimming itself (the abstract operation TrimString).
 */
module JsString {

  /** WhiteSpace or LineTerminator code points (ECMA-262, sections 12.2 and 12.3). */
  predicate IsWhiteSpace(c: char)
  {
    if c <= ' ' then c == ' ' || '\t' <= c <= '\r'  // tab, line feed, vertical tab, form feed, carriage return
    else if c < '\U{00A0}' then false
    else
      c == '\U{00A0}' || c == '\U{1680}' || ('\U{2000}' <= c <= '\U{200A}') || c == '\U{2028}' ||
      c == '\U{2029}' || c == '\U{202F}' || c == '\U{205F}' || c == '\U{3000}' || c == '\U{FEFF}'
  }

  /** Every character of `s` is white space. */
  predicate AllWhiteSpace(s: string)
  {
    forall i :: 0 <= i < |s| ==> IsWhiteSpace(s[i])
  }

  /** The number of white-space characters at the start of `s`. */
  function LeadingWhiteSpace(s: string): (n: nat)
    ensures n <= |s| && AllWhiteSpace(s[..n])
    ensures n == |s| || !IsWhiteSpace(s[n])
    decreases |s|
  {
    if s != [] && IsWhiteSpace(s[0]) then
      var n := 1 + LeadingWhiteSpace(s[1..]);
      assert forall i :: 1 <= i < n ==> s[..n][i] == s[1..][..n - 1][i - 1];
      n
    else 0
  }

  /** The number of white-space characters at the end of `s`. */
  function TrailingWhiteSpace(s: string): (n: nat)
    ensures n <= |s| && AllWhiteSpace(s[|s| - n..])
    ensures n == |s| || !IsWhiteSpace(s[|s| - n - 1])
    decreases |s|
  {
    if s != [] && IsWhiteSpace(s[|s| - 1]) then
      var n := 1 + TrailingWhiteSpace(s[..|s| - 1]);
      n
    else 0
  }

  /** Drops leading white space: what remains is empty or starts with another character. */
  function TrimStart(s: string): (r: string)
    ensures |r| <= |s| && r == s[|s| - |r|..]
    ensures AllWhiteSpace(s[..|s| - |r|])
    ensures r == [] || !IsWhiteSpace(r[0])
  {
    s[LeadingWhiteSpace(s)..]
  }

  /**
   * `String.prototype.trim`: white space removed at both ends, the inner text kept as it
   * is. The result starts after the leading white space, and all that follows it is white space.
   */
  function Trim(s: string): (r: string)
    ensures r == [] || (!IsWhiteSpace(r[0]) && !IsWhiteSpace(r[|r| - 1]))
    ensures LeadingWhiteSpace(s) + |r| <= |s|
    ensures r == s[LeadingWhiteSpace(s)..LeadingWhiteSpace(s) + |r|]
    ensures AllWhiteSpace(s[LeadingWhiteSpace(s) + |r|..])
  {
    var lead := LeadingWhiteSpace(s);
    var t := s[lead..];
    var trail := TrailingWhiteSpace(t);
    var r := t[..|t| - trail];
    assert r == [] || (r[0] == s[lead] && r[|r| - 1] == t[|t| - trail - 1]);
    assert s[lead + |r|..] == t[|t| - trail..];
    r
  }

  /** Text that does not start with white space has nothing to drop at its start. */
  lemma TrimStartUntouched(s: string)
    requires s == [] || !IsWhiteSpace(s[0])
    ensures TrimStart(s) == s
  {
  }

  /** Trimming text that neither starts nor ends with white space leaves it unchanged. */
  lemma TrimUntouched(s: string)
    requires s == [] || (!IsWhiteSpace(s[0]) && !IsWhiteSpace(s[|s| - 1]))
    ensures Trim(s) == s
  {
  }

  /** Trimming is idempotent. */
  lemma TrimIdempotent(s: string)
    ensures Trim(Trim(s)) == Trim(s)
  {
    TrimUntouched(Trim(s));
  }
}
