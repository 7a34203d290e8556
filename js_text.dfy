/**
 * The two pieces of JavaScript's string library the contact form relies on:
 * the white-space class (used by `String.prototype.trim` and by the regular
 * expression escapes `\s` / `\S`) and `trim` itself.
 */
module JsText {

  /**
   * ECMA-262, section 12.2 (White Space) and section 12.3 (Line Terminators):
   * TAB, VT, FF, ZWNBSP, every code point of Unicode category Zs (Unicode 15),
   * and LF, CR, LINE SEPARATOR, PARAGRAPH SEPARATOR.
   */
  predicate IsWhitespace(c: char)
  {
    // WhiteSpace: TAB, VT, FF, ZWNBSP
    || c == '\t' || c == '\U{B}' || c == '\U{C}' || c == '\U{FEFF}'
    // WhiteSpace: USP, the Zs category
    || c == ' ' || c == '\U{A0}' || c == '\U{1680}'
    || ('\U{2000}' <= c <= '\U{200A}')
    || c == '\U{202F}' || c == '\U{205F}' || c == '\U{3000}'
    // LineTerminator: LF, CR, LS, PS
    || c == '\n' || c == '\r' || c == '\U{2028}' || c == '\U{2029}'
  }

  /** Every character of `s` is white space (the empty string included). */
  predicate IsBlank(s: string)
  {
    forall i :: 0 <= i < |s| ==> IsWhitespace(s[i])
  }

  /** Length of the run of white space that `s` starts with. */
  function LeadingWhitespace(s: string): (k: nat)
    ensures k <= |s|
    ensures forall i :: 0 <= i < k ==> IsWhitespace(s[i])
    ensures k < |s| ==> !IsWhitespace(s[k])
  {
    if |s| == 0 || !IsWhitespace(s[0]) then 0
    else 1 + LeadingWhitespace(s[1..])
  }

  /** Index at which the run of white space that `s` ends with begins. */
  function TrailingWhitespaceStart(s: string): (k: nat)
    ensures k <= |s|
    ensures forall i :: k <= i < |s| ==> IsWhitespace(s[i])
    ensures 0 < k ==> !IsWhitespace(s[k - 1])
  {
    if |s| == 0 || !IsWhitespace(s[|s| - 1]) then |s|
    else TrailingWhitespaceStart(s[..|s| - 1])
  }

  /**
   * `String.prototype.trim`: `s` without its leading and trailing white space.
   * The result is a slice of `s` with blank text on either side; it is empty
   * exactly when `s` is blank, and otherwise starts and ends with a
   * non-white-space character.
   */
  function Trim(s: string): (r: string)
    ensures r == [] <==> IsBlank(s)
    ensures r != [] ==> !IsWhitespace(r[0]) && !IsWhitespace(r[|r| - 1])
  {
    var a := LeadingWhitespace(s);
    var b := if a == |s| then a else TrailingWhitespaceStart(s);
    assert a < b ==> !IsWhitespace(s[a]);
    s[a..b]
  }

  /** `Trim(s)` is `s` with a blank prefix and a blank suffix cut off. */
  lemma TrimIsSlice(s: string)
    ensures exists a, b {:trigger s[a..b]} ::
              0 <= a <= b <= |s| && Trim(s) == s[a..b] && IsBlank(s[..a]) && IsBlank(s[b..])
  {
    var a := LeadingWhitespace(s);
    var b := if a == |s| then a else TrailingWhitespaceStart(s);
    assert a < b ==> !IsWhitespace(s[a]);
    assert IsBlank(s[..a]) && IsBlank(s[b..]);
    assert Trim(s) == s[a..b];
  }
}
