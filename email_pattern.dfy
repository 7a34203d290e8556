/**
 * The contact form's email check, the unanchored regular expression
 * `/\S+@\S+\.\S+/` applied with `RegExp.prototype.test`.
 */
module EmailPattern {
  import opened JsText

  /** `s[a..b]` is a non-empty run of non-white-space characters, one `\S+`. */
  predicate NonWhitespaceRun(s: string, a: int, b: int)
    requires 0 <= a <= b <= |s|
  {
    a < b && forall k :: a <= k < b ==> !IsWhitespace(s[k])
  }

  /**
   * The text `s[a..e]` is one match of `\S+@\S+\.\S+`: the three `\S+` runs
   * are `s[a..i]`, `s[i+1..j]` and `s[j+1..e]`, with `@` at `i` and `.` at `j`.
   */
  predicate MatchAt(s: string, a: int, i: int, j: int, e: int)
  {
    && 0 <= a <= i && i + 1 <= j && j + 1 <= e <= |s|
    && NonWhitespaceRun(s, a, i)
    && s[i] == '@'
    && NonWhitespaceRun(s, i + 1, j)
    && s[j] == '.'
    && NonWhitespaceRun(s, j + 1, e)
  }

  /** `/\S+@\S+\.\S+/.test(s)`: some substring of `s` matches the pattern. */
  predicate MatchesEmailPattern(s: string)
  {
    exists a, i, j, e | 0 <= a <= i < j < e <= |s| :: MatchAt(s, a, i, j, e)
  }

  /**
   * The same condition stated on two positions only: an `@` at `i` preceded by
   * a non-white-space character, a `.` at `j` with a non-empty run of
   * non-white-space characters between them, and a non-white-space character
   * right after the `.`.
   */
  predicate EmailWitness(s: string, i: int, j: int)
  {
    && 1 <= i && i + 1 < j && j + 1 < |s|
    && s[i] == '@' && !IsWhitespace(s[i - 1])
    && (forall k :: i < k < j ==> !IsWhitespace(s[k]))
    && s[j] == '.' && !IsWhitespace(s[j + 1])
  }

  predicate HasEmailWitness(s: string)
  {
    exists i, j | 0 <= i < j < |s| :: EmailWitness(s, i, j)
  }

  /** A regular-expression match exists exactly when a two-position witness does. */
  lemma MatchesEmailPatternIffWitness(s: string)
    ensures MatchesEmailPattern(s) <==> HasEmailWitness(s)
  {
    if MatchesEmailPattern(s) {
      var a, i, j, e :| 0 <= a <= i < j < e <= |s| && MatchAt(s, a, i, j, e);
      assert !IsWhitespace(s[i - 1]);
      assert !IsWhitespace(s[j + 1]);
      assert EmailWitness(s, i, j);
    }
    if HasEmailWitness(s) {
      var i, j :| 0 <= i < j < |s| && EmailWitness(s, i, j);
      assert 1 <= i && s[i] == '@';
      assert NonWhitespaceRun(s, i - 1, i);
      assert MatchAt(s, i - 1, i, j, j + 2);
    }
  }

  /** A string without any `@` never matches. */
  lemma NoAtNoMatch(s: string)
    requires forall k :: 0 <= k < |s| ==> s[k] != '@'
    ensures !MatchesEmailPattern(s)
  {
  }
}
