/**
 * The JavaScript string operations the tokenizer relies on: `substr`,
 * `indexOf`, `trim`, `endsWith`, and the two regular expressions that detect
 * documentation comments. A string is a sequence of characters.
 */
module JsText {

  function Min(a: nat, b: nat): nat { if a <= b then a else b }

  /** `pat` occurs in `s` at position `i`. */
  predicate HasAt(s: string, i: nat, pat: string) {
    i + |pat| <= |s| && s[i..i + |pat|] == pat
  }

  /** `s.endsWith(pat)` */
  predicate EndsWith(s: string, pat: string) {
    |pat| <= |s| && s[|s| - |pat|..] == pat
  }

  /**
   * `s.substr(start, length)` for a non-negative start and length: the
   * characters of `s` from `start` on, at most `length` of them.
   */
  function Substr(s: string, start: nat, length: nat): (r: string)
    ensures |r| == if start < |s| then Min(length, |s| - start) else 0
    ensures forall k :: 0 <= k < |r| ==> r[k] == s[start + k]
  {
    if start >= |s| then ""
    else if start + length <= |s| then s[start..start + length]
    else s[start..]
  }

  /** `s.indexOf(pat)`: the first position at which `pat` occurs, or -1 when it does not. */
  function IndexOf(s: string, pat: string): (r: int)
    ensures -1 <= r <= |s|
    ensures r >= 0 ==> HasAt(s, r, pat)
    ensures forall i: nat | i <= |s| && (r == -1 || i < r) :: !HasAt(s, i, pat)
  {
    IndexOfFrom(s, pat, 0)
  }

  function IndexOfFrom(s: string, pat: string, from: nat): (r: int)
    requires from <= |s|
    ensures r == -1 || from <= r <= |s|
    ensures r >= 0 ==> HasAt(s, r, pat)
    ensures forall i: nat | from <= i <= |s| && (r == -1 || i < r) :: !HasAt(s, i, pat)
    decreases |s| - from
  {
    if HasAt(s, from, pat) then from
    else if from == |s| then -1
    else IndexOfFrom(s, pat, from + 1)
  }

  /** An ECMAScript LineTerminator: what `.` in a regular expression does not match. */
  predicate IsLineTerminator(c: char) {
    c == '\n' || c == '\r' || c == '\U{2028}' || c == '\U{2029}'
  }

  /** An ECMAScript WhiteSpace or LineTerminator: what `String.prototype.trim` removes. */
  predicate IsTrimmable(c: char) {
    IsLineTerminator(c)
    || c == '\t' || c == '\U{000B}' || c == '\U{000C}' || c == ' ' || c == '\U{00A0}' || c == '\U{FEFF}'
    || c == '\U{1680}' || ('\U{2000}' <= c <= '\U{200A}') || c == '\U{202F}' || c == '\U{205F}' || c == '\U{3000}'
  }

  /** `s` with its trailing whitespace removed: the longest prefix not ending in whitespace. */
  function TrimEnd(s: string): (r: string)
    ensures |r| <= |s| && r == s[..|r|]
    ensures r == [] || !IsTrimmable(r[|r| - 1])
    ensures forall k :: |r| <= k < |s| ==> IsTrimmable(s[k])
  {
    if s != [] && IsTrimmable(s[|s| - 1]) then TrimEnd(s[..|s| - 1]) else s
  }

  /** `s` with its leading whitespace removed: the longest suffix not starting with whitespace. */
  function TrimStart(s: string): (r: string)
    ensures |r| <= |s| && r == s[|s| - |r|..]
    ensures r == [] || !IsTrimmable(r[0])
    ensures forall k :: 0 <= k < |s| - |r| ==> IsTrimmable(s[k])
  {
    if s != [] && IsTrimmable(s[0]) then TrimStart(s[1..]) else s
  }

  /** `s.trim()` */
  function Trim(s: string): string {
    TrimStart(TrimEnd(s))
  }

  /** Lower-case ASCII letters are never whitespace. */
  lemma LettersNotTrimmable(word: string)
    requires forall k :: 0 <= k < |word| ==> 'a' <= word[k] <= 'z'
    ensures forall k :: 0 <= k < |word| ==> !IsTrimmable(word[k])
  {
  }

  /**
   * Whether a trimmed string ends with a word that holds no whitespace depends
   * only on the end of the string: trimming its start never cuts into the word.
   */
  lemma EndsWithAfterTrim(s: string, word: string)
    requires forall k :: 0 <= k < |word| ==> !IsTrimmable(word[k])
    ensures EndsWith(Trim(s), word) <==> EndsWith(TrimEnd(s), word)
  {
    var t := TrimEnd(s);
    var r := TrimStart(t);
    assert Trim(s) == r;
    assert forall k :: 0 <= k < |t| - |r| ==> IsTrimmable(t[k]);
    SuffixEndsWith(t, r, word, IsTrimmable);
  }

  /**
   * For a suffix `r` of `t` whose dropped prefix consists of characters with
   * property `p`, and a word without such characters: `r` ends with the word
   * exactly when `t` does.
   */
  lemma SuffixEndsWith(t: string, r: string, word: string, p: char -> bool)
    requires |r| <= |t| && r == t[|t| - |r|..]
    requires forall k :: 0 <= k < |t| - |r| ==> p(t[k])
    requires forall k :: 0 <= k < |word| ==> !p(word[k])
    ensures EndsWith(r, word) <==> EndsWith(t, word)
  {
    if EndsWith(r, word) {
      assert t[|t| - |word|..] == r[|r| - |word|..];
    }
    if EndsWith(t, word) && |word| > 0 {
      var m := |t| - |word|;
      assert t[m] == t[m..][0] == word[0];
      assert !p(t[m]);
      assert r[|r| - |word|..] == t[|t| - |word|..];
    }
  }

  predicate NoLineTerminator(s: string) {
    forall k :: 0 <= k < |s| ==> !IsLineTerminator(s[k])
  }

  /**
   * The regular expression test of a line for an opening documentation
   * comment: the three characters slash, star, star occur and no line
   * terminator follows them up to the end of `s` (the pattern ends in `.*$`).
   */
  predicate DocCommentOpensToEnd(s: string) {
    exists i: nat | i <= |s| :: HasAt(s, i, "/**") && NoLineTerminator(s[i + 3..])
  }

  /**
   * The regular expression test of a comment for a one-entry documentation
   * comment: slash, star, star occurs, then star, slash occurs later without
   * overlapping it, with no line terminator in between (`.*` between them).
   */
  predicate DocCommentBlock(s: string) {
    exists i: nat, j: nat | i <= |s| && j <= |s| ::
      i + 3 <= j && HasAt(s, i, "/**") && HasAt(s, j, "*/") && NoLineTerminator(s[i + 3..j])
  }

  /**
   * On a line without line terminators the first test is plain occurrence of
   * the opening slash, star, star.
   */
  lemma OpensToEndOnPlainText(s: string)
    requires NoLineTerminator(s)
    ensures DocCommentOpensToEnd(s) <==> exists i: nat | i <= |s| :: HasAt(s, i, "/**")
  {
    if i: nat :| i <= |s| && HasAt(s, i, "/**") {
      var rest := s[i + 3..];
      assert NoLineTerminator(rest) by {
        forall k | 0 <= k < |rest| ensures !IsLineTerminator(rest[k]) {
          assert rest[k] == s[i + 3 + k];
        }
      }
    }
  }

  /**
   * On a line without line terminators the second test is an opening slash,
   * star, star followed later by a closing star, slash.
   */
  lemma BlockOnPlainText(s: string)
    requires NoLineTerminator(s)
    ensures DocCommentBlock(s) <==>
      exists i: nat, j: nat | i <= |s| && j <= |s| :: i + 3 <= j && HasAt(s, i, "/**") && HasAt(s, j, "*/")
  {
    if i: nat, j: nat :| i <= |s| && j <= |s| && i + 3 <= j && HasAt(s, i, "/**") && HasAt(s, j, "*/") {
      var between := s[i + 3..j];
      assert NoLineTerminator(between) by {
        forall k | 0 <= k < |between| ensures !IsLineTerminator(between[k]) {
          assert between[k] == s[i + 3 + k];
        }
      }
    }
  }
}
