/**
 * String helpers standing in for the JavaScript string operations the pages use:
 * `toLowerCase`, `trim` and the one-word alternatives of a regular expression
 * such as `/price|cost|rate/`, each of which asks whether a literal word occurs
 * somewhere in the text.
 */
module Text {

  /** `pat` occurs in `s` starting at index `i`. */
  predicate OccursAt(s: string, pat: string, i: int) {
    0 <= i && i + |pat| <= |s| && s[i..i + |pat|] == pat
  }

  /** `pat` occurs in `s` as a contiguous run of characters. */
  predicate Contains(s: string, pat: string) {
    exists i :: 0 <= i <= |s| && OccursAt(s, pat, i)
  }

  /** Some word of `words` occurs in `s`: the test `s.match(/w1|w2|.../)`. */
  predicate ContainsAny(s: string, words: seq<string>) {
    exists k :: k in words && Contains(s, k)
  }

  /** Every character of an occurrence is a character of the text. */
  lemma {:induction false} ContainsChars(s: string, pat: string, c: char)
    requires Contains(s, pat) && c in pat
    ensures c in s
  {
    var i :| 0 <= i <= |s| && OccursAt(s, pat, i);
    var j :| 0 <= j < |pat| && pat[j] == c;
    assert s[i + j] == s[i..i + |pat|][j];
  }

  /** A word with a character the text lacks does not occur in it. */
  lemma MissingCharExcludes(s: string, pat: string, c: char)
    requires c in pat && c !in s
    ensures !Contains(s, pat)
  {
    if Contains(s, pat) {
      ContainsChars(s, pat, c);
    }
  }

  /**
   * None of `words` occurs in `s` when each word has a character, given in
   * `missing` at the same position, that `s` lacks.
   */
  lemma NoneOccur(s: string, words: seq<string>, missing: seq<char>)
    requires |missing| == |words|
    requires forall n :: 0 <= n < |words| ==> missing[n] in words[n] && missing[n] !in s
    ensures !ContainsAny(s, words)
  {
    forall k | k in words
      ensures !Contains(s, k)
    {
      var n :| 0 <= n < |words| && words[n] == k;
      MissingCharExcludes(s, k, missing[n]);
    }
  }

  /** The empty text contains no non-empty word. */
  lemma EmptyContainsNothing(words: seq<string>)
    requires forall k :: k in words ==> k != ""
    ensures !ContainsAny("", words)
  {
  }

  /** A word is found in any text that starts with it. */
  lemma PrefixContains(s: string, pat: string)
    requires |pat| <= |s| && s[..|pat|] == pat
    ensures Contains(s, pat)
  {
    assert OccursAt(s, pat, 0);
  }

  // ----- lower-casing -----

  predicate IsUpper(c: char) { 'A' <= c <= 'Z' }

  /**
   * Lower-cases one character. Only the ASCII letters are mapped: the keywords
   * the pages match against are ASCII or Devanagari, and Devanagari has no case.
   */
  function LowerChar(c: char): (r: char)
    ensures !IsUpper(r)
    ensures IsUpper(c) ==> r as int == c as int + 32
    ensures !IsUpper(c) ==> r == c
  {
    if IsUpper(c) then (c as int + 32) as char else c
  }

  /** `String.prototype.toLowerCase`, restricted to the ASCII letters. */
  function ToLower(s: string): (r: string)
    ensures |r| == |s| && NoUpper(r)
    ensures forall i :: 0 <= i < |s| && !IsUpper(s[i]) ==> r[i] == s[i]
    ensures forall i :: 0 <= i < |s| && IsUpper(s[i]) ==> r[i] as int == s[i] as int + 32
  {
    seq(|s|, i requires 0 <= i < |s| => LowerChar(s[i]))
  }

  predicate NoUpper(s: string) {
    forall i :: 0 <= i < |s| ==> !IsUpper(s[i])
  }

  /** Lower-casing changes nothing in a lower-case text, so applying it twice is applying it once. */
  lemma ToLowerFacts(s: string)
    ensures NoUpper(s) ==> ToLower(s) == s
    ensures ToLower(ToLower(s)) == ToLower(s)
  {
  }

  /** Lower-casing commutes with taking a slice. */
  lemma ToLowerSlice(s: string, i: int, j: int)
    requires 0 <= i <= j <= |s|
    ensures ToLower(s)[i..j] == ToLower(s[i..j])
  {
  }

  /**
   * A keyword is found in the lower-cased text wherever the text holds any
   * spelling of it that lower-cases to the keyword: "PRICE" and "Price" are
   * found as `price` just as "price" is.
   */
  lemma {:induction false} LowerKeepsLowerWords(s: string, pat: string, i: int)
    requires 0 <= i && i + |pat| <= |s| && ToLower(s[i..i + |pat|]) == pat
    ensures Contains(ToLower(s), pat)
  {
    ToLowerSlice(s, i, i + |pat|);
    assert OccursAt(ToLower(s), pat, i);
  }

  /** Example: the capitalised "PRICE" is found as the keyword `price`. */
  lemma CapitalsStillFound()
    ensures Contains(ToLower("Best PRICE"), "price")
  {
    var s := "Best PRICE";
    assert ToLower(s[5..10]) == "price";
    LowerKeepsLowerWords(s, "price", 5);
  }

  // ----- trimming -----

  /**
   * The characters `String.prototype.trim` removes: the ECMAScript WhiteSpace
   * (tab, vertical tab, form feed, space, no-break space, byte-order mark and
   * the Unicode space separators) and LineTerminator characters.
   */
  predicate IsWhitespace(c: char) {
    || c == '\t' || c == '\n' || c == '\U{B}' || c == '\U{C}' || c == '\r' || c == ' '
    || c == '\U{A0}' || c == '\U{1680}' || ('\U{2000}' <= c <= '\U{200A}')
    || c == '\U{2028}' || c == '\U{2029}' || c == '\U{202F}' || c == '\U{205F}'
    || c == '\U{3000}' || c == '\U{FEFF}'
  }

  /** `trimStart`: the suffix left after the leading whitespace; nothing is left exactly when the text is blank. */
  function TrimStart(s: string): (r: string)
    ensures |r| <= |s| && r == s[|s| - |r|..]
    ensures r != "" ==> !IsWhitespace(r[0])
    ensures r == "" <==> IsBlank(s)
    decreases |s|
  {
    if s != [] && IsWhitespace(s[0]) then
      assert forall i :: 0 < i < |s| ==> s[i] == s[1..][i - 1];
      TrimStart(s[1..])
    else s
  }

  /** `trimEnd`: the prefix left before the trailing whitespace; a non-blank first character survives it. */
  function TrimEnd(s: string): (r: string)
    ensures |r| <= |s| && r == s[..|r|]
    ensures r != "" ==> !IsWhitespace(r[|r| - 1])
    ensures s != "" && !IsWhitespace(s[0]) ==> r != "" && r[0] == s[0]
    decreases |s|
  {
    if s != [] && IsWhitespace(s[|s| - 1]) then TrimEnd(s[..|s| - 1]) else s
  }

  /** Every character is whitespace (the empty text included). */
  predicate IsBlank(s: string) {
    forall i :: 0 <= i < |s| ==> IsWhitespace(s[i])
  }

  /**
   * `String.prototype.trim`: a slice of the text that neither starts nor ends
   * with whitespace, and is empty exactly for the blank texts, the ones
   * `!s.trim()` rejects.
   */
  function Trim(s: string): (r: string)
    ensures |r| <= |s|
    ensures r == "" <==> IsBlank(s)
    ensures r != "" ==> !IsWhitespace(r[0]) && !IsWhitespace(r[|r| - 1])
  {
    TrimEnd(TrimStart(s))
  }
}
