/** The string helpers of the Kotlin standard library that the pipeline relies on. */
module Text {

  /**
   * Kotlin's Char.isWhitespace on the JVM: Java whitespace or a Unicode space,
   * line or paragraph separator.
   */
  predicate IsWhitespace(c: char)
  {
    c == ' ' || ('\t' <= c <= '\r') || ('\U{1C}' <= c <= '\U{1F}')
    || c == '\U{A0}' || c == '\U{1680}' || ('\U{2000}' <= c <= '\U{200A}')
    || c == '\U{2028}' || c == '\U{2029}' || c == '\U{202F}' || c == '\U{205F}' || c == '\U{3000}'
  }

  /** `isBlank`: empty, or whitespace only. */
  predicate IsBlank(s: string)
  {
    forall i :: 0 <= i < |s| ==> IsWhitespace(s[i])
  }

  /** Lower-casing of one character; only the ASCII capitals are mapped. */
  function LowerChar(c: char): (r: char)
    ensures 'A' <= c <= 'Z' ==> 'a' <= r <= 'z'
    ensures !('A' <= c <= 'Z') ==> r == c
  {
    if 'A' <= c <= 'Z' then (c as int - 'A' as int + 'a' as int) as char else c
  }

  /** `lowercase()`, character by character. */
  function LowerCase(s: string): (r: string)
    ensures |r| == |s|
    ensures forall i :: 0 <= i < |s| ==> r[i] == LowerChar(s[i])
  {
    if s == [] then [] else [LowerChar(s[0])] + LowerCase(s[1..])
  }

  /**
   * `replace(pattern, replacement)`: every occurrence of the pattern, scanning from the
   * left and never re-scanning inserted text, is replaced.
   */
  function ReplaceAll(s: string, pattern: string, replacement: string): string
    requires |pattern| > 0
    decreases |s|
  {
    if |s| < |pattern| then s
    else if s[..|pattern|] == pattern then replacement + ReplaceAll(s[|pattern|..], pattern, replacement)
    else [s[0]] + ReplaceAll(s[1..], pattern, replacement)
  }

  /** A string without the pattern's first character is left as it is. */
  lemma {:induction false} ReplaceAllWithoutPattern(s: string, pattern: string, replacement: string)
    requires |pattern| > 0
    requires pattern[0] !in s
    ensures ReplaceAll(s, pattern, replacement) == s
    decreases |s|
  {
    if |s| >= |pattern| {
      assert s[..|pattern|][0] == s[0] != pattern[0];
      assert s == [s[0]] + s[1..];
      ReplaceAllWithoutPattern(s[1..], pattern, replacement);
    }
  }

  /**
   * A template holding the pattern exactly once, with the pattern's first character
   * nowhere else, becomes the template with the replacement in that place.
   */
  lemma {:induction false} ReplaceAllSingleSlot(prefix: string, pattern: string, suffix: string, replacement: string)
    requires |pattern| > 0
    requires pattern[0] !in prefix && pattern[0] !in suffix
    ensures ReplaceAll(prefix + pattern + suffix, pattern, replacement) == prefix + replacement + suffix
    decreases |prefix|
  {
    var s := prefix + pattern + suffix;
    if prefix == [] {
      assert s == pattern + suffix;
      assert s[..|pattern|] == pattern && s[|pattern|..] == suffix;
      assert ReplaceAll(s, pattern, replacement) == replacement + ReplaceAll(suffix, pattern, replacement);
      ReplaceAllWithoutPattern(suffix, pattern, replacement);
    } else {
      assert s[0] == prefix[0] && s[0] != pattern[0];
      assert s[..|pattern|] != pattern by {
        assert s[..|pattern|][0] == s[0];
      }
      assert ReplaceAll(s, pattern, replacement) == [s[0]] + ReplaceAll(s[1..], pattern, replacement);
      assert s[1..] == prefix[1..] + pattern + suffix;
      forall j | 0 <= j < |prefix| - 1
        ensures prefix[1..][j] != pattern[0]
      {
        assert prefix[1..][j] == prefix[j + 1];
      }
      ReplaceAllSingleSlot(prefix[1..], pattern, suffix, replacement);
      assert prefix == [prefix[0]] + prefix[1..];
    }
  }
}
