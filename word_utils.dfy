/**
 * The part of Apache Commons Lang's WordUtils.capitalize(String) that the
 * index-kind decoder relies on: the first character of every
 * whitespace-separated word is title-cased and every other character is
 * kept as it is.
 */
module WordUtils {

  /** Java's Character.isWhitespace as Java 9 and later define it (Unicode
      6.3 onwards; Java 8 also counts U+180E): the ASCII separators and
      control characters it accepts, and the Unicode space, line and
      paragraph separators other than the non-breaking ones. */
  predicate IsWhitespace(c: char)
    ensures c == ' ' || c == '\t' || c == '\n' || c == '\r' ==> IsWhitespace(c)
    ensures c == '\U{A0}' || c == '\U{2007}' || c == '\U{202F}' ==> !IsWhitespace(c)
    ensures '0' <= c <= '9' || 'A' <= c <= 'Z' || 'a' <= c <= 'z' || c == '\U{17F}' ==> !IsWhitespace(c)
  {
    || c == ' ' || c == '\t' || c == '\n' || c == '\U{B}' || c == '\U{C}' || c == '\r'
    || ('\U{1C}' <= c <= '\U{1F}')
    || c == '\U{1680}'
    || ('\U{2000}' <= c <= '\U{2006}')
    || ('\U{2008}' <= c <= '\U{200A}')
    || c == '\U{2028}' || c == '\U{2029}' || c == '\U{205F}' || c == '\U{3000}'
  }

  /** Java's Character.toTitleCase, for the ASCII small letters and LATIN
      SMALL LETTER LONG S, whose title case is 'S'; every other character is
      kept. Among all characters, only these small letters, the long s and
      the capitals themselves title-case to 'H', 'R' or 'S'. */
  function ToTitle(c: char): (t: char)
    ensures 'A' <= t <= 'Z' ==> c == t || c as int == t as int + 32 || (t == 'S' && c == '\U{17F}')
    ensures !IsWhitespace(c) ==> !IsWhitespace(t)
  {
    if 'a' <= c <= 'z' then (c as int - 32) as char
    else if c == '\U{17F}' then 'S'
    else c
  }

  /** The scan of WordUtils.capitalize from a given state: a non-whitespace
      character is title-cased when the scan is armed, every other character
      is kept, and the scan is armed for the next character exactly when
      this one is whitespace. So a character is title-cased exactly when it
      is not whitespace and starts a word: it comes first and the scan
      starts armed, or it follows whitespace. */
  function CapitalizeFrom(s: string, capitalizeNext: bool): (r: string)
    ensures |r| == |s|
    ensures forall i {:trigger r[i]} :: 0 <= i < |s| ==>
      r[i] == if !IsWhitespace(s[i]) && ((i == 0 && capitalizeNext) || (i > 0 && IsWhitespace(s[i - 1])))
              then ToTitle(s[i]) else s[i]
  {
    if s == [] then []
    else
      var first := if capitalizeNext && !IsWhitespace(s[0]) then ToTitle(s[0]) else s[0];
      var rest := CapitalizeFrom(s[1..], IsWhitespace(s[0]));
      assert forall i :: 0 < i < |s| ==>
        rest[i - 1] == if IsWhitespace(s[i - 1]) && !IsWhitespace(s[i]) then ToTitle(s[i]) else s[i];
      [first] + rest
  }

  /** WordUtils.capitalize(str) with the default (whitespace) delimiters:
      exactly the characters that start a word (non-whitespace, and first or
      after whitespace) are title-cased; every other character is kept. The
      empty string is returned as it is. */
  function Capitalize(s: string): (r: string)
    ensures |r| == |s|
    ensures forall i {:trigger r[i]} :: 0 <= i < |s| ==>
      r[i] == if !IsWhitespace(s[i]) && (i == 0 || IsWhitespace(s[i - 1])) then ToTitle(s[i]) else s[i]
  {
    CapitalizeFrom(s, true)
  }

  /** A single word, with no whitespace in it, has only its first character
      title-cased. */
  lemma {:induction false} CapitalizeWord(w: string)
    requires |w| > 0
    requires forall i :: 0 <= i < |w| ==> !IsWhitespace(w[i])
    ensures Capitalize(w) == [ToTitle(w[0])] + w[1..]
  {
    var r := Capitalize(w);
    forall i | 0 < i < |w|
      ensures r[i] == w[i]
    {
      assert !IsWhitespace(w[i - 1]);
    }
  }
}
