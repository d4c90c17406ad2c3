/** The Kotlin string functions the screens rely on: `isBlank` / `isNotBlank`,
    `lowercase()` and `replaceFirstChar { it.uppercaseChar() }`. */
module Text {

  /** Kotlin's `Char.isWhitespace()` on the JVM: Java's whitespace characters together
      with its space characters, i.e. tab, line feed, vertical tab, form feed, carriage
      return, the four information separators U+001C–U+001F, and every character of the
      Unicode categories Zs, Zl and Zp (the no-break spaces included). */
  predicate IsWhitespace(c: char) {
    || c == '\t' || c == '\n' || c == '\U{000B}' || c == '\U{000C}' || c == '\r'
    || ('\U{001C}' <= c <= '\U{001F}')
    || c == ' ' || c == '\U{00A0}' || c == '\U{1680}'
    || ('\U{2000}' <= c <= '\U{200A}')
    || c == '\U{2028}' || c == '\U{2029}' || c == '\U{202F}' || c == '\U{205F}' || c == '\U{3000}'
  }

  /** `isBlank`: the string is empty or every character is whitespace. */
  predicate IsBlank(s: string)
    decreases |s|
  {
    |s| == 0 || (IsWhitespace(s[0]) && IsBlank(s[1..]))
  }

  /** `isNotBlank` holds exactly when some character is not whitespace. */
  lemma {:induction false} NotBlankIff(s: string)
    ensures !IsBlank(s) <==> exists i :: 0 <= i < |s| && !IsWhitespace(s[i])
    decreases |s|
  {
    if |s| > 0 {
      NotBlankIff(s[1..]);
      if !IsWhitespace(s[0]) {
        assert !IsWhitespace(s[0]);
      } else if exists i :: 0 <= i < |s[1..]| && !IsWhitespace(s[1..][i]) {
        var i :| 0 <= i < |s[1..]| && !IsWhitespace(s[1..][i]);
        assert s[i + 1] == s[1..][i];
      } else {
        forall i | 0 <= i < |s|
          ensures IsWhitespace(s[i])
        {
          if i > 0 {
            assert s[i] == s[1..][i - 1];
          }
        }
      }
    }
  }

  /** `Char.lowercaseChar()` on ASCII letters; every other character is kept. */
  function LowerChar(c: char): (r: char)
    ensures 'A' <= c <= 'Z' ==> r as int == c as int + 32
    ensures !('A' <= c <= 'Z') ==> r == c
  {
    if 'A' <= c <= 'Z' then (c as int + 32) as char else c
  }

  /** `Char.uppercaseChar()` on ASCII letters; every other character is kept. */
  function UpperChar(c: char): (r: char)
    ensures 'a' <= c <= 'z' ==> r as int == c as int - 32
    ensures !('a' <= c <= 'z') ==> r == c
  {
    if 'a' <= c <= 'z' then (c as int - 32) as char else c
  }

  /** `String.lowercase()`, character by character. */
  function Lowercase(s: string): (r: string)
    ensures |r| == |s|
    ensures forall i :: 0 <= i < |s| ==> r[i] == LowerChar(s[i])
  {
    seq(|s|, i requires 0 <= i < |s| => LowerChar(s[i]))
  }

  /** The result of `lowercase()` has no upper-case letter left, so lowering it again
      changes nothing. */
  lemma LowercaseIdempotent(s: string)
    ensures Lowercase(Lowercase(s)) == Lowercase(s)
  {
    var l := Lowercase(s);
    forall i | 0 <= i < |s|
      ensures Lowercase(l)[i] == l[i]
    {
      assert l[i] == LowerChar(s[i]);
      assert !('A' <= l[i] <= 'Z');
    }
  }

  /** `replaceFirstChar { it.uppercaseChar() }`: the first character upper-cased, the
      rest unchanged; the empty string stays empty. */
  function Capitalize(s: string): (r: string)
    ensures |r| == |s|
    ensures |s| > 0 ==> r[0] == UpperChar(s[0]) && r[1..] == s[1..]
  {
    if |s| == 0 then s else [UpperChar(s[0])] + s[1..]
  }
}
