/** Character classes and the `capitalize` helper of main.js. */
module Text {

  /** JavaScript's `\s`: the ECMAScript WhiteSpace and LineTerminator code points
      (tab, line feed, vertical tab, form feed, carriage return, the Unicode space
      separators, the line and paragraph separators and the byte-order mark). */
  predicate IsSpace(c: char) {
    || c == '\t' || c == '\n' || c == '\U{000B}' || c == '\U{000C}' || c == '\r'
    || c == ' ' || c == '\U{00A0}' || c == '\U{1680}'
    || ('\U{2000}' <= c <= '\U{200A}')
    || c == '\U{2028}' || c == '\U{2029}' || c == '\U{202F}' || c == '\U{205F}'
    || c == '\U{3000}' || c == '\U{FEFF}'
  }

  predicate IsAsciiLower(c: char) { 'a' <= c <= 'z' }

  predicate IsAsciiUpper(c: char) { 'A' <= c <= 'Z' }

  /** `toUpperCase` on one character, restricted to the ASCII letters: a lower-case
      letter becomes the upper-case letter at the same place in the alphabet, every
      other character is kept. */
  function ToUpper(c: char): (u: char)
    ensures IsAsciiLower(c) ==> IsAsciiUpper(u) && u as int - 'A' as int == c as int - 'a' as int
    ensures !IsAsciiLower(c) ==> u == c
    ensures !IsAsciiLower(u)
  {
    if IsAsciiLower(c) then (c as int - 'a' as int + 'A' as int) as char else c
  }

  /** `str.charAt(0).toUpperCase() + str.slice(1)`: upper-cases the first character
      and keeps the rest; the empty string stays empty. */
  function Capitalize(s: string): (r: string)
    ensures |r| == |s|
    ensures s == "" ==> r == ""
    ensures s != "" ==> r[0] == ToUpper(s[0]) && r[1..] == s[1..]
    ensures forall i :: 1 <= i < |s| ==> r[i] == s[i]
  {
    if s == "" then "" else [ToUpper(s[0])] + s[1..]
  }

  /** Capitalizing twice is capitalizing once. */
  lemma CapitalizeIdempotent(s: string)
    ensures Capitalize(Capitalize(s)) == Capitalize(s)
  {
  }

  /** A string that does not start with a lower-case letter is its own capitalization,
      and a capitalized string never starts with one. */
  lemma CapitalizeFixedPoints(s: string)
    ensures Capitalize(s) == s <==> (s == "" || !IsAsciiLower(s[0]))
    ensures Capitalize(s) != "" ==> !IsAsciiLower(Capitalize(s)[0])
  {
    if s != "" && IsAsciiLower(s[0]) {
      assert Capitalize(s)[0] != s[0];
    }
  }
}
