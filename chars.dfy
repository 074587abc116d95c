/**
 * Character classes and the string primitives the editor relies on:
 * ASCII digits (the regular expression class `\d`), white space as
 * `String.prototype.trim` and `\s` see it, and a lower-case mapping.
 */
module Chars {

  /** `\d`: ASCII digits only, whatever the script of the text. */
  predicate IsAsciiDigit(c: char) {
    '0' <= c <= '9'
  }

  predicate AllDigits(s: string) {
    forall i :: 0 <= i < |s| ==> IsAsciiDigit(s[i])
  }

  /**
   * ECMAScript WhiteSpace and LineTerminator code points (U+0009 to
   * U+000D are tab, line feed, vertical tab, form feed and carriage
   * return): what `trim` strips and what `\s` matches.
   */
  predicate IsWhitespace(c: char) {
    ('\t' <= c <= '\r') || c == ' '
    || c == '\U{00A0}' || c == '\U{1680}'
    || ('\U{2000}' <= c <= '\U{200A}')
    || c == '\U{2028}' || c == '\U{2029}'
    || c == '\U{202F}' || c == '\U{205F}' || c == '\U{3000}'
    || c == '\U{FEFF}'
  }

  predicate AllWhitespace(s: string) {
    forall i :: 0 <= i < |s| ==> IsWhitespace(s[i])
  }

  predicate NoWhitespace(s: string) {
    forall i :: 0 <= i < |s| ==> !IsWhitespace(s[i])
  }

  /** How many white-space characters `s` starts with. */
  function LeadingSpaces(s: string): (n: nat)
    ensures n <= |s|
    ensures forall k :: 0 <= k < n ==> IsWhitespace(s[k])
    ensures n == |s| || !IsWhitespace(s[n])
  {
    if s != [] && IsWhitespace(s[0]) then
      var n := 1 + LeadingSpaces(s[1..]);
      assert forall k :: 1 <= k < n ==> s[k] == s[1..][k - 1];
      n
    else 0
  }

  /** Where the white space at the back of `s` begins. */
  function TrailingStart(s: string): (m: nat)
    ensures m <= |s|
    ensures forall k :: m <= k < |s| ==> IsWhitespace(s[k])
    ensures m == 0 || !IsWhitespace(s[m - 1])
  {
    if s != [] && IsWhitespace(s[|s| - 1]) then
      var m := TrailingStart(s[..|s| - 1]);
      assert forall k :: m <= k < |s| - 1 ==> s[k] == s[..|s| - 1][k];
      m
    else |s|
  }

  /** The white space at the front of `s` removed (what trimStart does). */
  function TrimStart(s: string): (r: string)
    ensures |r| <= |s| && r == s[|s| - |r|..]
    ensures AllWhitespace(s[..|s| - |r|])
    ensures r == [] || !IsWhitespace(r[0])
  {
    s[LeadingSpaces(s)..]
  }

  /** The white space at the back of `s` removed (what trimEnd does). */
  function TrimEnd(s: string): (r: string)
    ensures |r| <= |s| && r == s[..|r|]
    ensures AllWhitespace(s[|r|..])
    ensures r == [] || !IsWhitespace(r[|r| - 1])
  {
    s[..TrailingStart(s)]
  }

  /** `String.prototype.trim`: white space removed from both ends. */
  function Trim(s: string): (r: string)
    ensures r == [] <==> AllWhitespace(s)
    ensures r == [] || (!IsWhitespace(r[0]) && !IsWhitespace(r[|r| - 1]))
  {
    var n := LeadingSpaces(s);
    var a := s[n..];
    var m := TrailingStart(a);
    assert m == 0 ==> forall k :: 0 <= k < |s| ==> IsWhitespace(s[k]) by {
      assert forall k :: n <= k < |s| ==> s[k] == a[k - n];
    }
    a[..m]
  }

  /**
   * `Trim` cuts a contiguous slice out of `s`: everything before it and
   * everything after it is white space.
   */
  lemma TrimIsSlice(s: string)
    ensures var i := LeadingSpaces(s);
            i + |Trim(s)| <= |s| && Trim(s) == s[i..i + |Trim(s)|]
            && AllWhitespace(s[..i]) && AllWhitespace(s[i + |Trim(s)|..])
  {
    TrimSliceBody(s);
    TrimSliceAfter(s);
  }

  lemma TrimSliceBody(s: string)
    ensures var i := LeadingSpaces(s);
            i + |Trim(s)| <= |s| && Trim(s) == s[i..i + |Trim(s)|]
  {
    var n := LeadingSpaces(s);
    var a := s[n..];
    var m := TrailingStart(a);
    assert Trim(s) == a[..m];
    DropTake(s, n, m);
  }

  lemma TrimSliceAfter(s: string)
    ensures AllWhitespace(s[LeadingSpaces(s) + |Trim(s)|..])
  {
    var n := LeadingSpaces(s);
    var a := s[n..];
    var m := TrailingStart(a);
    assert Trim(s) == a[..m];
    DropTake(s, n, m);
  }

  lemma DropTake(s: string, n: nat, m: nat)
    requires n + m <= |s|
    ensures s[n..][..m] == s[n..n + m] && s[n..][m..] == s[n + m..]
  {
  }

  /** Trimming what is already trimmed changes nothing. */
  lemma TrimIdempotent(s: string)
    ensures Trim(Trim(s)) == Trim(s)
  {
    var r := Trim(s);
    assert TrimStart(r) == r;
    assert TrimEnd(r) == r;
  }

  /**
   * Lower-case mapping of one character. Covers ASCII, Latin-1, and the
   * Cyrillic block used for Russian and Kazakh names; every other
   * character maps to itself.
   */
  function ToLowerChar(c: char): (r: char)
    ensures 'A' <= c <= 'Z' ==> 'a' <= r <= 'z' && r as int - 'a' as int == c as int - 'A' as int
    ensures '\U{0410}' <= c <= '\U{042F}' ==>
              '\U{0430}' <= r <= '\U{044F}' && r as int - 0x430 == c as int - 0x410
    ensures 'a' <= c <= 'z' || '0' <= c <= '9' || '\U{0430}' <= c <= '\U{044F}' ==> r == c
    ensures r == '-' <==> c == '-'
  {
    var n := c as int;
    if 'A' <= c <= 'Z' then (n + 32) as char
    else if ('\U{00C0}' <= c <= '\U{00DE}') && c != '\U{00D7}' then (n + 32) as char
    else if '\U{0400}' <= c <= '\U{040F}' then (n + 80) as char
    else if '\U{0410}' <= c <= '\U{042F}' then (n + 32) as char
    else if ('\U{0460}' <= c <= '\U{0480}' || '\U{048A}' <= c <= '\U{04BE}' || '\U{04D0}' <= c <= '\U{04FE}')
            && n % 2 == 0 then (n + 1) as char
    else if c == '\U{04C0}' then '\U{04CF}'
    else if '\U{04C1}' <= c <= '\U{04CD}' && n % 2 == 1 then (n + 1) as char
    else c
  }

  /** `String.prototype.toLowerCase`, one character at a time. */
  function ToLower(s: string): (r: string)
    ensures |r| == |s|
    ensures forall i :: 0 <= i < |s| ==> r[i] == ToLowerChar(s[i])
  {
    seq(|s|, i requires 0 <= i < |s| => ToLowerChar(s[i]))
  }

  /** Lower-casing keeps white space exactly where it was. */
  lemma ToLowerCharKeepsWhitespace(c: char)
    ensures IsWhitespace(ToLowerChar(c)) <==> IsWhitespace(c)
  {
  }

  /** A lower-cased character is already lower case. */
  lemma ToLowerCharIdempotent(c: char)
    ensures ToLowerChar(ToLowerChar(c)) == ToLowerChar(c)
  {
  }
}
