/**
 * The phone-field input mask: on every input event the field's text is
 * reduced to its digits, forced to start with 7, cut to 11 digits and laid
 * out as `+7 (XXX) XXX-XX-XX`, or as much of that pattern as the digits fill.
 */
module PhoneMask {
  import opened Chars
  import opened Seqs

  const MaxDigits: nat := 11

  /** The full layout; `#` marks a digit position. */
  const Pattern: string := "+7 (###) ###-##-##"

  function Min(a: int, b: int): int {
    if a <= b then a else b
  }

  /** `String.prototype.substring(start, end)` for `start <= end`: both ends clamp to the length. */
  function Substring(s: string, start: nat, end: nat): (r: string)
    requires start <= end
    ensures |r| == Min(end, |s|) - Min(start, |s|)
    ensures forall k :: 0 <= k < |r| ==> r[k] == s[start + k]
  {
    s[Min(start, |s|)..Min(end, |s|)]
  }

  /** `value.replace(/\D/g, '')`: the ASCII digits of `s`, in order. */
  function KeepDigits(s: string): (r: string)
    ensures AllDigits(r)
    ensures |r| <= |s|
  {
    if s == [] then []
    else
      var rest := KeepDigits(s[1..]);
      if IsAsciiDigit(s[0]) then [s[0]] + rest else rest
  }

  /** Filtering distributes over concatenation. */
  lemma {:induction false} KeepDigitsAppend(a: string, b: string)
    ensures KeepDigits(a + b) == KeepDigits(a) + KeepDigits(b)
  {
    if a != [] {
      assert (a + b)[0] == a[0];
      assert (a + b)[1..] == a[1..] + b;
      KeepDigitsAppend(a[1..], b);
      if IsAsciiDigit(a[0]) {
        assert KeepDigits(a + b) == [a[0]] + (KeepDigits(a[1..]) + KeepDigits(b));
      }
    } else {
      assert a + b == b;
    }
  }

  /** A string made of digits only is its own digit content. */
  lemma {:induction false} KeepDigitsOfDigits(s: string)
    requires AllDigits(s)
    ensures KeepDigits(s) == s
  {
    if s != [] {
      KeepDigitsOfDigits(s[1..]);
    }
  }

  /** A string without digits contributes nothing. */
  lemma {:induction false} KeepDigitsOfNonDigits(s: string)
    requires forall i :: 0 <= i < |s| ==> !IsAsciiDigit(s[i])
    ensures KeepDigits(s) == []
  {
    if s != [] {
      KeepDigitsOfNonDigits(s[1..]);
    }
  }

  /** What the mask keeps between events: at most 11 digits, led by 7. */
  predicate IsNormalized(d: string) {
    AllDigits(d) && |d| <= MaxDigits && (d == [] || d[0] == '7')
  }

  /**
   * The digit string of the handler: digits only, a `'7'` prepended
   * when the first digit is not 7, then the first 11 digits.
   */
  function Normalize(s: string): (d: string)
    ensures IsNormalized(d)
    ensures d == [] <==> KeepDigits(s) == []
  {
    var digits := KeepDigits(s);
    var led := if |digits| > 0 && digits[0] != '7' then "7" + digits else digits;
    Substring(led, 0, MaxDigits)
  }

  /**
   * The digits survive in order: the result is a prefix of the input's
   * digits, or `'7'` followed by such a prefix when the first digit is not
   * 7 (a leading 8 is kept after the 7, not replaced).
   */
  lemma NormalizeKeepsDigits(s: string)
    ensures var digits := KeepDigits(s);
            var d := Normalize(s);
            if digits != [] && digits[0] != '7' then
              |d| == Min(|digits| + 1, MaxDigits) && d[0] == '7' && d[1..] == digits[..|d| - 1]
            else
              |d| == Min(|digits|, MaxDigits) && d == digits[..|d|]
  {
  }

  /** A normalised digit string is left as it is. */
  lemma NormalizeFixesNormalized(d: string)
    requires IsNormalized(d)
    ensures Normalize(d) == d
  {
    KeepDigitsOfDigits(d);
  }

  /** One `formatted += sep + group` step of the handler, taken when `taken` holds. */
  function Piece(taken: bool, sep: string, group: string): string {
    if taken then sep + group else ""
  }

  /** The `formatted +=` chain of the handler, for a normalised digit string. */
  function Layout(d: string): (r: string)
    requires IsNormalized(d)
  {
    var n := |d|;
    Piece(n > 0, "+7", "")
    + Piece(n > 1, " (", Substring(d, 1, 4))
    + Piece(n >= 4, ") ", Substring(d, 4, 7))
    + Piece(n >= 7, "-", Substring(d, 7, 9))
    + Piece(n >= 9, "-", Substring(d, 9, 11))
  }

  /** The input handler: the new field text for the text the field held. */
  function Mask(s: string): (r: string)
  {
    Layout(Normalize(s))
  }

  // ---- the layout fits the pattern ----

  predicate MatchesAt(p: char, c: char) {
    if p == '#' then IsAsciiDigit(c) else c == p
  }

  /** `r` fits the pattern when placed at position `off` of it. */
  predicate FitsAt(r: string, off: nat) {
    off + |r| <= |Pattern|
    && forall i :: 0 <= i < |r| ==> MatchesAt(Pattern[off + i], r[i])
  }

  /** `r` is a prefix of the pattern with digits in its `#` positions. */
  predicate FitsPattern(r: string) {
    FitsAt(r, 0)
  }

  lemma FitsAtAppend(a: string, b: string, off: nat)
    requires FitsAt(a, off) && FitsAt(b, off + |a|)
    ensures FitsAt(a + b, off)
  {
    forall i | 0 <= i < |a + b| ensures MatchesAt(Pattern[off + i], (a + b)[i]) {
      if i >= |a| {
        assert (a + b)[i] == b[i - |a|];
      }
    }
  }

  /** A separator that fits, then digits over `#` positions, fits. */
  lemma PieceFitsAt(sep: string, group: string, off: nat)
    requires FitsAt(sep, off) && AllDigits(group)
    requires off + |sep| + |group| <= |Pattern|
    requires forall i :: off + |sep| <= i < off + |sep| + |group| ==> Pattern[i] == '#'
    ensures FitsAt(sep + group, off)
  {
    assert FitsAt(group, off + |sep|);
    FitsAtAppend(sep, group, off);
  }

  lemma SeparatorsFit()
    ensures FitsAt("+7", 0) && FitsAt(" (", 2) && FitsAt(") ", 7) && FitsAt("-", 12) && FitsAt("-", 15)
    ensures forall i :: 4 <= i < 7 ==> Pattern[i] == '#'
    ensures forall i :: 9 <= i < 12 ==> Pattern[i] == '#'
    ensures forall i :: 13 <= i < 15 ==> Pattern[i] == '#'
    ensures forall i :: 16 <= i < 18 ==> Pattern[i] == '#'
  {
  }

  /** The layout of a normalised digit string is a filled-in prefix of `+7 (###) ###-##-##`. */
  lemma LayoutFitsPattern(d: string)
    requires IsNormalized(d)
    ensures FitsPattern(Layout(d))
  {
    var n := |d|;
    PiecesFit(d);
    ChainFits(Piece(n > 0, "+7", ""), Piece(n > 1, " (", Substring(d, 1, 4)), Piece(n >= 4, ") ", Substring(d, 4, 7)),
      Piece(n >= 7, "-", Substring(d, 7, 9)), Piece(n >= 9, "-", Substring(d, 9, 11)));
  }

  /** Each piece of the layout fits the pattern where the pieces before it end. */
  lemma PiecesFit(d: string)
    requires IsNormalized(d)
    ensures var n := |d|;
            var p0, p1, p2, p3, p4 := Piece(n > 0, "+7", ""), Piece(n > 1, " (", Substring(d, 1, 4)),
              Piece(n >= 4, ") ", Substring(d, 4, 7)), Piece(n >= 7, "-", Substring(d, 7, 9)), Piece(n >= 9, "-", Substring(d, 9, 11));
            FitsAt(p0, 0) && FitsAt(p1, |p0|) && FitsAt(p2, |p0 + p1|) && FitsAt(p3, |p0 + p1 + p2|)
            && FitsAt(p4, |p0 + p1 + p2 + p3|)
  {
    var n := |d|;
    var g1, g2, g3, g4 := Substring(d, 1, 4), Substring(d, 4, 7), Substring(d, 7, 9), Substring(d, 9, 11);
    SeparatorsFit();
    assert "+7" + "" == "+7";
    if n > 1 { PieceFitsAt(" (", g1, 2); }
    if n >= 4 { PieceFitsAt(") ", g2, 7); }
    if n >= 7 { PieceFitsAt("-", g3, 12); }
    if n >= 9 { PieceFitsAt("-", g4, 15); }
  }

  lemma ChainFits(p0: string, p1: string, p2: string, p3: string, p4: string)
    requires FitsAt(p0, 0) && FitsAt(p1, |p0|) && FitsAt(p2, |p0 + p1|) && FitsAt(p3, |p0 + p1 + p2|)
    requires FitsAt(p4, |p0 + p1 + p2 + p3|)
    ensures FitsAt(p0 + p1 + p2 + p3 + p4, 0)
  {
    FitsAtAppend(p0, p1, 0);
    FitsAtAppend(p0 + p1, p2, 0);
    FitsAtAppend(p0 + p1 + p2, p3, 0);
    FitsAtAppend(p0 + p1 + p2 + p3, p4, 0);
  }

  /** A separator (no digits) followed by a digit group shows exactly the group. */
  lemma KeepDigitsOfPiece(taken: bool, sep: string, group: string)
    requires forall i :: 0 <= i < |sep| ==> !IsAsciiDigit(sep[i])
    requires AllDigits(group)
    ensures KeepDigits(Piece(taken, sep, group)) == if taken then group else ""
  {
    if taken {
      KeepDigitsAppend(sep, group);
      KeepDigitsOfNonDigits(sep);
      KeepDigitsOfDigits(group);
    }
  }

  /** The digits shown are exactly the normalised digits: nothing lost, nothing added. */
  lemma LayoutKeepsDigits(d: string)
    requires IsNormalized(d)
    ensures KeepDigits(Layout(d)) == d
  {
    var n := |d|;
    var g1, g2, g3, g4 := Substring(d, 1, 4), Substring(d, 4, 7), Substring(d, 7, 9), Substring(d, 9, 11);
    var p0, p1, p2, p3, p4 := Piece(n > 0, "+7", ""), Piece(n > 1, " (", g1),
      Piece(n >= 4, ") ", g2), Piece(n >= 7, "-", g3), Piece(n >= 9, "-", g4);
    assert KeepDigits(p0) == if n > 0 then "7" else "" by {
      assert "+7" + "" == "+7";
      assert "+7"[1..] == "7";
      KeepDigitsOfDigits("7");
    }
    KeepDigitsOfPiece(n > 1, " (", g1);
    KeepDigitsOfPiece(n >= 4, ") ", g2);
    KeepDigitsOfPiece(n >= 7, "-", g3);
    KeepDigitsOfPiece(n >= 9, "-", g4);
    KeepDigitsAppend(p0, p1);
    KeepDigitsAppend(p0 + p1, p2);
    KeepDigitsAppend(p0 + p1 + p2, p3);
    KeepDigitsAppend(p0 + p1 + p2 + p3, p4);
    ShownDigits(d);
  }

  /** The groups the handler shows, put back together, are the digit string. */
  lemma ShownDigits(d: string)
    requires IsNormalized(d)
    ensures var n := |d|;
            (if n > 0 then "7" else "") + (if n > 1 then Substring(d, 1, 4) else "")
            + (if n >= 4 then Substring(d, 4, 7) else "") + (if n >= 7 then Substring(d, 7, 9) else "")
            + (if n >= 9 then Substring(d, 9, 11) else "") == d
  {
    var n := |d|;
    if n > 0 {
      assert d == d[..1] + d[1..Min(4, n)] + d[Min(4, n)..Min(7, n)] + d[Min(7, n)..Min(9, n)] + d[Min(9, n)..n];
      assert d[..1] == "7";
    }
  }

  /**
   * The handler's result: digit content equal to the normalised digits of
   * the old text, laid out as a prefix of the phone pattern.
   */
  lemma MaskShape(s: string)
    ensures KeepDigits(Mask(s)) == Normalize(s)
    ensures FitsPattern(Mask(s))
    ensures Mask(s) == [] <==> KeepDigits(s) == []
    ensures |Normalize(s)| == MaxDigits ==> |Mask(s)| == |Pattern|
  {
    LayoutKeepsDigits(Normalize(s));
    LayoutFitsPattern(Normalize(s));
  }

  /** The handler runs again on its own output at the next input event: that changes nothing. */
  lemma MaskIdempotent(s: string)
    ensures Mask(Mask(s)) == Mask(s)
  {
    var d := Normalize(s);
    LayoutKeepsDigits(d);
    KeepDigitsOfDigits(d);
    assert KeepDigits(Mask(s)) == KeepDigits(d);
    assert Normalize(Mask(s)) == Normalize(d);
    NormalizeFixesNormalized(d);
  }

  /** A typed character that is not a digit is ignored. */
  lemma MaskIgnoresNonDigit(a: string, c: char, b: string)
    requires !IsAsciiDigit(c)
    ensures Mask(a + [c] + b) == Mask(a + b)
  {
    KeepDigitsAppend(a + [c], b);
    KeepDigitsAppend(a, [c]);
    KeepDigitsAppend(a, b);
    assert KeepDigits([c]) == [];
    assert KeepDigits(a + [c] + b) == KeepDigits(a + b);
    assert Normalize(a + [c] + b) == Normalize(a + b);
  }

  /** A leading 8 is kept behind the forced 7, and the last digit falls off. */
  lemma MaskLeadingEight(s: string)
    requires s == "87001234567"
    ensures Mask(s) == "+7 (870) 012-34-56"
  {
    NormalizeLeadingEight(s);
    LayoutOfFullNumber("78700123456");
  }

  lemma NormalizeLeadingEight(s: string)
    requires s == "87001234567"
    ensures Normalize(s) == "78700123456"
  {
    KeepDigitsOfDigits(s);
    var led := "7" + s;
    assert led[..11] == "78700123456";
    assert Normalize(s) == Substring(led, 0, 11);
  }

  lemma LayoutOfFullNumber(d: string)
    requires d == "78700123456"
    ensures IsNormalized(d) && Layout(d) == "+7 (870) 012-34-56"
  {
    assert Substring(d, 1, 4) == "870";
    assert Substring(d, 4, 7) == "012";
    assert Substring(d, 7, 9) == "34";
    assert Substring(d, 9, 11) == "56";
  }

  /** A short input gives a partial pattern; a leading 7 is taken as the country code. */
  lemma MaskPartial(s: string)
    requires s == "70012"
    ensures Mask(s) == "+7 (001) 2"
  {
    KeepDigitsOfDigits(s);
    var d := Normalize(s);
    assert d == s[..5];
    assert d == "70012";
    assert Substring(d, 1, 4) == "001";
    assert Substring(d, 4, 7) == "2";
  }

  /**
   * A completed group is followed at once by the next separator: after 4,
   * 7 or 9 digits the text ends in `") "` or in `"-"`. A lone 7 shows
   * only `"+7"`, without the opening bracket.
   */
  lemma LayoutClosesGroup(d: string)
    requires IsNormalized(d)
    ensures |d| == 1 ==> Layout(d) == "+7"
    ensures |d| == 4 ==> Layout(d) == "+7 (" + d[1..4] + ") "
    ensures |d| == 7 ==> Layout(d) == "+7 (" + d[1..4] + ") " + d[4..7] + "-"
    ensures |d| == 9 ==> Layout(d) == "+7 (" + d[1..4] + ") " + d[4..7] + "-" + d[7..9] + "-"
  {
    if |d| == 1 {
      assert Layout(d) == "+7" + "" + "" + "" + "" + "";
    } else if |d| == 4 {
      LayoutOfFour(d);
    } else if |d| == 7 {
      LayoutOfSeven(d);
    } else if |d| == 9 {
      LayoutOfNine(d);
    }
  }

  lemma LayoutOfFour(d: string)
    requires IsNormalized(d) && |d| == 4
    ensures Layout(d) == "+7 (" + d[1..4] + ") "
  {
    assert Substring(d, 1, 4) == d[1..4];
    assert Substring(d, 4, 7) == [];
    Regroup(d[1..4], [], [], [], false, false);
  }

  lemma LayoutOfSeven(d: string)
    requires IsNormalized(d) && |d| == 7
    ensures Layout(d) == "+7 (" + d[1..4] + ") " + d[4..7] + "-"
  {
    assert Substring(d, 1, 4) == d[1..4];
    assert Substring(d, 4, 7) == d[4..7];
    assert Substring(d, 7, 9) == [];
    Regroup(d[1..4], d[4..7], [], [], true, false);
  }

  lemma LayoutOfNine(d: string)
    requires IsNormalized(d) && |d| == 9
    ensures Layout(d) == "+7 (" + d[1..4] + ") " + d[4..7] + "-" + d[7..9] + "-"
  {
    assert Substring(d, 1, 4) == d[1..4];
    assert Substring(d, 4, 7) == d[4..7];
    assert Substring(d, 7, 9) == d[7..9];
    assert Substring(d, 9, 11) == [];
    Regroup(d[1..4], d[4..7], d[7..9], [], true, true);
  }

  /** The pieces of a layout with its first two groups present, written as one string. */
  lemma Regroup(g1: string, g2: string, g3: string, g4: string, third: bool, fourth: bool)
    ensures Piece(true, "+7", "") + Piece(true, " (", g1) + Piece(true, ") ", g2) + Piece(third, "-", g3)
            + Piece(fourth, "-", g4)
            == "+7 (" + g1 + ") " + g2 + (if third then "-" + g3 else "") + (if fourth then "-" + g4 else "")
  {
    assert "+7" + "" == "+7";
    assert "+7" + " (" == "+7 (";
    Associative("+7", " (", g1);
    Associative("+7 (" + g1, ") ", g2);
  }

  /**
   * Deleting that trailing separator does not stick: masking the text
   * without it gives the same text back, separator included.
   */
  lemma SeparatorReappears(d: string)
    requires IsNormalized(d) && (|d| == 4 || |d| == 7 || |d| == 9)
    ensures var shown := Layout(d);
            |shown| > 0 && !IsAsciiDigit(shown[|shown| - 1]) && Mask(shown[..|shown| - 1]) == shown
  {
    LayoutClosesGroup(d);
    var shown := Layout(d);
    var last := shown[|shown| - 1];
    var p := shown[..|shown| - 1];
    assert shown == p + [last];
    KeepDigitsAppend(p, [last]);
    LayoutKeepsDigits(d);
    assert KeepDigits([last]) == [];
    assert KeepDigits(p) == d;
    KeepDigitsOfDigits(d);
    assert Normalize(p) == Normalize(d);
    NormalizeFixesNormalized(d);
  }

  /** For instance, `"+7 (001)"` is masked back to `"+7 (001) "`. */
  lemma MaskRestoresSeparator(s: string)
    requires s == "+7 (001)"
    ensures Mask(s) == "+7 (001) "
  {
    var d := "7001";
    assert IsNormalized(d);
    LayoutClosesGroup(d);
    assert Layout(d) == "+7 (001) ";
    SeparatorReappears(d);
    assert Layout(d)[..|Layout(d)| - 1] == s;
  }
}
