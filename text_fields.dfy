/**
 * The strings the card shows for its free-text fields and the name of the
 * exported file: a trimmed value or a dimmed placeholder, the deputy's name
 * split into a surname line and a given-names line, and the filename slug.
 */
module TextFields {
  import opened Chars
  import PhoneMask
  import opened Seqs

  const DeputyPlaceholder: string := "АСАНОВ БЕРИК"
  const ResponsiblePlaceholder: string := "Серикова Алия"
  const PhonePlaceholder: string := "+7 (700) 123-45-67"
  /** What the filename uses when the deputy name is blank. */
  const FileNameFallback: string := "open-deputy"

  /** A field as drawn: its text, and whether it is the dimmed placeholder. */
  datatype FieldText = FieldText(text: string, isPlaceholder: bool)

  /**
   * `value.trim() || placeholder`, with `isPlaceholder = !value.trim()`:
   * a blank value shows the placeholder, dimmed; any other value shows
   * itself, trimmed.
   */
  function FieldOrPlaceholder(value: string, placeholder: string): (r: FieldText)
    ensures r.isPlaceholder <==> AllWhitespace(value)
    ensures r.isPlaceholder ==> r.text == placeholder
    ensures !r.isPlaceholder ==> r.text == Trim(value) && r.text != []
    ensures !r.isPlaceholder ==> !IsWhitespace(r.text[0]) && !IsWhitespace(r.text[|r.text| - 1])
  {
    var t := Trim(value);
    if t == [] then FieldText(placeholder, true) else FieldText(t, false)
  }

  function DeputyNameText(value: string): FieldText {
    FieldOrPlaceholder(value, DeputyPlaceholder)
  }

  function ResponsibleNameText(value: string): FieldText {
    FieldOrPlaceholder(value, ResponsiblePlaceholder)
  }

  function PhoneText(value: string): FieldText {
    FieldOrPlaceholder(value, PhonePlaceholder)
  }

  /**
   * Every text field always has something to draw, so the drawing branch
   * guarded by the text's truthiness is always taken; the text is the
   * placeholder exactly when the input is blank.
   */
  lemma FieldsNeverEmpty(deputy: string, responsible: string, phone: string)
    ensures DeputyNameText(deputy).text != []
    ensures ResponsibleNameText(responsible).text != []
    ensures PhoneText(phone).text != []
    ensures DeputyNameText(deputy).isPlaceholder <==> DeputyNameText(deputy).text == DeputyPlaceholder && Trim(deputy) == []
  {
  }

  // ---- splitting on a separator, as String.prototype.split does ----

  /** `parts.join(sep)`. */
  function Join(parts: seq<string>, sep: char): string
    requires |parts| >= 1
  {
    if |parts| == 1 then parts[0] else parts[0] + [sep] + Join(parts[1..], sep)
  }

  /** The number of occurrences of `c` in `s`. */
  function Count(s: string, c: char): nat {
    if s == [] then 0 else (if s[0] == c then 1 else 0) + Count(s[1..], c)
  }

  /**
   * `s.split(sep)` for a one-character separator: the maximal pieces of
   * `s` between occurrences of `sep`, empty pieces included.
   */
  function Split(s: string, sep: char): (parts: seq<string>)
    ensures |parts| == Count(s, sep) + 1
    ensures forall k :: 0 <= k < |parts| ==> sep !in parts[k]
    ensures Join(parts, sep) == s
  {
    if s == [] then [[]]
    else
      var rest := Split(s[1..], sep);
      if s[0] == sep then [[]] + rest
      else
        assert Join(rest, sep) == rest[0] + (if |rest| == 1 then [] else [sep] + Join(rest[1..], sep));
        [[s[0]] + rest[0]] + rest[1..]
  }

  /** Joining separator-free pieces and splitting again gives the pieces back. */
  lemma SplitJoin(parts: seq<string>, sep: char)
    requires |parts| >= 1
    requires forall k :: 0 <= k < |parts| ==> sep !in parts[k]
    ensures Split(Join(parts, sep), sep) == parts
  {
    SplitUnique(Join(parts, sep), sep, parts);
  }

  /** `Count` sees `c` exactly when `c` occurs. */
  lemma {:induction false} CountPositive(s: string, c: char)
    ensures Count(s, c) > 0 <==> c in s
  {
    if s != [] {
      CountPositive(s[1..], c);
      assert s == [s[0]] + s[1..];
    }
  }

  /**
   * `Split` is the only way to cut `s` into separator-free pieces that
   * join back to `s`.
   */
  lemma {:induction false} SplitUnique(s: string, sep: char, parts: seq<string>)
    requires |parts| >= 1
    requires forall k :: 0 <= k < |parts| ==> sep !in parts[k]
    requires Join(parts, sep) == s
    ensures parts == Split(s, sep)
    decreases |s|, |parts[0]|
  {
    if s == [] {
      assert |parts| == 1;
    } else if parts[0] == [] {
      assert |parts| > 1;
      assert s[0] == sep;
      assert Join(parts[1..], sep) == s[1..];
      SplitUnique(s[1..], sep, parts[1..]);
      assert parts == [[]] + parts[1..];
    } else {
      var head := parts[0];
      assert s[0] == head[0];
      var shorter := [head[1..]] + parts[1..];
      assert forall k :: 1 <= k < |shorter| ==> shorter[k] == parts[k];
      if |parts| == 1 {
        assert Join(shorter, sep) == head[1..];
      } else {
        assert Join(shorter, sep) == head[1..] + [sep] + Join(parts[1..], sep);
      }
      assert Join(shorter, sep) == s[1..];
      assert head[0] != sep by { assert head[0] in head; }
      SplitUnique(s[1..], sep, shorter);
      assert [s[0]] + shorter[0] == head;
      assert shorter[1..] == parts[1..];
      assert parts == [[s[0]] + shorter[0]] + shorter[1..];
    }
  }

  // ---- the deputy name on the card ----

  /** The deputy name block: one line, or a surname line over a given-names line. */
  datatype NameLines = OneLine(line: string) | TwoLines(surname: string, givenNames: string)

  /**
   * `name.split(' ')`: with two or more parts the first is the surname and
   * the rest, joined by `' '`, the given names; otherwise the whole name is
   * one line.
   */
  function SplitDeputyName(name: string): (r: NameLines)
    ensures r.TwoLines? <==> ' ' in name
    ensures r.OneLine? ==> r.line == name
    ensures r.TwoLines? ==> r.surname + " " + r.givenNames == name && ' ' !in r.surname
  {
    var parts := Split(name, ' ');
    CountPositive(name, ' ');
    if |parts| >= 2 then TwoLines(parts[0], Join(parts[1..], ' ')) else OneLine(name)
  }

  /** The surname is the text before the first space, the given names all that follows it. */
  lemma SurnameBeforeFirstSpace(name: string, i: nat)
    requires i < |name| && name[i] == ' '
    requires forall k :: 0 <= k < i ==> name[k] != ' '
    ensures SplitDeputyName(name) == TwoLines(name[..i], name[i + 1..])
  {
    var r := SplitDeputyName(name);
    assert ' ' in name by { assert name[i] in name; }
    assert ' ' !in name[..i];
    var a, b := r.surname, r.givenNames;
    assert name == a + " " + b;
    assert name[|a|] == ' ';
    assert |a| >= i;
    assert forall k :: 0 <= k < |a| ==> a[k] != ' ';
    assert forall k :: 0 <= k < |a| ==> a[k] == name[k];
    assert |a| <= i;
    assert name[..|a|] == a;
    assert name[|a| + 1..] == b;
  }

  /** For a trimmed, non-blank name both lines have text. */
  lemma NameLinesNotEmpty(value: string)
    ensures var r := SplitDeputyName(DeputyNameText(value).text);
            r.TwoLines? ==> r.surname != [] && r.givenNames != []
  {
    var f := DeputyNameText(value);
    if f.isPlaceholder {
      PlaceholderTrimmed(f.text);
    }
    TrimmedNameLines(f.text);
  }

  /** A name that neither starts nor ends with white space splits into two non-empty lines. */
  lemma TrimmedNameLines(name: string)
    requires name != [] && !IsWhitespace(name[0]) && !IsWhitespace(name[|name| - 1])
    ensures var r := SplitDeputyName(name);
            r.TwoLines? ==> r.surname != [] && r.givenNames != []
  {
    var r := SplitDeputyName(name);
    if r.TwoLines? {
      assert name == r.surname + " " + r.givenNames;
      assert name[|r.surname|] == ' ';
      assert |r.surname| != 0 && |r.surname| != |name| - 1;
    }
  }

  lemma PlaceholderTrimmed(p: string)
    requires p == DeputyPlaceholder
    ensures p != [] && !IsWhitespace(p[0]) && !IsWhitespace(p[|p| - 1])
  {
  }

  /** A three-word name: surname first, then the two given names on the second line. */
  lemma SplitThreeWords(name: string)
    requires name == "Asanov Berik Nurlanovich"
    ensures SplitDeputyName(name) == TwoLines("Asanov", "Berik Nurlanovich")
  {
    assert name[6] == ' ' && forall k :: 0 <= k < 6 ==> name[k] != ' ';
    assert name[..6] == "Asanov" && name[7..] == "Berik Nurlanovich";
    SurnameBeforeFirstSpace(name, 6);
  }

  /** A single word stays one line. */
  lemma SplitOneWord(name: string)
    requires name == "Madonna"
    ensures SplitDeputyName(name) == OneLine("Madonna")
  {
  }

  // ---- the exported file's name ----

  /** `s.replace(/\s+/g, '-')`: every run of white space becomes one hyphen. */
  function DashRuns(s: string): (r: string)
    ensures |r| <= |s|
    ensures NoWhitespace(r)
    ensures NoWhitespace(s) ==> r == s
    decreases |s|
  {
    if s == [] then []
    else
      var run := IsWhitespace(s[0]);
      var rest := if run then TrimStart(s) else s[1..];
      assert |rest| < |s|;
      (if run then "-" else [s[0]]) + DashRuns(rest)
  }

  /** The characters that are neither white space nor hyphens, in order. */
  function Visible(s: string): string {
    if s == [] then []
    else
      var rest := Visible(s[1..]);
      if IsWhitespace(s[0]) || s[0] == '-' then rest else [s[0]] + rest
  }

  lemma {:induction false} VisibleOfWhitespace(s: string)
    requires AllWhitespace(s)
    ensures Visible(s) == []
  {
    if s != [] { VisibleOfWhitespace(s[1..]); }
  }

  lemma {:induction false} VisibleAppend(a: string, b: string)
    ensures Visible(a + b) == Visible(a) + Visible(b)
  {
    if a == [] {
      assert a + b == b;
    } else {
      assert (a + b)[0] == a[0];
      assert (a + b)[1..] == a[1..] + b;
      VisibleAppend(a[1..], b);
    }
  }

  /** Replacing white-space runs by hyphens keeps every other character, in order. */
  lemma {:induction false} DashRunsKeepsVisible(s: string)
    ensures Visible(DashRuns(s)) == Visible(s)
    decreases |s|
  {
    if s == [] {
    } else if IsWhitespace(s[0]) {
      var rest := TrimStart(s);
      var skipped := s[..|s| - |rest|];
      assert s == skipped + rest;
      VisibleAppend(skipped, rest);
      VisibleOfWhitespace(skipped);
      assert |rest| < |s|;
      DashRunsKeepsVisible(rest);
      assert DashRuns(s) == "-" + DashRuns(rest);
      VisibleAppend("-", DashRuns(rest));
    } else {
      DashRunsKeepsVisible(s[1..]);
      assert DashRuns(s) == [s[0]] + DashRuns(s[1..]);
      VisibleAppend([s[0]], DashRuns(s[1..]));
      VisibleAppend([s[0]], s[1..]);
      assert s == [s[0]] + s[1..];
    }
  }

  /** The slug: the trimmed name (or the fallback) with white-space runs as hyphens, lower-cased. */
  function Slug(value: string): (r: string)
    ensures NoWhitespace(r)
    ensures r != []
  {
    var name := FieldOrPlaceholder(value, FileNameFallback).text;
    var dashed := DashRuns(name);
    assert dashed != [];
    forall i | 0 <= i < |dashed| ensures !IsWhitespace(ToLowerChar(dashed[i])) {
      ToLowerCharKeepsWhitespace(dashed[i]);
    }
    ToLower(dashed)
  }

  /** The exported file's name: `id-card-<slug>.pdf`. */
  function ExportFileName(value: string): (r: string)
    ensures |r| > |"id-card-.pdf"|
    ensures r[..8] == "id-card-" && r[|r| - 4..] == ".pdf"
    ensures NoWhitespace(r[8..|r| - 4])
  {
    var slug := Slug(value);
    var r := "id-card-" + slug + ".pdf";
    assert r[8..|r| - 4] == slug;
    r
  }

  /** A blank deputy name gives the fixed default filename. */
  lemma BlankNameFileName(value: string)
    requires AllWhitespace(value)
    ensures ExportFileName(value) == "id-card-" + FileNameFallback + ".pdf"
  {
    BlankSlug(value);
  }

  lemma BlankSlug(value: string)
    requires AllWhitespace(value)
    ensures Slug(value) == FileNameFallback
  {
    var name := FieldOrPlaceholder(value, FileNameFallback).text;
    assert name == FileNameFallback;
    FallbackSlug(name);
  }

  lemma FallbackSlug(name: string)
    requires name == FileNameFallback
    ensures ToLower(DashRuns(name)) == name
  {
    assert NoWhitespace(name);
    assert forall i :: 0 <= i < |name| ==> ToLowerChar(name[i]) == name[i];
    SlugOfPlainWord(name);
  }

  /** A word of lower-case letters and hyphens is its own slug. */
  lemma SlugOfPlainWord(name: string)
    requires NoWhitespace(name)
    requires forall i :: 0 <= i < |name| ==> ToLowerChar(name[i]) == name[i]
    ensures ToLower(DashRuns(name)) == name
  {
  }

  /**
   * A run of white space after a word becomes exactly one hyphen, and the
   * text after the run is rewritten on its own.
   */
  lemma DashRunsOfRun(a: string, gap: string, b: string)
    requires NoWhitespace(a)
    requires gap != [] && AllWhitespace(gap)
    requires b == [] || !IsWhitespace(b[0])
    ensures DashRuns(a + gap + b) == a + "-" + DashRuns(b)
  {
    Associative(a, gap, b);
    DashRunsAfterWord(a, gap + b);
    DashRunsOfLeadingRun(gap, b);
    Associative(a, "-", DashRuns(b));
  }

  /** A word without white space is copied as it is. */
  lemma {:induction false} DashRunsAfterWord(a: string, t: string)
    requires NoWhitespace(a)
    ensures DashRuns(a + t) == a + DashRuns(t)
    decreases |a|
  {
    if a != [] {
      var c, rest := a[0], a[1..];
      Uncons(a, t);
      DashRunsOfLeadingChar(c, rest + t);
      DashRunsAfterWord(rest, t);
      Associative([c], rest, DashRuns(t));
    } else {
      assert a + t == t;
    }
  }

  lemma DashRunsOfLeadingRun(gap: string, b: string)
    requires gap != [] && AllWhitespace(gap)
    requires b == [] || !IsWhitespace(b[0])
    ensures DashRuns(gap + b) == "-" + DashRuns(b)
  {
    assert IsWhitespace((gap + b)[0]);
    TrimStartOfRun(gap, b);
  }

  lemma DashRunsOfLeadingChar(c: char, t: string)
    requires !IsWhitespace(c)
    ensures DashRuns([c] + t) == [c] + DashRuns(t)
  {
    assert ([c] + t)[0] == c;
    assert ([c] + t)[1..] == t;
  }

  /** Two words with a run of white space between them are joined by one hyphen. */
  lemma DashRunsOfTwoWords(a: string, gap: string, b: string)
    requires NoWhitespace(a) && NoWhitespace(b)
    requires gap != [] && AllWhitespace(gap)
    ensures DashRuns(a + gap + b) == a + "-" + b
  {
    DashRunsOfRun(a, gap, b);
  }

  lemma {:induction false} TrimStartOfRun(gap: string, b: string)
    requires AllWhitespace(gap)
    requires b == [] || !IsWhitespace(b[0])
    ensures TrimStart(gap + b) == b
  {
    if gap == [] {
      assert gap + b == b;
    } else {
      assert (gap + b)[1..] == gap[1..] + b;
      TrimStartOfRun(gap[1..], b);
    }
  }

  /** A two-word name: the gap becomes one hyphen and the rest is lower-cased. */
  lemma FileNameOfTwoWords(first: string, gap: string, second: string)
    requires first != [] && second != []
    requires NoWhitespace(first) && NoWhitespace(second)
    requires gap != [] && AllWhitespace(gap)
    ensures ExportFileName(first + gap + second) == "id-card-" + ToLower(first + "-" + second) + ".pdf"
  {
    var value := first + gap + second;
    assert value[0] == first[0];
    assert value[|value| - 1] == second[|second| - 1];
    TrimmedAlready(value);
    assert !AllWhitespace(value) by { assert !IsWhitespace(value[0]); }
    DashRunsOfTwoWords(first, gap, second);
  }

  lemma TrimmedAlready(s: string)
    requires s != [] && !IsWhitespace(s[0]) && !IsWhitespace(s[|s| - 1])
    ensures Trim(s) == s
  {
  }

  // ---- the phone placeholder ----

  /** The phone placeholder is itself a fully masked number: masking it again leaves it as it is. */
  lemma PhonePlaceholderIsMasked(s: string)
    requires s == PhonePlaceholder
    ensures PhoneMask.Mask(s) == s
  {
    var d := "77001234567";
    PlaceholderDigitsNormal(d);
    PlaceholderLayout(d);
    PhoneMask.MaskIdempotent(d);
  }

  lemma PlaceholderDigitsNormal(d: string)
    requires d == "77001234567"
    ensures PhoneMask.Normalize(d) == d
  {
    PhoneMask.KeepDigitsOfDigits(d);
    assert PhoneMask.Normalize(d) == d[..11];
  }

  lemma PlaceholderLayout(d: string)
    requires d == "77001234567"
    ensures PhoneMask.IsNormalized(d) && PhoneMask.Layout(d) == PhonePlaceholder
  {
    assert PhoneMask.Substring(d, 1, 4) == "700";
    assert PhoneMask.Substring(d, 4, 7) == "123";
    assert PhoneMask.Substring(d, 7, 9) == "45";
    assert PhoneMask.Substring(d, 9, 11) == "67";
  }
}
