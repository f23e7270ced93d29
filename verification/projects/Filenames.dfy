/** Names of the uploaded content files: a padded index, an underscore and a cleaned title. Titles are
    strings of ASCII characters, as they are after accent removal. */
module Filenames {

  function Digit(d: nat): (c: char)
    requires d < 10
  {
    ['0', '1', '2', '3', '4', '5', '6', '7', '8', '9'][d]
  }

  function Decimal(n: nat): (s: string)
    ensures s != ""
  {
    if n < 10 then [Digit(n)] else Decimal(n / 10) + [Digit(n % 10)]
  }

  /** The index with at least three digits. */
  function Padded(n: nat): string {
    var s := Decimal(n);
    if |s| == 1 then "00" + s else if |s| == 2 then "0" + s else s
  }

  predicate IsSpace(c: char) {
    c == ' ' || '\t' <= c <= '\r' || 28 as char <= c <= 31 as char
  }

  predicate IsWord(c: char) {
    'a' <= c <= 'z' || 'A' <= c <= 'Z' || '0' <= c <= '9' || c == '_'
  }

  /** Drop everything but word characters, white space and hyphens. */
  function Keep(s: string): string {
    if s == "" then ""
    else
      var c := s[|s| - 1];
      Keep(s[..|s| - 1]) + if IsWord(c) || IsSpace(c) || c == '-' then [c] else ""
  }

  function StripLeft(s: string): string {
    if s != "" && IsSpace(s[0]) then StripLeft(s[1..]) else s
  }

  function StripRight(s: string): string {
    if s != "" && IsSpace(s[|s| - 1]) then StripRight(s[..|s| - 1]) else s
  }

  function LowerChar(c: char): char {
    if 'A' <= c <= 'Z' then (c as int + 32) as char else c
  }

  function Lower(s: string): string {
    if s == "" then "" else Lower(s[..|s| - 1]) + [LowerChar(s[|s| - 1])]
  }

  predicate IsSeparator(c: char) {
    IsSpace(c) || c == '_'
  }

  /** Each run of white space and underscores becomes one hyphen. */
  function Hyphenate(s: string): string {
    if s == "" then ""
    else
      var n := |s| - 1;
      var before := Hyphenate(s[..n]);
      if !IsSeparator(s[n]) then before + [s[n]]
      else if n > 0 && IsSeparator(s[n - 1]) then before
      else before + "-"
  }

  function Slug(title: string): string {
    Hyphenate(Lower(StripRight(StripLeft(Keep(title)))))
  }

  /** The cleaned title: at most 80 characters, "page" when nothing is left. */
  function Cleaned(title: string): string {
    var name := Slug(title);
    if name == "" then "page" else if |name| <= 80 then name else name[..80]
  }

  function Filename(title: string, index: nat): string {
    Padded(index) + "_" + Cleaned(title) + ".txt"
  }

  // ---------------------------------------------------------------- the index is recoverable

  function DigitValue(c: char): nat {
    if '0' <= c <= '9' then c as nat - '0' as nat else 0
  }

  function ParseDecimal(s: string): nat {
    if s == "" then 0 else 10 * ParseDecimal(s[..|s| - 1]) + DigitValue(s[|s| - 1])
  }

  lemma {:induction false} DecimalRoundTrip(n: nat)
    ensures ParseDecimal(Decimal(n)) == n
  {
    if n >= 10 {
      DecimalRoundTrip(n / 10);
      assert Decimal(n)[..|Decimal(n)| - 1] == Decimal(n / 10);
    }
  }

  lemma {:induction false} LeadingZero(s: string)
    ensures ParseDecimal("0" + s) == ParseDecimal(s)
  {
    if s != "" {
      LeadingZero(s[..|s| - 1]);
      assert ("0" + s)[..|s|] == "0" + s[..|s| - 1];
    }
  }

  /** The padded index reads back as the index, also beyond 999. */
  lemma PaddedRoundTrip(n: nat)
    ensures ParseDecimal(Padded(n)) == n
  {
    DecimalRoundTrip(n);
    var s := Decimal(n);
    LeadingZero(s);
    LeadingZero("0" + s);
    assert "00" + s == "0" + ("0" + s);
  }

  lemma {:induction false} DecimalHasNoUnderscore(n: nat)
    ensures '_' !in Decimal(n)
  {
    if n >= 10 {
      DecimalHasNoUnderscore(n / 10);
    }
  }

  /** What stands before the first underscore. */
  function BeforeUnderscore(s: string): string {
    if s == "" || s[0] == '_' then "" else [s[0]] + BeforeUnderscore(s[1..])
  }

  lemma {:induction false} BeforeUnderscoreOf(s: string, rest: string)
    requires '_' !in s
    ensures BeforeUnderscore(s + "_" + rest) == s
  {
    if s == "" {
      assert s + "_" + rest == "_" + rest;
    } else {
      assert s[0] in s && forall c :: c in s[1..] ==> c in s;
      BeforeUnderscoreOf(s[1..], rest);
      assert (s + "_" + rest)[1..] == s[1..] + "_" + rest;
    }
  }

  /** The text before the first underscore of a file name is its index, whatever the title. */
  lemma FilenameCarriesIndex(title: string, index: nat)
    ensures ParseDecimal(BeforeUnderscore(Filename(title, index))) == index
  {
    DecimalHasNoUnderscore(index);
    assert '_' !in Padded(index);
    BeforeUnderscoreOf(Padded(index), Cleaned(title) + ".txt");
    assert Padded(index) + "_" + (Cleaned(title) + ".txt") == Filename(title, index);
    PaddedRoundTrip(index);
  }

  lemma {:induction false} HyphenateCleans(s: string)
    ensures forall c :: c in Hyphenate(s) ==> !IsSeparator(c)
  {
    if s != "" {
      HyphenateCleans(s[..|s| - 1]);
    }
  }

  /** The cleaned title is never empty, has at most 80 characters, no white space and no underscore. */
  lemma CleanedIsClean(title: string)
    ensures 0 < |Cleaned(title)| <= 80
    ensures forall c :: c in Cleaned(title) ==> !IsSeparator(c)
  {
    HyphenateCleans(Lower(StripRight(StripLeft(Keep(title)))));
  }

  // ---------------------------------------------------------------- what a name keeps of its title

  predicate IsLetterOrDigit(c: char) {
    'a' <= c <= 'z' || 'A' <= c <= 'Z' || '0' <= c <= '9'
  }

  /** The letters and digits of a text in order, in lower case. */
  function Letters(s: string): string {
    if s == "" then ""
    else Letters(s[..|s| - 1]) + if IsLetterOrDigit(s[|s| - 1]) then [LowerChar(s[|s| - 1])] else ""
  }

  lemma LettersStep(s: string, c: char)
    ensures Letters(s + [c]) == Letters(s) + if IsLetterOrDigit(c) then [LowerChar(c)] else ""
  {
    assert (s + [c])[..|s|] == s;
  }

  lemma {:induction false} LettersConcat(a: string, b: string)
    ensures Letters(a + b) == Letters(a) + Letters(b)
  {
    if b == "" {
      assert a + b == a;
    } else {
      var n := |b| - 1;
      LettersConcat(a, b[..n]);
      LettersStep(a + b[..n], b[n]);
      assert a + b == a + b[..n] + [b[n]];
    }
  }

  lemma {:induction false} KeepKeepsLetters(s: string)
    ensures Letters(Keep(s)) == Letters(s)
  {
    if s != "" {
      var c := s[|s| - 1];
      KeepKeepsLetters(s[..|s| - 1]);
      if IsWord(c) || IsSpace(c) || c == '-' {
        LettersStep(Keep(s[..|s| - 1]), c);
      } else {
        assert Keep(s[..|s| - 1]) + "" == Keep(s[..|s| - 1]);
        assert Letters(s[..|s| - 1]) + "" == Letters(s[..|s| - 1]);
      }
    }
  }

  lemma {:induction false} StripLeftKeepsLetters(s: string)
    ensures Letters(StripLeft(s)) == Letters(s)
  {
    if s != "" && IsSpace(s[0]) {
      StripLeftKeepsLetters(s[1..]);
      LettersConcat([s[0]], s[1..]);
      assert [s[0]] + s[1..] == s;
      LettersStep("", s[0]);
      assert "" + [s[0]] == [s[0]];
    }
  }

  lemma {:induction false} StripRightKeepsLetters(s: string)
    ensures Letters(StripRight(s)) == Letters(s)
  {
    if s != "" && IsSpace(s[|s| - 1]) {
      StripRightKeepsLetters(s[..|s| - 1]);
    }
  }

  lemma {:induction false} LowerKeepsLetters(s: string)
    ensures Letters(Lower(s)) == Letters(s)
  {
    if s != "" {
      var c := s[|s| - 1];
      LowerKeepsLetters(s[..|s| - 1]);
      LettersStep(Lower(s[..|s| - 1]), LowerChar(c));
    }
  }

  lemma {:induction false} HyphenateKeepsLetters(s: string)
    ensures Letters(Hyphenate(s)) == Letters(s)
  {
    if s != "" {
      var n := |s| - 1;
      HyphenateKeepsLetters(s[..n]);
      if !IsSeparator(s[n]) {
        LettersStep(Hyphenate(s[..n]), s[n]);
      } else {
        LettersStep(Hyphenate(s[..n]), '-');
        assert Hyphenate(s[..n]) + "-" == Hyphenate(s[..n]) + ['-'];
      }
    }
  }

  /** Nothing but letters and digits in lower case, and hyphens. */
  predicate IsPlain(s: string) {
    forall c :: c in s ==> 'a' <= c <= 'z' || '0' <= c <= '9' || c == '-'
  }

  lemma {:induction false} KeptCharacters(s: string)
    ensures forall c :: c in Keep(s) ==> IsWord(c) || IsSpace(c) || c == '-'
  {
    if s != "" { KeptCharacters(s[..|s| - 1]); }
  }

  lemma {:induction false} StrippedLeft(s: string)
    ensures forall c :: c in StripLeft(s) ==> c in s
  {
    if s != "" && IsSpace(s[0]) { StrippedLeft(s[1..]); }
  }

  lemma {:induction false} StrippedRight(s: string)
    ensures forall c :: c in StripRight(s) ==> c in s
  {
    if s != "" && IsSpace(s[|s| - 1]) { StrippedRight(s[..|s| - 1]); }
  }

  lemma {:induction false} LoweredCharacters(s: string)
    requires forall c :: c in s ==> IsWord(c) || IsSpace(c) || c == '-'
    ensures forall c :: c in Lower(s) ==> 'a' <= c <= 'z' || '0' <= c <= '9' || IsSeparator(c) || c == '-'
  {
    if s != "" {
      LoweredCharacters(s[..|s| - 1]);
      assert s[|s| - 1] in s;
    }
  }

  lemma {:induction false} HyphenatedIsPlain(s: string)
    requires forall c :: c in s ==> 'a' <= c <= 'z' || '0' <= c <= '9' || IsSeparator(c) || c == '-'
    ensures IsPlain(Hyphenate(s))
  {
    if s != "" {
      HyphenatedIsPlain(s[..|s| - 1]);
      assert s[|s| - 1] in s;
    }
  }

  lemma SlugKeepsLetters(title: string)
    ensures Letters(Slug(title)) == Letters(title) && IsPlain(Slug(title))
  {
    var kept := Keep(title);
    var stripped := StripRight(StripLeft(kept));
    KeepKeepsLetters(title);
    StripLeftKeepsLetters(kept);
    StripRightKeepsLetters(StripLeft(kept));
    LowerKeepsLetters(stripped);
    HyphenateKeepsLetters(Lower(stripped));
    KeptCharacters(title);
    StrippedLeft(kept);
    StrippedRight(StripLeft(kept));
    LoweredCharacters(stripped);
    HyphenatedIsPlain(Lower(stripped));
  }

  lemma PlainPrefix(a: string, b: string)
    requires IsPlain(a + b)
    ensures IsPlain(a) && Letters(a) <= Letters(a + b)
  {
    LettersConcat(a, b);
    forall c | c in a ensures c in a + b {}
  }

  /** A cleaned title has only lower-case letters, digits and hyphens. It carries the title's letters and
      digits in order, all of them unless it is 80 long. */
  lemma CleanedKeepsTitle(title: string)
    ensures IsPlain(Cleaned(title))
    ensures Letters(title) != "" ==>
              Letters(Cleaned(title)) <= Letters(title)
              && (|Cleaned(title)| < 80 ==> Letters(Cleaned(title)) == Letters(title))
  {
    SlugKeepsLetters(title);
    if |Slug(title)| > 80 {
      var slug := Slug(title);
      assert slug == slug[..80] + slug[80..];
      PlainPrefix(slug[..80], slug[80..]);
    }
  }

  /** A title of nothing but white space and signs is named "page". */
  lemma EmptyTitleIsPage(title: string)
    requires forall c :: c in title ==> !IsWord(c) && c != '-'
    ensures Cleaned(title) == "page"
  {
    NothingKept(title);
    SpacesStrip(Keep(title));
  }

  lemma {:induction false} NothingKept(s: string)
    requires forall c :: c in s ==> !IsWord(c) && c != '-'
    ensures forall c :: c in Keep(s) ==> IsSpace(c)
  {
    if s != "" {
      NothingKept(s[..|s| - 1]);
      assert s[|s| - 1] in s;
    }
  }

  lemma {:induction false} SpacesStrip(s: string)
    requires forall c :: c in s ==> IsSpace(c)
    ensures StripLeft(s) == ""
  {
    if s != "" {
      assert s[0] in s;
      SpacesStrip(s[1..]);
    }
  }

  /** Without hyphens of its own a text gets none side by side: each run of separators gives one. */
  lemma {:induction false} RunsBecomeOneHyphen(s: string)
    requires '-' !in s
    ensures forall i :: 0 < i < |Hyphenate(s)| ==> Hyphenate(s)[i - 1] != '-' || Hyphenate(s)[i] != '-'
    ensures |Hyphenate(s)| > 0 <==> |s| > 0
    ensures |s| > 0 ==> (Hyphenate(s)[|Hyphenate(s)| - 1] == '-' <==> IsSeparator(s[|s| - 1]))
  {
    if s != "" {
      RunsBecomeOneHyphen(s[..|s| - 1]);
      assert s[|s| - 1] in s;
    }
  }

  /** The white space of ASCII, and the underscore. */
  predicate Separates(c: char) {
    c in {' ', '\t', '\n', 11 as char, 12 as char, '\r', 28 as char, 29 as char, 30 as char, 31 as char, '_'}
  }

  lemma KeepAppend(s: string, c: char)
    requires IsWord(c) || IsSpace(c) || c == '-'
    ensures Keep(s + [c]) == Keep(s) + [c]
  {
    assert (s + [c])[..|s|] == s;
  }

  lemma LowerAppend(s: string, c: char)
    ensures Lower(s + [c]) == Lower(s) + [LowerChar(c)]
  {
    assert (s + [c])[..|s|] == s;
  }

  lemma HyphenateAppend(s: string, c: char)
    requires s == "" || !IsSeparator(s[|s| - 1]) || !IsSeparator(c)
    ensures Hyphenate(s + [c]) == Hyphenate(s) + [if IsSeparator(c) then '-' else c]
  {
    assert (s + [c])[..|s|] == s;
  }

  lemma KeepThree(x: char, c: char, y: char)
    requires 'a' <= x <= 'z' && 'a' <= y <= 'z' && Separates(c)
    ensures Keep("" + [x] + [c] + [y]) == "" + [x] + [c] + [y]
  {
    KeepAppend("", x);
    KeepAppend("" + [x], c);
    KeepAppend("" + [x] + [c], y);
  }

  lemma LowerThree(x: char, c: char, y: char)
    requires 'a' <= x <= 'z' && 'a' <= y <= 'z' && Separates(c)
    ensures Lower("" + [x] + [c] + [y]) == "" + [x] + [c] + [y]
  {
    LowerAppend("", x);
    LowerAppend("" + [x], c);
    LowerAppend("" + [x] + [c], y);
  }

  lemma HyphenateThree(x: char, c: char, y: char)
    requires 'a' <= x <= 'z' && 'a' <= y <= 'z' && Separates(c)
    ensures Hyphenate("" + [x] + [c] + [y]) == "" + [x] + ['-'] + [y]
  {
    HyphenateAppend("", x);
    HyphenateAppend("" + [x], c);
    HyphenateAppend("" + [x] + [c], y);
  }

  lemma StripThree(x: char, c: char, y: char)
    requires 'a' <= x <= 'z' && 'a' <= y <= 'z'
    ensures StripRight(StripLeft("" + [x] + [c] + [y])) == "" + [x] + [c] + [y]
  {
    var s := "" + [x] + [c] + [y];
    assert |s| == 3 && s[0] == x && s[2] == y;
  }

  /** Two letters with white space or an underscore between them stay apart. */
  lemma WordsStayApart(x: char, c: char, y: char)
    requires 'a' <= x <= 'z' && 'a' <= y <= 'z' && Separates(c)
    ensures Slug("" + [x] + [c] + [y]) == "" + [x] + ['-'] + [y]
  {
    KeepThree(x, c, y);
    StripThree(x, c, y);
    LowerThree(x, c, y);
    HyphenateThree(x, c, y);
  }

  lemma {:induction false} StrippedEnds(s: string)
    ensures StripLeft(s) != "" ==> !IsSpace(StripLeft(s)[0])
    ensures StripRight(s) != "" ==> StripRight(s)[0] == s[0] && !IsSpace(StripRight(s)[|StripRight(s)| - 1])
    ensures |StripRight(s)| <= |s|
    decreases |s|
  {
    if s != "" {
      if IsSpace(s[0]) { StrippedEnds(s[1..]); }
      if IsSpace(s[|s| - 1]) { StrippedEnds(s[..|s| - 1]); }
    }
  }

  lemma {:induction false} LowerEnds(s: string)
    ensures |Lower(s)| == |s|
    ensures forall i :: 0 <= i < |s| ==> Lower(s)[i] == LowerChar(s[i])
  {
    if s != "" { LowerEnds(s[..|s| - 1]); }
  }

  lemma {:induction false} HyphenateEnds(s: string)
    requires s != ""
    ensures Hyphenate(s) != ""
    ensures Hyphenate(s)[0] == if IsSeparator(s[0]) then '-' else s[0]
    ensures !IsSeparator(s[|s| - 1]) ==> Hyphenate(s)[|Hyphenate(s)| - 1] == s[|s| - 1]
  {
    if |s| > 1 {
      HyphenateEnds(s[..|s| - 1]);
    }
  }

  lemma StrippedIsOfTitle(title: string)
    ensures forall c :: c in StripRight(StripLeft(Keep(title))) ==> c in title
  {
    KeptAreOfTitle(title);
    StrippedLeft(Keep(title));
    StrippedRight(StripLeft(Keep(title)));
  }

  /** A text that neither starts nor ends with a separator gets no hyphen at its ends. */
  lemma SolidEnds(s: string)
    requires s != "" && '-' !in s && !IsSeparator(s[0]) && !IsSeparator(s[|s| - 1])
    ensures var slug := Hyphenate(Lower(s)); slug != "" && slug[0] != '-' && slug[|slug| - 1] != '-'
  {
    LowerEnds(s);
    assert s[0] in s && s[|s| - 1] in s;
    HyphenateEnds(Lower(s));
  }

  /** White space at the ends of a title leaves no hyphen: a name starts and ends with a hyphen only if
      the title has hyphens or underscores. */
  lemma NoHyphenAtEnds(title: string)
    requires '-' !in title && '_' !in title
    ensures var slug := Slug(title); slug != "" ==> slug[0] != '-' && slug[|slug| - 1] != '-'
  {
    var left := StripLeft(Keep(title));
    var stripped := StripRight(left);
    StrippedIsOfTitle(title);
    StrippedEnds(Keep(title));
    StrippedEnds(left);
    if stripped != "" {
      assert stripped[0] in stripped && stripped[|stripped| - 1] in stripped;
      SolidEnds(stripped);
    }
  }

  lemma {:induction false} KeptAreOfTitle(s: string)
    ensures forall c :: c in Keep(s) ==> c in s
  {
    if s != "" { KeptAreOfTitle(s[..|s| - 1]); }
  }

  lemma {:induction false} DecimalHasNoLeadingZero(n: nat)
    requires n > 0
    ensures Decimal(n)[0] != '0'
  {
    if n >= 10 {
      DecimalHasNoLeadingZero(n / 10);
    }
  }

  /** The index takes three digits, and more only without leading zeros. */
  lemma PaddedWidth(n: nat)
    ensures |Padded(n)| >= 3 && (|Padded(n)| > 3 ==> Padded(n)[0] != '0')
  {
    if n > 0 {
      DecimalHasNoLeadingZero(n);
    }
  }

  // ---------------------------------------------------------------- the list of files

  /** A crawled page; an empty title is a missing one. */
  datatype Content = Content(title: string, text: string)

  datatype File = File(name: string, text: string)

  function TitleAt(contents: seq<Content>, i: nat): string
    requires i < |contents|
  {
    if contents[i].title != "" then contents[i].title else "page_" + Decimal(i)
  }

  function FileAt(contents: seq<Content>, i: nat): File
    requires i < |contents|
  {
    File(Filename(TitleAt(contents, i), i), contents[i].text)
  }

  predicate DistinctNames(files: seq<File>) {
    forall i, j :: 0 <= i < j < |files| ==> files[i].name != files[j].name
  }

  /** File names of different indices differ, whatever the titles. */
  lemma FilenamesDistinct(t: string, i: nat, u: string, j: nat)
    requires i != j
    ensures Filename(t, i) != Filename(u, j)
  {
    FilenameCarriesIndex(t, i);
    FilenameCarriesIndex(u, j);
  }

  lemma BuiltNamesDistinct(contents: seq<Content>, files: seq<File>)
    requires |files| == |contents|
    requires forall i :: 0 <= i < |files| ==> files[i] == FileAt(contents, i)
    ensures DistinctNames(files)
  {
    forall i, j | 0 <= i < j < |files| ensures files[i].name != files[j].name {
      FilenamesDistinct(TitleAt(contents, i), i, TitleAt(contents, j), j);
    }
  }

  function Built(contents: seq<Content>, n: nat): (files: seq<File>)
    requires n <= |contents|
    ensures |files| == n
    ensures forall i :: 0 <= i < n ==> files[i] == FileAt(contents, i)
  {
    if n == 0 then [] else Built(contents, n - 1) + [FileAt(contents, n - 1)]
  }

  /** One file per page, in order, with pairwise distinct names for any titles. */
  method BuildFiles(contents: seq<Content>) returns (files: seq<File>)
    ensures |files| == |contents|
    ensures forall i :: 0 <= i < |files| ==> files[i] == FileAt(contents, i)
    ensures forall i :: 0 <= i < |files| ==> files[i].text == contents[i].text
    ensures forall i :: 0 <= i < |files| ==>
              files[i].name == Filename(if contents[i].title == "" then "page_" + Decimal(i) else contents[i].title, i)
    ensures DistinctNames(files)
  {
    files := [];
    for index := 0 to |contents|
      invariant files == Built(contents, index)
    {
      var title := if contents[index].title != "" then contents[index].title else "page_" + Decimal(index);
      files := files + [File(Filename(title, index), contents[index].text)];
    }
    BuiltNamesDistinct(contents, files);
  }
}
