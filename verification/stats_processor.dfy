/**
 * Text statistics: word count, concept density, reading time and a
 * two-level complexity label.
 */
module Stats {
  import opened Text

  /** `{kelime, kavramYogunlugu, okumaSuresi, karmasiklik}`. */
  datatype TextStats = TextStats(
    kelime: nat,
    kavramYogunlugu: string,
    okumaSuresi: string,
    karmasiklik: string)

  /** Reading speed in words per minute. */
  const WordsPerMinute: nat := 150

  /** Above this many words the text counts as complex. */
  const HighComplexityWords: nat := 500

  const High := "Yüksek"
  const Medium := "Orta"
  const MinutesSuffix := " dk"

  // ---------------------------------------------------------------------
  // Word count

  /** 0 for a blank text, otherwise the number of pieces of the trimmed text
      split at runs of whitespace. */
  function WordCount(text: string): nat {
    var t := Trim(text);
    if t == "" then 0 else |SplitWhitespace(t)|
  }

  /** The count is 0 exactly for a blank text; otherwise it is the number of
      words of the trimmed text, each non-empty and free of whitespace. */
  lemma WordCountIsWords(text: string)
    ensures WordCount(text) == 0 <==> IsAllWhitespace(text)
    ensures !IsAllWhitespace(text) ==>
      var ws := SplitWhitespace(Trim(text));
      && WordCount(text) == |ws|
      && forall k :: 0 <= k < |ws| ==> ws[k] != "" && forall i :: 0 <= i < |ws[k]| ==> !IsWhitespace(ws[k][i])
  {
    TrimEmptyIff(text);
    if !IsAllWhitespace(text) {
      TrimSlice(text);
      SplitWhitespaceWords(Trim(text));
      SplitWhitespaceNoSpaces(Trim(text));
    }
  }

  /** Leading and trailing whitespace does not change the count. */
  lemma WordCountPadding(a: string, text: string, b: string)
    requires IsAllWhitespace(a) && IsAllWhitespace(b)
    ensures WordCount(a + text + b) == WordCount(text)
  {
    TrimPadding(a, text, b);
  }

  // ---------------------------------------------------------------------
  // Density

  /** `keywordCount / words * 100` in hundredths, rounded to the nearest
      hundredth with halves rounded up. */
  function Hundredths(keywordCount: nat, words: nat): (h: nat)
    requires words > 0
  {
    (20000 * keywordCount + words) / (2 * words)
  }

  /** The rounded value is within half a hundredth of the exact percentage
      (a half rounds up). */
  lemma HundredthsNearest(keywordCount: nat, words: nat)
    requires words > 0
    ensures var h := Hundredths(keywordCount, words);
      (2 * h - 1) * words <= 20000 * keywordCount < (2 * h + 1) * words
  {
    var n := 20000 * keywordCount + words;
    var d := 2 * words;
    var h := n / d;
    var m := n % d;
    assert n == h * d + m && 0 <= m < d;
    assert (2 * h - 1) * words == h * d - words;
    assert (2 * h + 1) * words == h * d + words;
  }

  /** The decimal digit `d`. */
  function Digit(d: nat): (c: char)
    requires d < 10
    ensures IsDigit(c)
  {
    ('0' as int + d) as char
  }

  /** `toFixed(2)` of `h` hundredths: integer part, point, two digits. */
  function Fixed2(h: nat): string {
    NatToString(h / 100) + "." + [Digit(h / 10 % 10), Digit(h % 10)]
  }

  /** Reading the text back gives the number: a digit run, a point, and two
      digits whose values make up `h`. */
  lemma Fixed2RoundTrip(h: nat)
    ensures var s := Fixed2(h); var n := |s| - 3;
      && n >= 1 && s[n] == '.'
      && IsAllDigits(s[..n]) && IsAllDigits(s[n + 1..])
      && ParseNat(s[..n]) * 100 + ParseNat(s[n + 1..]) == h
  {
    var s := Fixed2(h);
    var i := NatToString(h / 100);
    var n := |s| - 3;
    assert s[..n] == i;
    var f := s[n + 1..];
    assert f == [Digit(h / 10 % 10), Digit(h % 10)];
    ParseNatToString(h / 100);
    assert f[..1] == [Digit(h / 10 % 10)];
    assert f[..1][..0] == [];
    assert ParseNat(f[..1]) == h / 10 % 10;
    assert ParseNat(f) == ParseNat(f[..1]) * 10 + h % 10;
  }

  /** `kavramYogunlugu`: `%` and the density to two decimals, `%0.00` for
      an empty text. */
  function Density(keywordCount: nat, words: nat): (r: string)
    ensures |r| >= 5 && r[0] == '%' && r[|r| - 3] == '.'
    ensures words == 0 ==> r == "%0.00"
    ensures words > 0 ==> r[1..] == Fixed2(Hundredths(keywordCount, words))
  {
    if words > 0 then "%" + Fixed2(Hundredths(keywordCount, words)) else "%0.00"
  }

  /** The empty-text density is what the general form gives for 0. */
  lemma DensityOfNothing(words: nat)
    requires words > 0
    ensures Density(0, words) == Density(0, 0)
  {
    assert Hundredths(0, words) == 0;
  }

  // ---------------------------------------------------------------------
  // Reading time and complexity

  /** `Math.ceil(words / 150)`. */
  function ReadingMinutes(words: nat): nat {
    (words + WordsPerMinute - 1) / WordsPerMinute
  }

  /** The minutes are the least whole number of minutes that covers the
      words at 150 words per minute. */
  lemma ReadingMinutesIsCeiling(words: nat)
    ensures var m := ReadingMinutes(words);
      m * WordsPerMinute >= words && (m == 0 || (m - 1) * WordsPerMinute < words)
  {
    var n := words + WordsPerMinute - 1;
    var m := n / WordsPerMinute;
    assert n == m * WordsPerMinute + n % WordsPerMinute;
  }

  function Complexity(words: nat): string {
    if words > HighComplexityWords then High else Medium
  }

  // ---------------------------------------------------------------------
  // calculate

  /** `calculate(text, keywordCount)`. */
  function Calculate(text: string, keywordCount: nat): (r: TextStats)
    ensures r.kelime == 0 <==> Trim(text) == ""
    ensures r.kavramYogunlugu == Density(keywordCount, r.kelime)
    ensures r.okumaSuresi == NatToString(ReadingMinutes(r.kelime)) + MinutesSuffix
    ensures r.karmasiklik == High <==> r.kelime > HighComplexityWords
    ensures r.karmasiklik == Medium <==> r.kelime <= HighComplexityWords
  {
    var words := WordCount(text);
    TextStats(words, Density(keywordCount, words),
              NatToString(ReadingMinutes(words)) + MinutesSuffix, Complexity(words))
  }

  /** A blank text: no words, `%0.00`, `0 dk`, `Orta`. */
  lemma BlankText(text: string, keywordCount: nat)
    requires IsAllWhitespace(text)
    ensures Calculate(text, keywordCount) == TextStats(0, "%0.00", "0 dk", Medium)
  {
    TrimEmptyIff(text);
  }

  /** A text of words joined with single spaces has as many words as were
      joined. */
  lemma WordCountOfJoin(ws: seq<string>)
    requires |ws| >= 1 && AreWords(ws)
    ensures WordCount(Join(ws, ' ')) == |ws|
  {
    JoinEnds(ws);
    TrimOfTrimmed(Join(ws, ' '));
    SplitJoinWords(ws);
  }

  /** Two concepts in four words: `%50.00`. */
  lemma HalfDensity()
    ensures Density(2, 4) == "%50.00"
  {
    assert Hundredths(2, 4) == 5000;
    assert NatToString(50) == "50";
  }

  /** "Bu bir test metnidir": four words and, with two concepts, `%50.00`. */
  lemma FourWords(ws: seq<string>)
    requires |ws| == 4 && AreWords(ws)
    ensures Calculate(Join(ws, ' '), 2).kelime == 4
    ensures Calculate(Join(ws, ' '), 2).kavramYogunlugu == "%50.00"
  {
    WordCountOfJoin(ws);
    HalfDensity();
  }
}
