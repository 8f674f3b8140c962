/**
 * The line recognisers of the statute-text parser: each trims its line,
 * tries its patterns in a fixed order and returns the first match, or None
 * for JavaScript's `null`. Every pattern is written out as a scanner over
 * the trimmed line (see module Scan), including the backtracking that the
 * regular-expression engine would do.
 */
module LawStructure {
  import opened Base
  import opened Text
  import opened Scan

  /** `{type: 'kanunBaslik', baslik, kanunNo, kabulTarihi, yururlukTarihi}` */
  datatype KanunLine = KanunLine(
    baslik: string,
    kanunNo: Option<string>,
    kabulTarihi: Option<string>,
    yururlukTarihi: Option<string>)

  /** `{type: 'kitap' | 'bolum' | 'kisim', baslik, baslikMetni}` */
  datatype HeadingLine = HeadingLine(baslik: string, baslikMetni: Option<string>)

  /** `{type: 'madde', no, baslik}` */
  datatype MaddeLine = MaddeLine(no: string, baslik: Option<string>)

  /** `{type: 'fikra', no, metin}` */
  datatype FikraLine = FikraLine(no: nat, metin: string)

  /** `{type: 'bent' | 'altBent', no, metin}` */
  datatype BentLine = BentLine(no: string, metin: string)

  /** What a heading pattern captured: the leading word as written in the
      line, and the raw optional title. */
  datatype Captured = Captured(word: string, title: Option<string>)

  /** What a numbered or lettered pattern captured: the mark as written and
      the raw text after it. */
  datatype Marked = Marked(mark: string, text: string)

  // ---------------------------------------------------------------------
  // Character classes

  /** `[A-ZÇĞİÖŞÜ]` */
  predicate IsCapital(c: char) {
    IsAsciiUpper(c) || IsTurkishUpper(c) || c == 'İ'
  }

  /** `[a-zçğıöşü]` under `/i`: the ASCII letters, ç ğ ö ş ü in both cases
      and the dotless ı (which `İ` and `I` do not match). */
  predicate IsBentLetter(c: char) {
    IsAsciiLower(c) || IsAsciiUpper(c) || IsTurkishLower(c) || IsTurkishUpper(c) || c == 'ı'
  }

  /** `[IVX]` under `/i` */
  predicate IsRomanDigit(c: char) {
    c == 'I' || c == 'V' || c == 'X' || c == 'i' || c == 'v' || c == 'x'
  }

  /** `[A-Z]` under `/i` */
  predicate IsAsciiLetter(c: char) {
    IsAsciiLower(c) || IsAsciiUpper(c)
  }

  function RomanRun(s: string, i: nat): (n: nat)
    requires i <= |s|
    ensures i + n <= |s|
    decreases |s| - i
  {
    if i < |s| && IsRomanDigit(s[i]) then 1 + RomanRun(s, i + 1) else 0
  }

  /** Greedy `[A-ZÇĞİÖŞÜ\s]*` */
  function CapitalRun(s: string, i: nat): (n: nat)
    requires i <= |s|
    ensures i + n <= |s|
    decreases |s| - i
  {
    if i < |s| && (IsCapital(s[i]) || IsWhitespace(s[i])) then 1 + CapitalRun(s, i + 1) else 0
  }

  // ---------------------------------------------------------------------
  // Heading shapes shared by kitap, bölüm and kısım

  /** The ordinal words of kitap and bölüm headings, in pattern order. */
  const Ordinals: seq<string> := [
    "BİRİNCİ", "İKİNCİ", "ÜÇÜNCÜ", "DÖRDÜNCÜ", "BEŞİNCİ", "ALTINCI", "YEDİNCİ",
    "SEKİZİNCİ", "DOKUZUNCU", "ONUNCU", "ONBİRİNCİ", "ONİKİNCİ", "ONÜÇÜNCÜ",
    "ONDÖRDÜNCÜ", "ONBEŞİNCİ", "ONALTINCI", "ONYEDİNCİ", "ONSEKİZİNCİ",
    "ONDOKUZUNCU", "YİRMİNCİ"]

  /** The ordinal words of kısım headings, in pattern order. */
  const KisimOrdinals: seq<string> := [
    "Birinci", "İkinci", "Üçüncü", "Dördüncü", "Beşinci", "Altıncı", "Yedinci",
    "Sekizinci", "Dokuzuncu", "Onuncu"]

  /** `^(ord)\s+WORD(?:\s*[:-]\s*(.+))?$` for one alternative `ord`. */
  function OrdinalAt(t: string, ord: string, word: string): (r: Option<Captured>)
    ensures r.Some? ==> CiAt(t, 0, ord) && r.value.word == t[..|ord|]
  {
    if CiAt(t, 0, ord) then
      var w := WsRun(t, |ord|);
      if w > 0 && CiAt(t, |ord| + w, word) then
        match OptionalTitle(t, |ord| + w + |word|)
        case Some(title) => Some(Captured(t[..|ord|], title))
        case None => None
      else None
    else None
  }

  /** The alternation `(o1|o2|…)`: the alternatives are tried in order and
      the first with which the whole pattern matches wins. */
  function FirstOrdinal(t: string, ords: seq<string>, word: string): (r: Option<Captured>)
    ensures r.Some? ==> exists k :: 0 <= k < |ords| && CiAt(t, 0, ords[k]) && r.value.word == t[..|ords[k]|]
  {
    if ords == [] then None
    else match OrdinalAt(t, ords[0], word)
      case Some(c) => Some(c)
      case None =>
        var r := FirstOrdinal(t, ords[1..], word);
        assert r.Some? ==> exists k :: 1 <= k < |ords| && CiAt(t, 0, ords[k]) && r.value.word == t[..|ords[k]|] by {
          if r.Some? {
            var k :| 0 <= k < |ords[1..]| && CiAt(t, 0, ords[1..][k]) && r.value.word == t[..|ords[1..][k]|];
            assert ords[1..][k] == ords[k + 1];
          }
        }
        r
  }

  /** `^WORD\s+([IVX]+)(?:\s*[:-]\s*(.+))?$` */
  function RomanAt(t: string, word: string): (r: Option<Captured>)
    ensures r.Some? ==> r.value.word != "" && forall i :: 0 <= i < |r.value.word| ==> IsRomanDigit(r.value.word[i])
  {
    if CiAt(t, 0, word) then
      var w := WsRun(t, |word|);
      var n := RomanRun(t, |word| + w);
      if w > 0 && n > 0 then
        match OptionalTitle(t, |word| + w + n)
        case Some(title) =>
          RomanRunDigits(t, |word| + w);
          Some(Captured(t[|word| + w..|word| + w + n], title))
        case None => None
      else None
    else None
  }

  lemma {:induction false} RomanRunDigits(s: string, i: nat)
    requires i <= |s|
    ensures forall k :: i <= k < i + RomanRun(s, i) ==> IsRomanDigit(s[k])
    decreases |s| - i
  {
    if i < |s| && IsRomanDigit(s[i]) {
      RomanRunDigits(s, i + 1);
    }
  }

  /** `^WORD\s+([A-Z])(?:\s*[:-]\s*(.+))?$` */
  function LetterAt(t: string, word: string): (r: Option<Captured>)
    ensures r.Some? ==> |r.value.word| == 1 && IsAsciiLetter(r.value.word[0])
  {
    if CiAt(t, 0, word) then
      var w := WsRun(t, |word|);
      var p := |word| + w;
      if w > 0 && p < |t| && IsAsciiLetter(t[p]) then
        match OptionalTitle(t, p + 1)
        case Some(title) => Some(Captured([t[p]], title))
        case None => None
      else None
    else None
  }

  /** `^WORD\s*[:-]\s*(.+)$` */
  function SimpleAt(t: string, word: string): (r: Option<string>)
    ensures r.Some? ==> r.value != ""
  {
    if CiAt(t, 0, word) then SeparatedTitle(t, |word|) else None
  }

  // ---------------------------------------------------------------------
  // detectKitap, detectBolum, detectKisim

  /** `detectKitap` */
  function DetectKitap(line: string): Option<HeadingLine> {
    KitapOf(Trim(line))
  }

  /** The patterns of `detectKitap`, in order, on the trimmed line. */
  function KitapOf(t: string): Option<HeadingLine>
  {
    match FirstOrdinal(t, Ordinals, "KİTAP")
    case Some(c) => Some(HeadingLine(ToUpper(c.word) + " KİTAP", TitleText(c.title)))
    case None =>
      match RomanAt(t, "KİTAP")
      case Some(c) => Some(HeadingLine("KİTAP " + ToUpper(c.word), TitleText(c.title)))
      case None => None
  }

  /** `detectBolum` */
  function DetectBolum(line: string): Option<HeadingLine> {
    BolumOf(Trim(line))
  }

  /** The patterns of `detectBolum`, in order, on the trimmed line. */
  function BolumOf(t: string): Option<HeadingLine>
  {
    match FirstOrdinal(t, Ordinals, "BÖLÜM")
    case Some(c) => Some(HeadingLine(ToUpper(c.word) + " BÖLÜM", TitleText(c.title)))
    case None =>
      match RomanAt(t, "BÖLÜM")
      case Some(c) => Some(HeadingLine("BÖLÜM " + ToUpper(c.word), TitleText(c.title)))
      case None =>
        match SimpleAt(t, "BÖLÜM")
        case Some(x) => Some(HeadingLine("BÖLÜM", Some(Trim(x))))
        case None => None
  }

  /** `detectKisim`: the ordinal keeps the case it was written in. */
  function DetectKisim(line: string): Option<HeadingLine> {
    KisimOf(Trim(line))
  }

  /** The patterns of `detectKisim`, in order, on the trimmed line. */
  function KisimOf(t: string): Option<HeadingLine>
  {
    match FirstOrdinal(t, KisimOrdinals, "Kısım")
    case Some(c) => Some(HeadingLine(c.word + " Kısım", TitleText(c.title)))
    case None =>
      match LetterAt(t, "KISIM")
      case Some(c) => Some(HeadingLine("KISIM " + ToUpper(c.word), TitleText(c.title)))
      case None =>
        match SimpleAt(t, "KISIM")
        case Some(x) => Some(HeadingLine("KISIM", Some(Trim(x))))
        case None => None
  }

  // ---------------------------------------------------------------------
  // detectMadde

  /** `\s+(\d+)(?:\s*[-:]\s*(.+))?$` at `i`, after the word "Madde". */
  function MaddeAfter(t: string, i: nat): (r: Option<MaddeLine>)
    requires i <= |t|
    ensures r.Some? ==> IsMaddeResult(r.value)
  {
    var w := WsRun(t, i);
    if w > 0 then MaddeNumber(t, i + w) else None
  }

  /** `(\d+)(?:\s*[-:]\s*(.+))?$` at `j`. */
  function MaddeNumber(t: string, j: nat): (r: Option<MaddeLine>)
    requires j <= |t|
    ensures r.Some? ==> IsMaddeResult(r.value)
  {
    var d := DigitRun(t, j);
    DigitRunDigits(t, j);
    if d > 0 then MaddeTitle(t, t[j..j + d], j + d) else None
  }

  /** `(?:\s*[-:]\s*(.+))?$` at `k`, after the article number `no`. */
  function MaddeTitle(t: string, no: string, k: nat): (r: Option<MaddeLine>)
    requires no != "" && IsAllDigits(no) && k <= |t|
    ensures r.Some? ==> IsMaddeResult(r.value)
  {
    match OptionalTitle(t, k)
    case Some(title) =>
      TitleTextTrimmed(title);
      Some(MaddeLine(no, TitleText(title)))
    case None => None
  }

  /** What `detectMadde` reports: a non-empty string of digits as written,
      and a trimmed title or None. */
  predicate IsMaddeResult(m: MaddeLine) {
    m.no != "" && IsAllDigits(m.no) && IsTitleValue(m.baslik)
  }

  /** `^MADDE\s+(\d+)(?:\s*[-:]\s*(.+))?$/i` */
  function MaddeUpper(t: string): (r: Option<MaddeLine>)
    ensures r.Some? ==> IsMaddeResult(r.value)
  {
    if CiAt(t, 0, "MADDE") then MaddeAfter(t, 5) else None
  }

  /** `^Madde\s+(\d+)(?:\s*[-:]\s*(.+))?$`, without `/i` */
  function MaddeTitleCase(t: string): (r: Option<MaddeLine>)
    ensures r.Some? ==> IsMaddeResult(r.value)
  {
    if |t| >= 5 && t[..5] == "Madde" then MaddeAfter(t, 5) else None
  }

  /** `^(\d+)\.\s*Madde(?:\s*[-:]\s*(.+))?$/i` */
  function MaddeNumbered(t: string): (r: Option<MaddeLine>)
    ensures r.Some? ==> IsMaddeResult(r.value)
  {
    var d := DigitRun(t, 0);
    DigitRunDigits(t, 0);
    if d > 0 && d < |t| && t[d] == '.' then
      var p := d + 1 + WsRun(t, d + 1);
      if CiAt(t, p, "Madde") then
        match OptionalTitle(t, p + 5)
        case Some(title) =>
          TitleTextTrimmed(title);
          Some(MaddeLine(t[..d], TitleText(title)))
        case None => None
      else None
    else None
  }

  /** `detectMadde` */
  function DetectMadde(line: string): (r: Option<MaddeLine>)
    ensures r.Some? ==> IsMaddeResult(r.value)
  {
    MaddeOf(Trim(line))
  }

  /** The patterns of `detectMadde`, in order, on the trimmed line. */
  function MaddeOf(t: string): (r: Option<MaddeLine>)
    ensures r.Some? ==> IsMaddeResult(r.value)
  {
    var upper := MaddeUpper(t);
    if upper.Some? then upper
    else
      var title := MaddeTitleCase(t);
      if title.Some? then title else MaddeNumbered(t)
  }

  // ---------------------------------------------------------------------
  // detectFikra, detectBent, detectAltBent

  /** `^\((\d+)\)\s*(.+)$`: the digits and the raw text. */
  function ParenNumber(t: string): (r: Option<Marked>)
    ensures r.Some? ==> r.value.mark != "" && IsAllDigits(r.value.mark)
  {
    if |t| > 0 && t[0] == '(' then
      var d := DigitRun(t, 1);
      DigitRunDigits(t, 1);
      if d > 0 && 1 + d < |t| && t[1 + d] == ')' then
        match TailCapture(t, 2 + d, 0)
        case Some(x) => Some(Marked(t[1..1 + d], x))
        case None => None
      else None
    else None
  }

  /** `^(\d+)\.\s+(.+)$`: the digits and the raw text. */
  function DotNumber(t: string): (r: Option<Marked>)
    ensures r.Some? ==> r.value.mark != "" && IsAllDigits(r.value.mark)
  {
    var d := DigitRun(t, 0);
    DigitRunDigits(t, 0);
    if d > 0 && d < |t| && t[d] == '.' then
      match TailCapture(t, d + 1, 1)
      case Some(x) => Some(Marked(t[..d], x))
      case None => None
    else None
  }

  /** `detectFikra`: "(n) text" for any n; "n. text" only for n at most 50. */
  function DetectFikra(line: string): Option<FikraLine> {
    FikraOf(Trim(line))
  }

  /** The patterns of `detectFikra`, in order, on the trimmed line. */
  function FikraOf(t: string): Option<FikraLine>
  {
    match ParenNumber(t)
    case Some(m) => Some(FikraLine(ParseNat(m.mark), Trim(m.text)))
    case None =>
      match DotNumber(t)
      case Some(m) => if ParseNat(m.mark) <= 50 then Some(FikraLine(ParseNat(m.mark), Trim(m.text))) else None
      case None => None
  }

  /** `\s*\)\s*(.+)$` at `i` */
  function ParenText(t: string, i: nat): Option<string>
    requires i <= |t|
  {
    var j := i + WsRun(t, i);
    if j < |t| && t[j] == ')' then TailCapture(t, j + 1, 0) else None
  }

  /** `^([a-zçğıöşü])\s*\)\s*(.+)$/i` */
  function LetterParen(t: string): (r: Option<Marked>)
    ensures r.Some? ==> |r.value.mark| == 1 && IsBentLetter(r.value.mark[0])
  {
    if |t| > 0 && IsBentLetter(t[0]) then
      match ParenText(t, 1)
      case Some(x) => Some(Marked([t[0]], x))
      case None => None
    else None
  }

  /** `^([a-zçğıöşü])\.\s+(.+)$/i` */
  function LetterDot(t: string): (r: Option<Marked>)
    ensures r.Some? ==> |r.value.mark| == 1 && IsBentLetter(r.value.mark[0])
  {
    if |t| > 1 && IsBentLetter(t[0]) && t[1] == '.' then
      match TailCapture(t, 2, 1)
      case Some(x) => Some(Marked([t[0]], x))
      case None => None
    else None
  }

  /** `detectBent` */
  function DetectBent(line: string): (r: Option<BentLine>)
    ensures r.Some? ==> |r.value.no| == 1 && IsBentLower(r.value.no[0]) && IsTrimmed(r.value.metin)
  {
    BentOf(Trim(line))
  }

  /** The patterns of `detectBent`, in order, on the trimmed line. */
  function BentOf(t: string): (r: Option<BentLine>)
    ensures r.Some? ==> |r.value.no| == 1 && IsBentLower(r.value.no[0]) && IsTrimmed(r.value.metin)
  {
    var m := if LetterParen(t).Some? then LetterParen(t) else LetterDot(t);
    match m
    case Some(m) =>
      LowerBentLetter(m.mark[0]);
      assert m.mark == [m.mark[0]];
      TrimSlice(m.text);
      Some(BentLine(ToLower(m.mark), Trim(m.text)))
    case None => None
  }

  /** `^([a-zçğıöşü]{2})\s*\)\s*(.+)$/i` */
  function DoubleLetterParen(t: string): (r: Option<Marked>)
    ensures r.Some? ==> |r.value.mark| == 2 && IsBentLetter(r.value.mark[0]) && IsBentLetter(r.value.mark[1])
  {
    if |t| > 1 && IsBentLetter(t[0]) && IsBentLetter(t[1]) then
      match ParenText(t, 2)
      case Some(x) => Some(Marked(t[..2], x))
      case None => None
    else None
  }

  /** `detectAltBent`: two letters and ")", or "(n) text" only for n above 10
      (then `no` keeps the digits as written). */
  function DetectAltBent(line: string): Option<BentLine> {
    AltBentOf(Trim(line))
  }

  /** The patterns of `detectAltBent`, in order, on the trimmed line. */
  function AltBentOf(t: string): Option<BentLine>
  {
    match DoubleLetterParen(t)
    case Some(m) => Some(BentLine(ToLower(m.mark), Trim(m.text)))
    case None =>
      match ParenNumber(t)
      case Some(m) => if ParseNat(m.mark) > 10 then Some(BentLine(m.mark, Trim(m.text))) else None
      case None => None
  }

  // ---------------------------------------------------------------------
  // extractKanunNo, extractTarih

  /** `(\d{4})\s+sayılı/i` at `i` */
  function SayiliAt(s: string, i: nat): (r: Option<string>)
    ensures r.Some? ==> |r.value| == 4 && IsAllDigits(r.value)
  {
    if i + 4 <= |s| && IsAllDigits(s[i..i + 4]) then
      var w := WsRun(s, i + 4);
      if w > 0 && CiAt(s, i + 4 + w, "sayılı") then Some(s[i..i + 4]) else None
    else None
  }

  /** `Kanun\s+Numarası\s*[:]\s*(\d+)/i` at `i` */
  function NumarasiAt(s: string, i: nat): (r: Option<string>)
    ensures r.Some? ==> r.value != "" && IsAllDigits(r.value)
  {
    if CiAt(s, i, "Kanun") then
      var w := WsRun(s, i + 5);
      if w > 0 && CiAt(s, i + 5 + w, "Numarası") then ColonNumber(s, i + 5 + w + 8) else None
    else None
  }

  /** `\s*[:]\s*(\d+)` at `i`: the digits after a colon. */
  function ColonNumber(s: string, i: nat): (r: Option<string>)
    requires i <= |s|
    ensures r.Some? ==> r.value != "" && IsAllDigits(r.value)
  {
    var q := i + WsRun(s, i);
    if q < |s| && s[q] == ':' then
      var p := q + 1 + WsRun(s, q + 1);
      var d := DigitRun(s, p);
      DigitRunDigits(s, p);
      if d > 0 then Some(s[p..p + d]) else None
    else None
  }

  /** `extractKanunNo`: the leftmost "NNNN sayılı", else the leftmost
      "Kanun Numarası: n", else None. */
  function ExtractKanunNo(text: string): Option<string>
  {
    var sayili := FirstHit((i: nat) => SayiliAt(text, i), 0, |text|);
    if sayili.Some? then sayili else FirstHit((i: nat) => NumarasiAt(text, i), 0, |text|)
  }

  predicate IsDateSeparator(c: char) {
    c == '.' || c == '/'
  }

  /** `\d{1,2}[./]` at `p`: the position after the separator. */
  function DayMonthAt(s: string, p: nat): (r: Option<nat>)
    ensures r.Some? ==> p + 2 <= r.value <= |s| && IsDayMonth(s[p..r.value])
  {
    if p < |s| && IsDigit(s[p]) then
      if p + 2 < |s| && IsDigit(s[p + 1]) && IsDateSeparator(s[p + 2]) then Some(p + 3)
      else if p + 1 < |s| && IsDateSeparator(s[p + 1]) then Some(p + 2)
      else None
    else None
  }

  /** `(\d{1,2}[./]\d{1,2}[./]\d{4})` at `p`: the captured date. */
  function DateAt(s: string, p: nat): (r: Option<string>)
    ensures r.Some? ==> IsDateText(r.value)
  {
    match DayMonthAt(s, p)
    case None => None
    case Some(q) =>
      match DayMonthAt(s, q)
      case None => None
      case Some(r) =>
        if r + 4 <= |s| && IsAllDigits(s[r..r + 4]) then
          DateShape(s, p, q, r);
          Some(s[p..r + 4])
        else None
  }

  /** `\d{1,2}[./]` as a whole text. */
  predicate IsDayMonth(x: string) {
    (|x| == 2 && IsDigit(x[0]) && IsDateSeparator(x[1]))
    || (|x| == 3 && IsDigit(x[0]) && IsDigit(x[1]) && IsDateSeparator(x[2]))
  }

  /** `\d{1,2}[./]\d{1,2}[./]\d{4}` as a whole text. */
  predicate IsDateText(d: string) {
    exists i, j | 0 <= i <= j <= |d| ::
      IsDayMonth(d[..i]) && IsDayMonth(d[i..j]) && |d| == j + 4 && IsAllDigits(d[j..])
  }

  lemma DateShape(s: string, p: nat, q: nat, r: nat)
    requires DayMonthAt(s, p) == Some(q) && DayMonthAt(s, q) == Some(r)
    requires r + 4 <= |s| && IsAllDigits(s[r..r + 4])
    ensures IsDateText(s[p..r + 4])
  {
    var d := s[p..r + 4];
    SliceOfSlice(s, p, r + 4, 0, q - p);
    SliceOfSlice(s, p, r + 4, q - p, r - p);
    SliceOfSlice(s, p, r + 4, r - p, r + 4 - p);
    assert d[..q - p] == s[p..q];
    assert d[r - p..] == s[r..r + 4];
    assert IsDayMonth(d[..q - p]) && IsDayMonth(d[q - p..r - p]) && IsAllDigits(d[r - p..]);
  }

  /** Greedy `[:\s]*` */
  function ColonWsRun(s: string, i: nat): (n: nat)
    requires i <= |s|
    ensures i + n <= |s|
    decreases |s| - i
  {
    if i < |s| && (s[i] == ':' || IsWhitespace(s[i])) then 1 + ColonWsRun(s, i + 1) else 0
  }

  /** `kabul\s+tarihi[:\s]+(date)/i` at `i` */
  function KabulAt(s: string, i: nat): (r: Option<string>)
    ensures r.Some? ==> IsDateText(r.value)
  {
    if CiAt(s, i, "kabul") then
      var w := WsRun(s, i + 5);
      var p := i + 5 + w;
      if w > 0 && CiAt(s, p, "tarihi") then
        var c := ColonWsRun(s, p + 6);
        if c > 0 then DateAt(s, p + 6 + c) else None
      else None
    else None
  }

  /** `yürürlük[:\s]+(date)/i` at `i` */
  function YururlukAt(s: string, i: nat): (r: Option<string>)
    ensures r.Some? ==> IsDateText(r.value)
  {
    if CiAt(s, i, "yürürlük") then
      var c := ColonWsRun(s, i + 8);
      if c > 0 then DateAt(s, i + 8 + c) else None
    else None
  }

  /** `extractTarih(text, type)`: only the types "kabul" and "yürürlük" have a
      pattern; any other type yields None. */
  function ExtractTarih(text: string, kind: string): Option<string>
  {
    if kind == "kabul" then FirstHit((i: nat) => KabulAt(text, i), 0, |text|)
    else if kind == "yürürlük" then FirstHit((i: nat) => YururlukAt(text, i), 0, |text|)
    else None
  }

  // ---------------------------------------------------------------------
  // detectKanunBaslik

  /** The greedy `[A-ZÇĞİÖŞÜ\s]+` before `KANUNU` gives back characters
      until `KANUNU` follows: the largest start `m` in `[2, top]` of a
      `KANUNU`. */
  function KanunuBefore(t: string, top: nat): (r: Option<nat>)
    ensures r.Some? ==> 2 <= r.value <= top && r.value + 6 <= |t| && t[r.value..r.value + 6] == "KANUNU"
    ensures r.Some? ==> forall m :: r.value < m <= top ==> !KanunuAt(t, m)
    ensures r.None? <==> forall m :: 2 <= m <= top ==> !KanunuAt(t, m)
    decreases top
  {
    if top < 2 then None
    else if top + 6 <= |t| && t[top..top + 6] == "KANUNU" then assert KanunuAt(t, top); Some(top)
    else assert !KanunuAt(t, top); KanunuBefore(t, top - 1)
  }

  /** `KANUNU` starts at `m`. */
  predicate KanunuAt(t: string, m: nat) {
    m + 6 <= |t| && t[m..m + 6] == "KANUNU"
  }

  /** `^([A-ZÇĞİÖŞÜ][A-ZÇĞİÖŞÜ\s]+KANUNU)`, case-sensitive and not anchored
      at the end. */
  function FullTitle(t: string): (r: Option<string>)
    ensures r.Some? ==> |t| > 0 && IsCapital(t[0])
  {
    if |t| > 0 && IsCapital(t[0]) then
      match KanunuBefore(t, 1 + CapitalRun(t, 1))
      case Some(m) => Some(t[..m + 6])
      case None => None
    else None
  }

  /** `(?:\s+Kanunu)?$` at `e` */
  predicate KanunuSuffix(t: string, e: nat)
    requires e <= |t|
  {
    e == |t| || (var w := WsRun(t, e); w > 0 && CiAt(t, e + w, "Kanunu") && e + w + 6 == |t|)
  }

  /** The lazy `(.+?)` before `(?:\s+Kanunu)?$`: the least end `e` from the
      given one on such that the capture holds no line terminator and the
      suffix matches. */
  function LazyTitleEnd(t: string, e: nat): (r: Option<nat>)
    requires 0 < e <= |t|
    ensures r.Some? ==> e <= r.value <= |t|
    ensures r.Some? ==> KanunuSuffix(t, r.value) && forall j :: e <= j < r.value ==> !KanunuSuffix(t, j)
    ensures r.Some? ==> forall k :: e - 1 <= k < r.value ==> !IsLineTerminator(t[k])
    ensures r.None? ==> exists k :: e - 1 <= k < |t| && IsLineTerminator(t[k])
    decreases |t| - e
  {
    if IsLineTerminator(t[e - 1]) then None
    else if KanunuSuffix(t, e) then Some(e)
    else if e == |t| then None
    else LazyTitleEnd(t, e + 1)
  }

  /** `^(\d{4})\s+sayılı\s+(.+?)(?:\s+Kanunu)?$/i` on a trimmed line. */
  function NumberedTitle(t: string): (r: Option<Marked>)
    ensures r.Some? ==> |t| >= 4 && r.value.mark == t[..4] && IsAllDigits(r.value.mark)
  {
    if 4 <= |t| && IsAllDigits(t[..4]) then
      var w := WsRun(t, 4);
      if w > 0 && CiAt(t, 4 + w, "sayılı") then
        var q := 4 + w + 6;
        var v := WsRun(t, q);
        var p := q + v;
        if v > 0 && p < |t| then
          match LazyTitleEnd(t, p + 1)
          case Some(e) => Some(Marked(t[..4], t[p..e]))
          case None => None
        else None
      else None
    else None
  }

  /** `detectKanunBaslik` */
  function DetectKanunBaslik(line: string): Option<KanunLine> {
    KanunBaslikOf(Trim(line))
  }

  /** The patterns of `detectKanunBaslik`, in order, on the trimmed line. */
  function KanunBaslikOf(t: string): Option<KanunLine>
  {
    match FullTitle(t)
    case Some(title) =>
      Some(KanunLine(Trim(title), ExtractKanunNo(t), ExtractTarih(t, "kabul"), ExtractTarih(t, "yürürlük")))
    case None =>
      match NumberedTitle(t)
      case Some(m) => Some(KanunLine(Trim(m.text), Some(m.mark), None, None))
      case None => None
  }

  // ---------------------------------------------------------------------
  // Properties

  /** Every detector trims its line first: whitespace around a line never
      changes what is recognised. */
  lemma DetectorsIgnorePadding(a: string, line: string, b: string)
    requires IsAllWhitespace(a) && IsAllWhitespace(b)
    ensures DetectKanunBaslik(a + line + b) == DetectKanunBaslik(line)
    ensures DetectKitap(a + line + b) == DetectKitap(line)
    ensures DetectBolum(a + line + b) == DetectBolum(line)
    ensures DetectKisim(a + line + b) == DetectKisim(line)
    ensures DetectMadde(a + line + b) == DetectMadde(line)
    ensures DetectFikra(a + line + b) == DetectFikra(line)
    ensures DetectBent(a + line + b) == DetectBent(line)
    ensures DetectAltBent(a + line + b) == DetectAltBent(line)
  {
    TrimPadding(a, line, b);
  }

  /** A character that matches a capital letter under `/i` upper-cases to
      that letter. */
  lemma CapitalMatch(x: char, c: char)
    requires IsCapital(c) && CanonEq(x, c)
    ensures UpperChar(x) == c
  {
  }

  /** Upper-casing the text matched by an all-capital word gives the word. */
  lemma UpperOfMatch(t: string, word: string)
    requires CiAt(t, 0, word)
    requires forall i :: 0 <= i < |word| ==> IsCapital(word[i])
    ensures ToUpper(t[..|word|]) == word
  {
    var u := ToUpper(t[..|word|]);
    forall i | 0 <= i < |word|
      ensures u[i] == word[i]
    {
      CapitalMatch(t[i], word[i]);
    }
  }

  /** The kitap and bölüm ordinals are written in capitals only. */
  lemma OrdinalsCapital()
    ensures forall k, i :: 0 <= k < |Ordinals| && 0 <= i < |Ordinals[k]| ==> IsCapital(Ordinals[k][i])
  {
  }

  /** An upper-case Roman numeral. */
  predicate IsUpperRoman(r: string) {
    r != "" && forall i :: 0 <= i < |r| ==> r[i] == 'I' || r[i] == 'V' || r[i] == 'X'
  }

  lemma UpperRoman(r: string)
    requires r != "" && forall i :: 0 <= i < |r| ==> IsRomanDigit(r[i])
    ensures IsUpperRoman(ToUpper(r))
  {
    var u := ToUpper(r);
    forall i | 0 <= i < |u|
      ensures u[i] == 'I' || u[i] == 'V' || u[i] == 'X'
    {
      assert u[i] == UpperChar(r[i]);
      UpperRomanDigit(r[i]);
    }
  }

  lemma UpperRomanDigit(c: char)
    requires IsRomanDigit(c)
    ensures UpperChar(c) == 'I' || UpperChar(c) == 'V' || UpperChar(c) == 'X'
  {
  }

  /** The normal form of a heading's optional title: None, or a trimmed text. */
  predicate IsTitleValue(m: Option<string>) {
    m.Some? ==> IsTrimmed(m.value)
  }

  lemma TitleTextTrimmed(title: Option<string>)
    ensures IsTitleValue(TitleText(title))
  {
    if title.Some? {
      TrimSlice(title.value);
    }
  }

  /** A kitap heading's baslik is normalised to an ordinal from the list
      followed by " KİTAP", or to "KİTAP " and an upper-case Roman numeral,
      whatever the case of the line; its title is trimmed or None. */
  lemma KitapForms(line: string)
    ensures DetectKitap(line).Some? ==>
      var h := DetectKitap(line).value;
      ((exists k :: 0 <= k < |Ordinals| && h.baslik == Ordinals[k] + " KİTAP")
       || (exists r :: IsUpperRoman(r) && h.baslik == "KİTAP " + r))
      && IsTitleValue(h.baslikMetni)
  {
    var t := Trim(line);
    match FirstOrdinal(t, Ordinals, "KİTAP")
    case Some(c) =>
      var k :| 0 <= k < |Ordinals| && CiAt(t, 0, Ordinals[k]) && c.word == t[..|Ordinals[k]|];
      OrdinalsCapital();
      UpperOfMatch(t, Ordinals[k]);
      TitleTextTrimmed(c.title);
    case None =>
      match RomanAt(t, "KİTAP")
      case Some(c) =>
        UpperRoman(c.word);
        TitleTextTrimmed(c.title);
      case None =>
  }

  /** A bölüm heading's baslik is an ordinal followed by " BÖLÜM", "BÖLÜM "
      and an upper-case Roman numeral, or the bare word "BÖLÜM" (which
      always comes with a title); its title is trimmed or None. */
  lemma BolumForms(line: string)
    ensures DetectBolum(line).Some? ==>
      var h := DetectBolum(line).value;
      ((exists k :: 0 <= k < |Ordinals| && h.baslik == Ordinals[k] + " BÖLÜM")
       || (exists r :: IsUpperRoman(r) && h.baslik == "BÖLÜM " + r)
       || (h.baslik == "BÖLÜM" && h.baslikMetni.Some?))
      && IsTitleValue(h.baslikMetni)
  {
    var t := Trim(line);
    match FirstOrdinal(t, Ordinals, "BÖLÜM")
    case Some(c) =>
      var k :| 0 <= k < |Ordinals| && CiAt(t, 0, Ordinals[k]) && c.word == t[..|Ordinals[k]|];
      OrdinalsCapital();
      UpperOfMatch(t, Ordinals[k]);
      TitleTextTrimmed(c.title);
    case None =>
      match RomanAt(t, "BÖLÜM")
      case Some(c) =>
        UpperRoman(c.word);
        TitleTextTrimmed(c.title);
      case None =>
        match SimpleAt(t, "BÖLÜM")
        case Some(x) => TitleTextTrimmed(Some(x));
        case None =>
  }

  /** A kısım heading's baslik is an ordinal in the case it was written in,
      followed by " Kısım"; or "KISIM " and one upper-case ASCII letter; or
      the bare word "KISIM" with a title. */
  lemma KisimForms(line: string)
    ensures DetectKisim(line).Some? ==>
      var h := DetectKisim(line).value;
      ((exists k, w :: 0 <= k < |KisimOrdinals| && CiAt(w, 0, KisimOrdinals[k]) && |w| == |KisimOrdinals[k]|
                       && h.baslik == w + " Kısım")
       || (exists c :: IsAsciiUpper(c) && h.baslik == "KISIM " + [c])
       || (h.baslik == "KISIM" && h.baslikMetni.Some?))
      && IsTitleValue(h.baslikMetni)
  {
    var t := Trim(line);
    match FirstOrdinal(t, KisimOrdinals, "Kısım")
    case Some(c) =>
      var k :| 0 <= k < |KisimOrdinals| && CiAt(t, 0, KisimOrdinals[k]) && c.word == t[..|KisimOrdinals[k]|];
      assert CiAt(c.word, 0, KisimOrdinals[k]);
      TitleTextTrimmed(c.title);
    case None =>
      match LetterAt(t, "KISIM")
      case Some(c) =>
        assert IsAsciiUpper(ToUpper(c.word)[0]);
        assert ToUpper(c.word) == [ToUpper(c.word)[0]];
        TitleTextTrimmed(c.title);
      case None =>
        match SimpleAt(t, "KISIM")
        case Some(x) => TitleTextTrimmed(Some(x));
        case None =>
  }

  /** A non-empty digit string is a line text. */
  lemma DigitsLineText(d: string)
    requires d != "" && IsAllDigits(d)
    ensures IsLineText(d)
  {
  }

  /** `\s+(\d+)` followed by an optional title, evaluated on a line of a
      known shape: one space, the digits `d`, then what OptionalTitle found. */
  lemma MaddeAfterForm(t: string, i: nat, d: string, title: Option<string>)
    requires d != "" && IsAllDigits(d)
    requires i + 1 + |d| <= |t| && t[i] == ' ' && t[i + 1..i + 1 + |d|] == d
    requires i + 1 + |d| < |t| ==> !IsDigit(t[i + 1 + |d|])
    requires OptionalTitle(t, i + 1 + |d|) == Some(title)
    ensures MaddeAfter(t, i) == Some(MaddeLine(d, TitleText(title)))
  {
    DigitsAt(t, i + 1, d);
    assert IsDigit(t[i + 1]) && !IsWhitespace(t[i + 1]);
    WsRunExact(t, i, 1);
    DigitRunExact(t, i + 1, |d|);
    MaddeAfterChain(t, i, d, title);
  }

  /** `\s+`, the digits and the title, given the length of each run. */
  lemma MaddeAfterChain(t: string, i: nat, d: string, title: Option<string>)
    requires d != "" && IsAllDigits(d) && i + 1 + |d| <= |t|
    requires WsRun(t, i) == 1 && DigitRun(t, i + 1) == |d| && t[i + 1..i + 1 + |d|] == d
    requires OptionalTitle(t, i + 1 + |d|) == Some(title)
    ensures MaddeAfter(t, i) == Some(MaddeLine(d, TitleText(title)))
  {
    MaddeNumberTitle(t, i + 1, d, title);
    MaddeAfterStep(t, i);
  }

  /** The digits `d` at `j`, then the title. */
  lemma MaddeNumberTitle(t: string, j: nat, d: string, title: Option<string>)
    requires d != "" && IsAllDigits(d) && j + |d| <= |t| && DigitRun(t, j) == |d| && t[j..j + |d|] == d
    requires OptionalTitle(t, j + |d|) == Some(title)
    ensures MaddeNumber(t, j) == Some(MaddeLine(d, TitleText(title)))
  {
    MaddeNumberStep(t, j, d);
    MaddeTitleStep(t, d, j + |d|, title);
  }

  lemma MaddeAfterStep(t: string, i: nat)
    requires i < |t| && WsRun(t, i) == 1
    ensures MaddeAfter(t, i) == MaddeNumber(t, i + 1)
  {
  }

  lemma MaddeNumberStep(t: string, j: nat, d: string)
    requires d != "" && IsAllDigits(d) && j + |d| <= |t| && DigitRun(t, j) == |d| && t[j..j + |d|] == d
    ensures MaddeNumber(t, j) == MaddeTitle(t, d, j + |d|)
  {
    MaddeNumberUnfold(t, j);
  }

  lemma MaddeNumberUnfold(t: string, j: nat)
    requires j <= |t| && DigitRun(t, j) > 0 && IsAllDigits(t[j..j + DigitRun(t, j)])
    ensures MaddeNumber(t, j) == MaddeTitle(t, t[j..j + DigitRun(t, j)], j + DigitRun(t, j))
  {
  }

  lemma MaddeTitleStep(t: string, no: string, k: nat, title: Option<string>)
    requires no != "" && IsAllDigits(no) && k <= |t| && OptionalTitle(t, k) == Some(title)
    ensures MaddeTitle(t, no, k) == Some(MaddeLine(no, TitleText(title)))
  {
  }

  /** " - x" after position `i` is the separated title `x`. */
  lemma DashTitle(t: string, i: nat, x: string)
    requires i + 3 <= |t| && t[i..] == " - " + x && IsLineText(x)
    ensures OptionalTitle(t, i) == Some(Some(x))
  {
    WsRunExact(t, i, 1);
    assert t[i + 2..] == " " + x;
    TailAfterSpace(t, i + 2, x, 0);
  }

  /** "MADDE n" is matched by the `/i` pattern, numbered n without a title. */
  lemma MaddeBareUpper(t: string, d: string)
    requires d != "" && IsAllDigits(d) && t == "MADDE " + d
    ensures MaddeUpper(t) == Some(MaddeLine(d, None))
  {
    assert t[..5] == "MADDE";
    CiAtExact(t, 0, "MADDE");
    assert t[6..6 + |d|] == d;
    MaddeAfterForm(t, 5, d, None);
  }

  /** "MADDE n - x" is matched by the `/i` pattern, numbered n with title x. */
  lemma MaddeTitledUpper(t: string, d: string, x: string)
    requires d != "" && IsAllDigits(d) && IsLineText(x) && t == "MADDE " + d + " - " + x
    ensures MaddeUpper(t) == Some(MaddeLine(d, Some(x)))
  {
    assert t[..5] == "MADDE";
    CiAtExact(t, 0, "MADDE");
    assert t[6..6 + |d|] == d;
    assert t[6 + |d|..] == " - " + x;
    DashTitle(t, 6 + |d|, x);
    MaddeAfterForm(t, 5, d, Some(x));
    TrimOfTrimmed(x);
  }

  /** "MADDE n" is an article heading numbered n without a title. */
  lemma MaddeBare(d: string)
    requires d != "" && IsAllDigits(d)
    ensures DetectMadde("MADDE " + d) == Some(MaddeLine(d, None))
  {
    DigitsLineText(d);
    TrimmedLine("MADDE ", d);
    MaddeBareUpper("MADDE " + d, d);
  }

  /** "MADDE n - title" is an article heading numbered n with that title. */
  lemma MaddeTitled(d: string, x: string)
    requires d != "" && IsAllDigits(d) && IsLineText(x)
    ensures DetectMadde("MADDE " + d + " - " + x) == Some(MaddeLine(d, Some(x)))
  {
    TrimmedLine("MADDE " + d + " - ", x);
    MaddeTitledUpper("MADDE " + d + " - " + x, d, x);
  }

  /** The case-sensitive "Madde n" pattern can never decide: every line it
      matches was already matched, with the same result, by the `/i`
      "MADDE n" pattern tried before it. */
  lemma MaddeTitleCaseUnreachable(t: string)
    ensures MaddeTitleCase(t).Some? ==> MaddeUpper(t) == MaddeTitleCase(t)
    ensures MaddeOf(t) == if MaddeUpper(t).Some? then MaddeUpper(t) else MaddeNumbered(t)
  {
    if |t| >= 5 && t[..5] == "Madde" {
      assert CiAt(t, 0, "MADDE") by {
        forall k | 0 <= k < 5
          ensures CanonEq(t[k], "MADDE"[k])
        {
          assert t[k] == "Madde"[k];
        }
      }
    }
  }

  /** `(d) x` with a digit string `d` and a one-line text `x` matches the
      numeric paren form and not the two-letter form. */
  lemma ParenNumberForm(t: string, d: string, x: string)
    requires d != "" && IsAllDigits(d) && IsLineText(x) && t == "(" + d + ") " + x
    ensures ParenNumber(t) == Some(Marked(d, x))
    ensures DoubleLetterParen(t).None?
  {
    assert t[0] == '(';
    OpenParenNotLetters(t);
    assert t[1..1 + |d|] == d;
    DigitsAt(t, 1, d);
    DigitRunExact(t, 1, |d|);
    assert t[2 + |d|..] == " " + x;
    TailAfterSpace(t, 2 + |d|, x, 0);
  }

  lemma OpenParenNotLetters(t: string)
    requires |t| > 0 && t[0] == '('
    ensures DoubleLetterParen(t).None?
  {
  }

  /** "(n) text" is fıkra n for every n, n being the value of the digits. */
  lemma FikraParenForm(d: string, x: string)
    requires d != "" && IsAllDigits(d) && IsLineText(x)
    ensures DetectFikra("(" + d + ") " + x) == Some(FikraLine(ParseNat(d), x))
  {
    TrimmedLine("(" + d + ") ", x);
    ParenNumberForm("(" + d + ") " + x, d, x);
    TrimOfTrimmed(x);
  }

  /** A line made of a non-space prefix and a line text is already trimmed. */
  lemma TrimmedLine(pre: string, x: string)
    requires pre != "" && !IsWhitespace(pre[0]) && IsLineText(x)
    ensures Trim(pre + x) == pre + x
  {
    var t := pre + x;
    assert t[0] == pre[0] && t[|t| - 1] == x[|x| - 1];
    TrimOfTrimmed(t);
  }

  /** `n. x` matches the dot form and not the paren form. */
  lemma DotNumberForm(t: string, d: string, x: string)
    requires d != "" && IsAllDigits(d) && IsLineText(x) && t == d + ". " + x
    ensures ParenNumber(t).None?
    ensures DotNumber(t) == Some(Marked(d, x))
  {
    assert t[0..|d|] == d;
    DigitsAt(t, 0, d);
    DigitRunExact(t, 0, |d|);
    assert t[|d| + 1..] == " " + x;
    TailAfterSpace(t, |d| + 1, x, 1);
  }

  /** "n. text" is fıkra n exactly when n is at most 50. */
  lemma FikraDotForm(d: string, x: string)
    requires d != "" && IsAllDigits(d) && IsLineText(x)
    ensures DetectFikra(d + ". " + x) == if ParseNat(d) <= 50 then Some(FikraLine(ParseNat(d), x)) else None
  {
    var t := d + ". " + x;
    TrimmedLine(d + ". ", x);
    DotNumberForm(t, d, x);
    TrimOfTrimmed(x);
  }

  /** "(n) text" is an alt bent, numbered with the digits as written, exactly
      when n is above 10. */
  lemma AltBentNumericForm(d: string, x: string)
    requires d != "" && IsAllDigits(d) && IsLineText(x)
    ensures DetectAltBent("(" + d + ") " + x) == if ParseNat(d) > 10 then Some(BentLine(d, x)) else None
  {
    TrimmedLine("(" + d + ") ", x);
    ParenNumberForm("(" + d + ") " + x, d, x);
    TrimOfTrimmed(x);
  }

  /** The lower-case letters `detectBent` reports. */
  predicate IsBentLower(c: char) {
    IsAsciiLower(c) || IsTurkishLower(c) || c == 'ı'
  }

  lemma LowerBentLetter(c: char)
    requires IsBentLetter(c)
    ensures |LowerChar(c)| == 1 && IsBentLower(LowerChar(c)[0])
    ensures ToLower([c]) == LowerChar(c)
  {
    assert [c][1..] == [];
  }

  /** Whenever `detectAltBent` accepts a line that `detectFikra` does not, it
      did so by the two-letter form: the numeric form never reaches a caller
      that asks for a fıkra first. */
  lemma AltBentNumericShadowed(line: string)
    ensures DetectAltBent(line).Some? && DetectFikra(line).None? ==>
      var b := DetectAltBent(line).value;
      |b.no| == 2 && IsBentLower(b.no[0]) && IsBentLower(b.no[1])
  {
    var t := Trim(line);
    match DoubleLetterParen(t)
    case Some(m) =>
      LowerBentLetter(m.mark[0]);
      LowerBentLetter(m.mark[1]);
      assert m.mark[1..] == [m.mark[1]];
      assert ToLower(m.mark) == LowerChar(m.mark[0]) + ToLower([m.mark[1]]);
    case None =>
  }

  /** `c) x` matches the letter-paren form. */
  lemma LetterParenForm(t: string, c: char, x: string)
    requires IsBentLetter(c) && IsLineText(x) && t == [c] + ") " + x
    ensures LetterParen(t) == Some(Marked([c], x))
  {
    assert t[1] == ')' && t[2] == ' ' && t[3..] == x;
    ParenThenText(t, 1, x);
  }

  /** `c. x` matches the letter-dot form and not the letter-paren form. */
  lemma LetterDotForm(t: string, c: char, x: string)
    requires IsBentLetter(c) && IsLineText(x) && t == [c] + ". " + x
    ensures LetterParen(t).None?
    ensures LetterDot(t) == Some(Marked([c], x))
  {
    WsRunExact(t, 1, 0);
    DotNotParen(t);
    assert t[2..] == " " + x;
    TailAfterSpace(t, 2, x, 1);
  }

  lemma DotNotParen(t: string)
    requires |t| > 1 && t[1] == '.' && WsRun(t, 1) == 0
    ensures LetterParen(t).None?
  {
  }

  /** `cd) x` matches the two-letter paren form. */
  lemma DoubleLetterForm(t: string, c: char, d: char, x: string)
    requires IsBentLetter(c) && IsBentLetter(d) && IsLineText(x) && t == [c, d] + ") " + x
    ensures DoubleLetterParen(t) == Some(Marked([c, d], x))
  {
    assert t[2] == ')' && t[3] == ' ' && t[4..] == x;
    ParenThenText(t, 2, x);
    assert t[..2] == [c, d];
  }

  /** `\s*\)\s*(.+)$` at `i`, on ") x". */
  lemma ParenThenText(t: string, i: nat, x: string)
    requires i + 2 <= |t| && t[i] == ')' && t[i + 1] == ' ' && t[i + 2..] == x && IsLineText(x)
    ensures ParenText(t, i) == Some(x)
  {
    WsRunExact(t, i, 0);
    TailAfterSpace(t, i + 1, x, 0);
  }

  /** "c) text" is bent c, lower-cased, for every letter c of the class. */
  lemma BentParenForm(c: char, x: string)
    requires IsBentLetter(c) && IsLineText(x)
    ensures DetectBent([c] + ") " + x) == Some(BentLine(LowerChar(c), x))
  {
    TrimmedLine([c] + ") ", x);
    LetterParenForm([c] + ") " + x, c, x);
    LowerBentLetter(c);
    TrimOfTrimmed(x);
  }

  /** "c. text" is bent c, lower-cased, for every letter c of the class. */
  lemma BentDotForm(c: char, x: string)
    requires IsBentLetter(c) && IsLineText(x)
    ensures DetectBent([c] + ". " + x) == Some(BentLine(LowerChar(c), x))
  {
    TrimmedLine([c] + ". ", x);
    LetterDotForm([c] + ". " + x, c, x);
    LowerBentLetter(c);
    TrimOfTrimmed(x);
  }

  /** Lower-casing two letters of the class lower-cases each one. */
  lemma LowerTwoLetters(c: char, d: char)
    requires IsBentLetter(d)
    ensures ToLower([c, d]) == LowerChar(c) + LowerChar(d)
  {
    LowerBentLetter(d);
    assert [c, d][1..] == [d];
  }

  /** "cd) text" is alt bent cd, lower-cased. */
  lemma AltBentLettersForm(c: char, d: char, x: string)
    requires IsBentLetter(c) && IsBentLetter(d) && IsLineText(x)
    ensures DetectAltBent([c, d] + ") " + x) == Some(BentLine(LowerChar(c) + LowerChar(d), x))
  {
    TrimmedLine([c, d] + ") ", x);
    DoubleLetterForm([c, d] + ") " + x, c, d, x);
    LowerTwoLetters(c, d);
    TrimOfTrimmed(x);
  }

  /** `extractKanunNo` reports the leftmost "NNNN sayılı" number whenever
      there is one. */
  lemma ExtractKanunNoSayili(text: string, k: nat)
    requires k <= |text| && SayiliAt(text, k).Some?
    requires forall j :: 0 <= j < k ==> SayiliAt(text, j).None?
    ensures ExtractKanunNo(text) == SayiliAt(text, k)
  {
    FirstHitAt((i: nat) => SayiliAt(text, i), 0, |text|, k);
  }

  /** Without any "NNNN sayılı", `extractKanunNo` reports the leftmost
      "Kanun Numarası: n" number. */
  lemma ExtractKanunNoNumarasi(text: string, k: nat)
    requires forall j :: 0 <= j <= |text| ==> SayiliAt(text, j).None?
    requires k <= |text| && NumarasiAt(text, k).Some?
    requires forall j :: 0 <= j < k ==> NumarasiAt(text, j).None?
    ensures ExtractKanunNo(text) == NumarasiAt(text, k)
  {
    FirstHitNone((i: nat) => SayiliAt(text, i), 0, |text|);
    FirstHitAt((i: nat) => NumarasiAt(text, i), 0, |text|, k);
  }

  /** `extractKanunNo` reports null exactly when neither pattern occurs. */
  lemma ExtractKanunNoNone(text: string)
    ensures ExtractKanunNo(text).None? <==>
      (forall j :: 0 <= j <= |text| ==> SayiliAt(text, j).None?) &&
      (forall j :: 0 <= j <= |text| ==> NumarasiAt(text, j).None?)
  {
    var f := (i: nat) => SayiliAt(text, i);
    var g := (i: nat) => NumarasiAt(text, i);
    forall j: nat ensures f(j) == SayiliAt(text, j) && g(j) == NumarasiAt(text, j) { }
    FirstHitLeftmost(f, 0, |text|);
    FirstHitLeftmost(g, 0, |text|);
  }

  /** A law number found by `extractKanunNo` is a non-empty string of digits. */
  lemma ExtractKanunNoDigits(text: string)
    ensures ExtractKanunNo(text).Some? ==> ExtractKanunNo(text).value != "" && IsAllDigits(ExtractKanunNo(text).value)
  {
    var f := (i: nat) => SayiliAt(text, i);
    var g := (i: nat) => NumarasiAt(text, i);
    FirstHitLeftmost(f, 0, |text|);
    FirstHitLeftmost(g, 0, |text|);
    if FirstHit(f, 0, |text|).Some? {
      var k :| FirstHit(f, 0, |text|) == f(k);
      assert f(k) == SayiliAt(text, k);
    } else if FirstHit(g, 0, |text|).Some? {
      var k :| FirstHit(g, 0, |text|) == g(k);
      assert g(k) == NumarasiAt(text, k);
    }
  }

  /** `extractTarih(text, "kabul")` reports the leftmost acceptance date. */
  lemma ExtractKabulLeftmost(text: string, k: nat)
    requires k <= |text| && KabulAt(text, k).Some?
    requires forall j :: 0 <= j < k ==> KabulAt(text, j).None?
    ensures ExtractTarih(text, "kabul") == KabulAt(text, k)
  {
    FirstHitAt((i: nat) => KabulAt(text, i), 0, |text|, k);
  }

  /** `extractTarih(text, "yürürlük")` reports the leftmost effective date. */
  lemma ExtractYururlukLeftmost(text: string, k: nat)
    requires k <= |text| && YururlukAt(text, k).Some?
    requires forall j :: 0 <= j < k ==> YururlukAt(text, j).None?
    ensures ExtractTarih(text, "yürürlük") == YururlukAt(text, k)
  {
    FirstHitAt((i: nat) => YururlukAt(text, i), 0, |text|, k);
  }

  /** Whatever `extractTarih` reports is a date `d.m.yyyy` (either separator,
      one or two digits for day and month), and only the two known types
      report anything. */
  lemma ExtractTarihDate(text: string, kind: string)
    ensures ExtractTarih(text, kind).Some? ==>
      (kind == "kabul" || kind == "yürürlük") && IsDateText(ExtractTarih(text, kind).value)
  {
    var f := (i: nat) => KabulAt(text, i);
    var g := (i: nat) => YururlukAt(text, i);
    if kind == "kabul" {
      FirstHitLeftmost(f, 0, |text|);
      if FirstHit(f, 0, |text|).Some? {
        var k :| FirstHit(f, 0, |text|) == f(k);
        assert f(k) == KabulAt(text, k);
      }
    } else if kind == "yürürlük" {
      FirstHitLeftmost(g, 0, |text|);
      if FirstHit(g, 0, |text|).Some? {
        var k :| FirstHit(g, 0, |text|) == g(k);
        assert g(k) == YururlukAt(text, k);
      }
    }
  }

  /** A known type reports null only when its pattern occurs nowhere. */
  lemma ExtractTarihNone(text: string)
    ensures ExtractTarih(text, "kabul").None? <==> forall j :: 0 <= j <= |text| ==> KabulAt(text, j).None?
    ensures ExtractTarih(text, "yürürlük").None? <==> forall j :: 0 <= j <= |text| ==> YururlukAt(text, j).None?
  {
    var f := (i: nat) => KabulAt(text, i);
    var g := (i: nat) => YururlukAt(text, i);
    forall j: nat ensures f(j) == KabulAt(text, j) && g(j) == YururlukAt(text, j) { }
    FirstHitLeftmost(f, 0, |text|);
    FirstHitLeftmost(g, 0, |text|);
  }

  /** A heading of the full form: it starts with a capital, ends in
      "KANUNU", and whatever number and dates it carries are well formed. */
  predicate IsFullTitleLine(k: KanunLine) {
    |k.baslik| >= 8 && IsCapital(k.baslik[0]) && k.baslik[|k.baslik| - 6..] == "KANUNU"
    && (k.kanunNo.Some? ==> k.kanunNo.value != "" && IsAllDigits(k.kanunNo.value))
    && (k.kabulTarihi.Some? ==> IsDateText(k.kabulTarihi.value))
    && (k.yururlukTarihi.Some? ==> IsDateText(k.yururlukTarihi.value))
  }

  /** A heading of the numbered form: a four-digit number, a trimmed title
      and no dates. */
  predicate IsNumberedTitleLine(k: KanunLine) {
    k.kanunNo.Some? && |k.kanunNo.value| == 4 && IsAllDigits(k.kanunNo.value)
    && IsTrimmed(k.baslik) && k.kabulTarihi.None? && k.yururlukTarihi.None?
  }

  lemma CapitalNotSpace(c: char)
    requires IsCapital(c)
    ensures !IsWhitespace(c)
  {
  }

  /** The full form yields a heading of the full shape. */
  lemma FullTitleShape(t: string)
    requires FullTitle(t).Some?
    ensures KanunBaslikOf(t).Some? && IsFullTitleLine(KanunBaslikOf(t).value)
  {
    FullTitleText(t);
    ExtractKanunNoDigits(t);
    ExtractTarihDate(t, "kabul");
    ExtractTarihDate(t, "yürürlük");
  }

  /** The full-form title is already trimmed, starts with a capital and
      ends in "KANUNU". */
  lemma FullTitleText(t: string)
    requires FullTitle(t).Some?
    ensures var title := FullTitle(t).value;
      Trim(title) == title && |title| >= 8 && IsCapital(title[0]) && title[|title| - 6..] == "KANUNU"
  {
    var title := FullTitle(t).value;
    var m := KanunuBefore(t, 1 + CapitalRun(t, 1)).value;
    assert title == t[..m + 6];
    assert title[0] == t[0] && title[|title| - 1] == 'U';
    CapitalNotSpace(t[0]);
    TrimOfTrimmed(title);
    assert title[|title| - 6..] == t[m..m + 6];
  }

  /** A line of the numbered form: four digits, " sayılı ", a title and
      " Kanunu". */
  function NumberedLine(d: string, x: string): string {
    d + " sayılı " + (x + " Kanunu")
  }

  /** Text without line terminators (what `.` matches). */
  predicate NoLineTerminator(x: string) {
    forall k :: 0 <= k < |x| ==> !IsLineTerminator(x[k])
  }

  /** The lazy title capture that starts at `p` stops right before the final
      " Kanunu", however many words the title has. */
  lemma LazyTitleBeforeKanunu(t: string, p: nat, x: string)
    requires x != "" && IsTrimmed(x) && NoLineTerminator(x)
    requires p + |x| + 7 == |t| && t[p..p + |x|] == x && t[p + |x|..] == " Kanunu"
    ensures LazyTitleEnd(t, p + 1) == Some(p + |x|)
  {
    var end := p + |x|;
    assert t[end] == ' ';
    WsRunExact(t, end, 1);
    assert t[end + 1..end + 7] == "Kanunu";
    CiAtExact(t, end + 1, "Kanunu");
    assert KanunuSuffix(t, end);
    forall k | p <= k < |t| ensures !IsLineTerminator(t[k]) {
      if k < end {
        assert t[k] == x[k - p];
      } else {
        assert t[k] == " Kanunu"[k - end];
      }
    }
    forall j | p + 1 <= j < end ensures !KanunuSuffix(t, j) {
      WsRunSpaces(t, j);
      assert t[end - 1] == x[|x| - 1];
    }
    var r := LazyTitleEnd(t, p + 1);
    assert r.Some?;
  }

  /** The numbered pattern on a line laid out as four digits, a space,
      "sayılı", a space, the title, a space and "Kanunu". */
  lemma NumberedTitleAt(t: string, d: string, x: string)
    requires |d| == 4 && IsAllDigits(d)
    requires x != "" && IsTrimmed(x) && NoLineTerminator(x)
    requires |t| == 12 + |x| + 7 && t[..4] == d && t[4] == ' ' && t[5..11] == "sayılı" && t[11] == ' '
    requires t[12..12 + |x|] == x && t[12 + |x|..] == " Kanunu"
    ensures NumberedTitle(t) == Some(Marked(d, x))
  {
    assert !IsWhitespace(t[5]);
    WsRunExact(t, 4, 1);
    CiAtExact(t, 5, "sayılı");
    assert t[12] == x[0];
    TrimSlice(x);
    WsRunExact(t, 11, 1);
    LazyTitleBeforeKanunu(t, 12, x);
    NumberedTitleOfRuns(t, 12 + |x|);
  }

  /** The numbered pattern, given where each of its parts ends. */
  lemma NumberedTitleOfRuns(t: string, e: nat)
    requires 13 <= e <= |t| && IsAllDigits(t[..4])
    requires WsRun(t, 4) == 1 && CiAt(t, 5, "sayılı") && WsRun(t, 11) == 1
    requires LazyTitleEnd(t, 13) == Some(e)
    ensures NumberedTitle(t) == Some(Marked(t[..4], t[12..e]))
  {
  }

  /** Where each part of `NumberedLine(d, x)` sits. */
  lemma NumberedLineLayout(d: string, x: string)
    requires |d| == 4 && IsAllDigits(d)
    ensures var t := NumberedLine(d, x);
      |t| == 12 + |x| + 7 && t[..4] == d && t[4] == ' ' && t[5..11] == "sayılı" && t[11] == ' ' &&
      t[12..12 + |x|] == x && t[12 + |x|..] == " Kanunu" && IsDigit(t[0]) && t[|t| - 1] == 'u'
  {
    var h := d + " sayılı ";
    var t := NumberedLine(d, x);
    assert t == h + (x + " Kanunu");
    assert t[..12] == h;
    assert t[12..] == x + " Kanunu";
    assert t[0] == d[0];
  }

  /** "NNNN sayılı <title> Kanunu": the law number is the line's own four
      digits and the title is what lies between "sayılı" and the final
      "Kanunu"; such a line has no dates. */
  lemma NumberedTitleOfParts(d: string, x: string)
    requires |d| == 4 && IsAllDigits(d)
    requires x != "" && IsTrimmed(x) && NoLineTerminator(x)
    ensures DetectKanunBaslik(NumberedLine(d, x)) == Some(KanunLine(x, Some(d), None, None))
  {
    var t := NumberedLine(d, x);
    NumberedLineLayout(d, x);
    NumberedTitleAt(t, d, x);
    DetectNumbered(t, d, x);
  }

  /** A trimmed line that does not start with a capital and matches the
      numbered pattern is reported with that pattern's number and title. */
  lemma DetectNumbered(t: string, d: string, x: string)
    requires IsTrimmed(t) && |t| > 0 && IsDigit(t[0]) && IsTrimmed(x)
    requires NumberedTitle(t) == Some(Marked(d, x))
    ensures DetectKanunBaslik(t) == Some(KanunLine(x, Some(d), None, None))
  {
    TrimOfTrimmed(t);
    TrimOfTrimmed(x);
    assert FullTitle(t).None?;
  }

  /** What `detectKanunBaslik` reports has one of its two shapes; the full
      form is the one taken whenever it matches. */
  lemma KanunBaslikShape(line: string)
    ensures DetectKanunBaslik(line).Some? ==>
      IsFullTitleLine(DetectKanunBaslik(line).value) || IsNumberedTitleLine(DetectKanunBaslik(line).value)
    ensures FullTitle(Trim(line)).Some? ==>
      DetectKanunBaslik(line).Some? && IsFullTitleLine(DetectKanunBaslik(line).value)
    ensures FullTitle(Trim(line)).None? && NumberedTitle(Trim(line)).Some? ==>
      DetectKanunBaslik(line).Some? && DetectKanunBaslik(line).value.kanunNo == Some(Trim(line)[..4])
  {
    var t := Trim(line);
    if FullTitle(t).Some? {
      FullTitleShape(t);
    } else if NumberedTitle(t).Some? {
      TrimSlice(NumberedTitle(t).value.text);
    }
  }
}
