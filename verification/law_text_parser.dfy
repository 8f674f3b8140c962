/**
 * The statute-text parser: a statute's plain text becomes a tree of
 * kitap (book), bölüm (chapter), kısım (part), madde (article), fıkra
 * (paragraph), bent (clause) and alt bent (sub-clause).
 *
 * The text is normalised into trimmed lines; the first twenty lines are
 * scanned for the header (title, number, dates); then every line is
 * classified by the recognisers of module LawStructure and either opens a
 * new node or is appended to the innermost open one. Finally empty nodes
 * are filtered out and texts are trimmed.
 *
 * The parser keeps one reference per level to the node that is open. Each
 * open node is always the LAST child of the open node above it (or of the
 * current book / the statute), so the model keeps the tree as a value and
 * one flag per level: an open level is the last element along the
 * right-most path, and "pushing into the current X" becomes replacing the
 * last element of that path.
 */
module LawText {
  import opened Base
  import opened Text
  import opened Scan
  import opened LawStructure

  // ---------------------------------------------------------------------
  // The result tree

  /** `{no, metin}` */
  datatype AltBent = AltBent(no: string, metin: string)

  /** `{no, metin, altBentler}` */
  datatype Bent = Bent(no: string, metin: string, altBentler: seq<AltBent>)

  /** `{no, metin, bentler}`: `metin` is null for a fıkra opened by a bent. */
  datatype Fikra = Fikra(no: nat, metin: Option<string>, bentler: seq<Bent>)

  /** `{no, baslik, metin, fıkralar}` */
  datatype Madde = Madde(no: string, baslik: Option<string>, metin: Option<string>, fikralar: seq<Fikra>)

  /** `{baslik, baslikMetni, maddeler}` */
  datatype Kisim = Kisim(baslik: string, baslikMetni: Option<string>, maddeler: seq<Madde>)

  /** `{baslik, baslikMetni, kisimlar}` */
  datatype Bolum = Bolum(baslik: string, baslikMetni: Option<string>, kisimlar: seq<Kisim>)

  /** `{baslik, baslikMetni, bolumler}` */
  datatype Kitap = Kitap(baslik: string, baslikMetni: Option<string>, bolumler: seq<Bolum>)

  /** The four header fields of a statute. */
  datatype Header = Header(
    baslik: Option<string>,
    kanunNo: Option<string>,
    kabulTarihi: Option<string>,
    yururlukTarihi: Option<string>)

  /** `result.kanun`: the header, the books, and the chapters outside any book. */
  datatype Kanun = Kanun(header: Header, kitaplar: seq<Kitap>, bolumler: seq<Bolum>)

  /** `{kanun, islemTarihi, kaynakDosya}`; the processing time is given by
      the caller. */
  datatype ParseResult = ParseResult(kanun: Kanun, islemTarihi: string, kaynakDosya: Option<string>)

  const EmptyTextError := "Boş metin işlenemez"
  const NoHeader := Header(None, None, None, None)
  const GenelBolum := "GENEL BÖLÜM"
  const GenelKisim := "GENEL KISIM"

  // ---------------------------------------------------------------------
  // Normalisation

  /** `.replace(/\r\n/g, '\n').replace(/\r/g, '\n').split('\n')` */
  function RawLines(text: string): seq<string> {
    Split(ReplaceChar(ReplaceCrLf(text), '\r', "\n"), '\n')
  }

  /** `.map(line => line.trim())` */
  function TrimAll(parts: seq<string>): (r: seq<string>)
    ensures |r| == |parts|
  {
    seq(|parts|, k requires 0 <= k < |parts| => Trim(parts[k]))
  }

  /** The lines the parser walks: the trimmed lines joined with `\n` and
      split again. */
  function Lines(text: string): seq<string> {
    Split(Join(TrimAll(RawLines(text)), '\n'), '\n')
  }

  /** The second split undoes the join: the lines are exactly the trimmed
      pieces, each trimmed and free of carriage returns and line feeds. */
  lemma LinesNormalised(text: string)
    ensures Lines(text) == TrimAll(RawLines(text))
    ensures forall k :: 0 <= k < |Lines(text)| ==>
      IsTrimmed(Lines(text)[k]) && '\r' !in Lines(text)[k] && '\n' !in Lines(text)[k]
  {
    var s := ReplaceChar(ReplaceCrLf(text), '\r', "\n");
    var raw := RawLines(text);
    var lines := TrimAll(raw);
    SplitAvoids(s, '\n', '\r');
    forall k | 0 <= k < |lines|
      ensures IsTrimmed(lines[k]) && '\r' !in lines[k] && '\n' !in lines[k]
    {
      TrimSlice(raw[k]);
      TrimAvoids(raw[k], '\r');
      TrimAvoids(raw[k], '\n');
    }
    SplitJoin(lines, '\n');
  }

  // ---------------------------------------------------------------------
  // Header scan

  /** Greedy `[\d/]*` */
  function DateCharRun(s: string, i: nat): (n: nat)
    requires i <= |s|
    ensures i + n <= |s|
    decreases |s| - i
  {
    if i < |s| && (IsDigit(s[i]) || s[i] == '/') then 1 + DateCharRun(s, i + 1) else 0
  }

  /** Only digits and slashes. */
  predicate IsDateChars(x: string) {
    forall k :: 0 <= k < |x| ==> IsDigit(x[k]) || x[k] == '/'
  }

  lemma {:induction false} DateCharRunChars(s: string, i: nat)
    requires i <= |s|
    ensures IsDateChars(s[i..i + DateCharRun(s, i)])
    decreases |s| - i
  {
    if i < |s| && (IsDigit(s[i]) || s[i] == '/') {
      DateCharRunChars(s, i + 1);
      var n := DateCharRun(s, i);
      assert s[i..i + n] == [s[i]] + s[i + 1..i + n];
    }
  }

  /** `\s*[:]\s*([\d/]+)` at `i` */
  function ColonDate(s: string, i: nat): (r: Option<string>)
    requires i <= |s|
    ensures r.Some? ==> r.value != "" && IsDateChars(r.value)
  {
    var q := i + WsRun(s, i);
    if q < |s| && s[q] == ':' then
      var p := q + 1 + WsRun(s, q + 1);
      var d := DateCharRun(s, p);
      DateCharRunChars(s, p);
      if d > 0 then Some(s[p..p + d]) else None
    else None
  }

  /** `Kabul\s+Tarihi\s*[:]\s*([\d/]+)/i` at `i` */
  function KabulTarihiAt(s: string, i: nat): (r: Option<string>)
    ensures r.Some? ==> r.value != "" && IsDateChars(r.value)
  {
    if CiAt(s, i, "Kabul") then
      var w := WsRun(s, i + 5);
      if w > 0 && CiAt(s, i + 5 + w, "Tarihi") then ColonDate(s, i + 5 + w + 6) else None
    else None
  }

  /** The leftmost "Kanun Numarası: n" of a line. */
  function NumarasiMatch(line: string): Option<string> {
    FirstHit((i: nat) => NumarasiAt(line, i), 0, |line|)
  }

  /** The leftmost "Kabul Tarihi: d" of a line. */
  function KabulMatch(line: string): Option<string> {
    FirstHit((i: nat) => KabulTarihiAt(line, i), 0, |line|)
  }

  /** What the three header recognisers find in one line: a statute
      title, a "Kanun Numarası" number and a "Kabul Tarihi" date. */
  datatype HeaderHits = HeaderHits(title: Option<KanunLine>, numara: Option<string>, kabul: Option<string>)

  function HitsOf(line: string): HeaderHits {
    HeaderHits(DetectKanunBaslik(line), NumarasiMatch(line), KabulMatch(line))
  }

  /** The recognisers' findings for every line. */
  function Hits(lines: seq<string>): (r: seq<HeaderHits>)
    ensures |r| == |lines|
  {
    seq(|lines|, k requires 0 <= k < |lines| => HitsOf(lines[k]))
  }

  /** One line of the header scan: a statute title overwrites all four
      fields; then a still-empty number or acceptance date is filled from
      the "Kanun Numarası" / "Kabul Tarihi" forms. */
  function HeaderLine(h: Header, hits: HeaderHits): Header {
    var h1 :=
      match hits.title
      case Some(k) => Header(Some(k.baslik), k.kanunNo, k.kabulTarihi, k.yururlukTarihi)
      case None => h;
    var h2 := if !Truthy(h1.kanunNo) && hits.numara.Some? then h1.(kanunNo := hits.numara) else h1;
    if !Truthy(h2.kabulTarihi) && hits.kabul.Some? then h2.(kabulTarihi := hits.kabul) else h2
  }

  /** The header after the first `n` lines. */
  function HeaderScan(hits: seq<HeaderHits>, n: nat): Header
    requires n <= |hits|
  {
    if n == 0 then NoHeader else HeaderLine(HeaderScan(hits, n - 1), hits[n - 1])
  }

  /** `Math.min(20, lines.length)` */
  function HeaderSpan<T>(lines: seq<T>): (n: nat)
    ensures n <= |lines| && n <= 20
    ensures n == 20 || n == |lines|
  {
    if |lines| < 20 then |lines| else 20
  }

  // ---------------------------------------------------------------------
  // Walking down the open path

  function Last<T>(s: seq<T>): T
    requires |s| > 0
  {
    s[|s| - 1]
  }

  /** `s` with its last element replaced by `x`. */
  function WithLast<T>(s: seq<T>, x: T): (r: seq<T>)
    requires |s| > 0
    ensures |r| == |s| && Last(r) == x
  {
    s[|s| - 1 := x]
  }

  /** The chapter list new chapters go into: the current (last) book's, or
      the statute's own list when no book has been seen. */
  function Bolumler(k: Kanun): seq<Bolum> {
    if |k.kitaplar| > 0 then Last(k.kitaplar).bolumler else k.bolumler
  }

  function WithBolumler(k: Kanun, bs: seq<Bolum>): (r: Kanun)
    ensures Bolumler(r) == bs && r.header == k.header && |r.kitaplar| == |k.kitaplar|
  {
    if |k.kitaplar| > 0 then k.(kitaplar := WithLast(k.kitaplar, Last(k.kitaplar).(bolumler := bs)))
    else k.(bolumler := bs)
  }

  predicate HasBolum(k: Kanun) {
    |Bolumler(k)| > 0
  }

  /** The parts of the open chapter. */
  function Kisimlar(k: Kanun): seq<Kisim>
    requires HasBolum(k)
  {
    Last(Bolumler(k)).kisimlar
  }

  function WithKisimlar(k: Kanun, ks: seq<Kisim>): (r: Kanun)
    requires HasBolum(k)
    ensures HasBolum(r) && Kisimlar(r) == ks && r.header == k.header
  {
    WithBolumler(k, WithLast(Bolumler(k), Last(Bolumler(k)).(kisimlar := ks)))
  }

  predicate HasKisim(k: Kanun) {
    HasBolum(k) && |Kisimlar(k)| > 0
  }

  /** The articles of the open part. */
  function Maddeler(k: Kanun): seq<Madde>
    requires HasKisim(k)
  {
    Last(Kisimlar(k)).maddeler
  }

  function WithMaddeler(k: Kanun, ms: seq<Madde>): (r: Kanun)
    requires HasKisim(k)
    ensures HasKisim(r) && Maddeler(r) == ms && r.header == k.header
  {
    WithKisimlar(k, WithLast(Kisimlar(k), Last(Kisimlar(k)).(maddeler := ms)))
  }

  predicate HasMadde(k: Kanun) {
    HasKisim(k) && |Maddeler(k)| > 0
  }

  /** The paragraphs of the open article. */
  function Fikralar(k: Kanun): seq<Fikra>
    requires HasMadde(k)
  {
    Last(Maddeler(k)).fikralar
  }

  function WithFikralar(k: Kanun, fs: seq<Fikra>): (r: Kanun)
    requires HasMadde(k)
    ensures HasMadde(r) && Last(Maddeler(r)) == Last(Maddeler(k)).(fikralar := fs) && r.header == k.header
  {
    WithMaddeler(k, WithLast(Maddeler(k), Last(Maddeler(k)).(fikralar := fs)))
  }

  predicate HasFikra(k: Kanun) {
    HasMadde(k) && |Fikralar(k)| > 0
  }

  /** The open article with its last paragraph replaced by `f`. */
  function WithFikra(k: Kanun, f: Fikra): (r: Kanun)
    requires HasFikra(k)
    ensures HasFikra(r) && Fikralar(r) == WithLast(Fikralar(k), f) && r.header == k.header
  {
    WithFikralar(k, WithLast(Fikralar(k), f))
  }

  /** The clauses of the open paragraph. */
  function Bentler(k: Kanun): seq<Bent>
    requires HasFikra(k)
  {
    Last(Fikralar(k)).bentler
  }

  predicate HasBent(k: Kanun) {
    HasFikra(k) && |Bentler(k)| > 0
  }

  /** The open paragraph with its last clause replaced by `b`. */
  function WithBent(k: Kanun, b: Bent): (r: Kanun)
    requires HasBent(k)
    ensures HasBent(r) && Bentler(r) == WithLast(Bentler(k), b) && r.header == k.header
  {
    WithFikra(k, Last(Fikralar(k)).(bentler := WithLast(Bentler(k), b)))
  }

  // ---------------------------------------------------------------------
  // The state machine

  /** Which of `currentBolum … currentBent` are non-null. `currentKitap` is
      non-null exactly when a book has been seen, so it needs no flag. */
  datatype Open = Open(bolum: bool, kisim: bool, madde: bool, fikra: bool, bent: bool)

  const Closed := Open(false, false, false, false, false)

  datatype State = State(kanun: Kanun, open: Open)

  /** The context invariant. Each open level has a node to point at, and the
      levels nest. While an article is open, `currentFikra` is null exactly
      when the article has no paragraph (otherwise it is the last one); this
      is what makes the unguarded paragraph accesses safe. */
  predicate Valid(s: State) {
    var k := s.kanun;
    (s.open.bolum ==> HasBolum(k))
    && (s.open.kisim ==> s.open.bolum && HasKisim(k))
    && (s.open.madde ==> s.open.kisim && HasMadde(k) && (s.open.fikra <==> HasFikra(k)))
    && (s.open.fikra ==> s.open.madde)
    && (s.open.bent ==> s.open.fikra && HasBent(k))
  }

  /** `(m || '') + (m ? ' ' : '') + line` */
  function Appended(m: Option<string>, line: string): (r: string)
    ensures Truthy(m) ==> r == m.value + " " + line
    ensures !Truthy(m) ==> r == line
  {
    OrEmpty(m) + (if Truthy(m) then " " else "") + line
  }

  /** A book heading: a new book, and every lower level closed. */
  function OnKitap(s: State, h: HeadingLine): (r: State)
    requires Valid(s)
    ensures Valid(r)
  {
    State(s.kanun.(kitaplar := s.kanun.kitaplar + [Kitap(h.baslik, h.baslikMetni, [])]), Closed)
  }

  /** A chapter heading: a new chapter in the current book or at top level. */
  function OnBolum(s: State, h: HeadingLine): (r: State)
    requires Valid(s)
    ensures Valid(r)
  {
    var k := s.kanun;
    State(WithBolumler(k, Bolumler(k) + [Bolum(h.baslik, h.baslikMetni, [])]), Closed.(bolum := true))
  }

  /** Opens a default 'GENEL BÖLÜM' chapter when none is open. */
  function EnsureBolum(s: State): (r: State)
    requires Valid(s)
    ensures Valid(r) && r.open.bolum && r.open.kisim == s.open.kisim
  {
    if s.open.bolum then s
    else
      var k := s.kanun;
      State(WithBolumler(k, Bolumler(k) + [Bolum(GenelBolum, None, [])]), Closed.(bolum := true))
  }

  /** Opens a default 'GENEL KISIM' part (inside a default chapter if
      needed) when none is open. */
  function EnsureKisim(s: State): (r: State)
    requires Valid(s)
    ensures Valid(r) && r.open.kisim
  {
    if s.open.kisim then s
    else
      var b := EnsureBolum(s);
      var k := b.kanun;
      State(WithKisimlar(k, Kisimlar(k) + [Kisim(GenelKisim, None, [])]), Closed.(bolum := true, kisim := true))
  }

  /** A part heading: a new part in the open (or a default) chapter. */
  function OnKisim(s: State, h: HeadingLine): (r: State)
    requires Valid(s)
    ensures Valid(r)
  {
    var b := EnsureBolum(s);
    var k := b.kanun;
    State(WithKisimlar(k, Kisimlar(k) + [Kisim(h.baslik, h.baslikMetni, [])]), Closed.(bolum := true, kisim := true))
  }

  /** The article node for a recognised article line: its title, when
      there is one, is also its text. */
  function NewMadde(m: MaddeLine): Madde {
    Madde(m.no, m.baslik, if Truthy(m.baslik) then m.baslik else None, [])
  }

  /** An article line: a new article in the open (or a default) part. */
  function OnMadde(s: State, m: MaddeLine): (r: State)
    requires Valid(s)
    ensures Valid(r)
  {
    PushMadde(EnsureKisim(s), NewMadde(m))
  }

  /** A new article without paragraphs at the end of the open part; it
      becomes the open article. */
  function PushMadde(s: State, x: Madde): (r: State)
    requires Valid(s) && s.open.kisim && x.fikralar == []
    ensures Valid(r)
  {
    var k := s.kanun;
    State(WithMaddeler(k, Maddeler(k) + [x]), Open(true, true, true, false, false))
  }

  /** A paragraph line inside an article: a new paragraph. */
  function OnFikra(s: State, f: FikraLine): (r: State)
    requires Valid(s) && s.open.madde
    ensures Valid(r)
  {
    var k := s.kanun;
    State(WithFikralar(k, Fikralar(k) + [Fikra(f.no, Some(f.metin), [])]), s.open.(fikra := true, bent := false))
  }

  /** A clause line inside an article: a new clause in the open paragraph,
      or in a new paragraph 1 when the article has none. */
  function OnBent(s: State, b: BentLine): (r: State)
    requires Valid(s) && s.open.madde
    ensures Valid(r)
  {
    var k := s.kanun;
    var bent := Bent(b.no, b.metin, []);
    if s.open.fikra then
      State(WithFikra(k, Last(Fikralar(k)).(bentler := Bentler(k) + [bent])), s.open.(bent := true))
    else if |Fikralar(k)| == 0 then
      var k1 := WithFikralar(k, Fikralar(k) + [Fikra(1, None, [])]);
      State(WithFikra(k1, Last(Fikralar(k1)).(bentler := Bentler(k1) + [bent])), s.open.(fikra := true, bent := true))
    else
      // no paragraph open although the article has one: Valid rules it out
      assert false; s
  }

  /** A sub-clause line while a clause is open: a new sub-clause. */
  function OnAltBent(s: State, a: BentLine): (r: State)
    requires Valid(s) && s.open.bent
    ensures Valid(r)
  {
    var k := s.kanun;
    var bent := Last(Bentler(k));
    State(WithBent(k, bent.(altBentler := bent.altBentler + [AltBent(a.no, a.metin)])), s.open)
  }

  /** Any other line inside an article is appended to the innermost open
      node: the last sub-clause or the clause, else the paragraph, else it
      becomes the text of a new paragraph 1. */
  function OnText(s: State, line: string): (r: State)
    requires Valid(s) && s.open.madde
    ensures Valid(r)
  {
    var k := s.kanun;
    if s.open.bent then
      var bent := Last(Bentler(k));
      if |bent.altBentler| > 0 then
        var alt := Last(bent.altBentler);
        var alt' := alt.(metin := Appended(Some(alt.metin), line));
        State(WithBent(k, bent.(altBentler := WithLast(bent.altBentler, alt'))), s.open)
      else
        State(WithBent(k, bent.(metin := Appended(Some(bent.metin), line))), s.open)
    else if s.open.fikra then
      var f := Last(Fikralar(k));
      State(WithFikra(k, f.(metin := Some(Appended(f.metin, line)))), s.open)
    else if |Fikralar(k)| == 0 then
      State(WithFikralar(k, Fikralar(k) + [Fikra(1, Some(line), [])]), s.open.(fikra := true))
    else
      // no paragraph open although the article has one: Valid rules it out
      assert false; s
  }

  /** A state whose context satisfies the invariant. */
  type Context = s: State | Valid(s) witness State(Kanun(NoHeader, [], []), Closed)

  /** What the recognisers make of one line, tried in the parser's order:
      blank, book, chapter, part, article; any other line carries what the
      paragraph, clause and sub-clause recognisers found in it (which of
      them counts depends on the context). */
  datatype LineKind =
    | BlankLine
    | KitapHeading(h: HeadingLine)
    | BolumHeading(h: HeadingLine)
    | KisimHeading(h: HeadingLine)
    | MaddeHeading(m: MaddeLine)
    | BodyLine(fikra: Option<FikraLine>, bent: Option<BentLine>, altBent: Option<BentLine>, text: string)

  function Classify(line: string): LineKind {
    if Trim(line) == "" then BlankLine
    else if DetectKitap(line).Some? then KitapHeading(DetectKitap(line).value)
    else if DetectBolum(line).Some? then BolumHeading(DetectBolum(line).value)
    else if DetectKisim(line).Some? then KisimHeading(DetectKisim(line).value)
    else if DetectMadde(line).Some? then MaddeHeading(DetectMadde(line).value)
    else BodyLine(DetectFikra(line), DetectBent(line), DetectAltBent(line), line)
  }

  /** One iteration of the line loop on a classified line. Headings open
      their node; inside an article come paragraphs, clauses, sub-clauses
      (only while a clause is open) and text; blank lines, and outside an
      article every other line, leave the state as it is. The result keeps
      the invariant. */
  function Step(s: Context, kind: LineKind): Context {
    match kind
    case BlankLine => s
    case KitapHeading(h) => OnKitap(s, h)
    case BolumHeading(h) => OnBolum(s, h)
    case KisimHeading(h) => OnKisim(s, h)
    case MaddeHeading(m) => OnMadde(s, m)
    case BodyLine(fikra, bent, altBent, line) =>
      if !s.open.madde then s
      else if fikra.Some? then OnFikra(s, fikra.value)
      else if bent.Some? then OnBent(s, bent.value)
      else if s.open.bent && altBent.Some? then OnAltBent(s, altBent.value)
      else OnText(s, line)
  }

  /** Every line classified. */
  function Kinds(lines: seq<string>): (r: seq<LineKind>)
    ensures |r| == |lines|
  {
    seq(|lines|, k requires 0 <= k < |lines| => Classify(lines[k]))
  }

  /** The state after the first `n` lines. */
  function Walk(s: Context, kinds: seq<LineKind>, n: nat): Context
    requires n <= |kinds|
  {
    if n == 0 then s else Step(Walk(s, kinds, n - 1), kinds[n - 1])
  }

  /** The state before the line loop: the header, no nodes, nothing open. */
  function Start(h: Header): Context {
    State(Kanun(h, [], []), Closed)
  }

  // ---------------------------------------------------------------------
  // Cleanup

  /** `s.filter(x => keep(x) && (x is cleaned))`: the kept elements, each
      cleaned, in their original order. */
  function FilterMap<T>(s: seq<T>, keep: T -> bool, clean: T -> T): (r: seq<T>)
    ensures |r| <= |s|
  {
    if s == [] then []
    else (if keep(s[0]) then [clean(s[0])] else []) + FilterMap(s[1..], keep, clean)
  }

  /** `if (x) x = x.trim()` */
  function TrimText(o: Option<string>): Option<string> {
    if Truthy(o) then Some(Trim(o.value)) else o
  }

  /** A sub-clause survives when its text is not blank. */
  predicate KeepAltBent(a: AltBent) {
    a.metin != "" && Trim(a.metin) != ""
  }

  /** A clause survives unless it has no text and no sub-clause. */
  predicate KeepBent(b: Bent) {
    b.metin != "" || |b.altBentler| > 0
  }

  function CleanBent(b: Bent): Bent {
    b.(altBentler := FilterMap(b.altBentler, KeepAltBent, (a: AltBent) => a),
       metin := if b.metin != "" then Trim(b.metin) else b.metin)
  }

  /** A paragraph survives unless it has no text and no clause. */
  predicate KeepFikra(f: Fikra) {
    Truthy(f.metin) || |f.bentler| > 0
  }

  function CleanFikra(f: Fikra): Fikra {
    f.(bentler := FilterMap(f.bentler, KeepBent, CleanBent), metin := TrimText(f.metin))
  }

  /** An article survives unless it has no text and no paragraph; this is
      decided before its paragraphs are filtered. */
  predicate KeepMadde(m: Madde) {
    Truthy(m.metin) || |m.fikralar| > 0
  }

  function CleanMadde(m: Madde): Madde {
    m.(fikralar := FilterMap(m.fikralar, KeepFikra, CleanFikra), metin := TrimText(m.metin))
  }

  function CleanKisim(k: Kisim): Kisim {
    k.(maddeler := FilterMap(k.maddeler, KeepMadde, CleanMadde))
  }

  function CleanBolum(b: Bolum): Bolum {
    b.(kisimlar := seq(|b.kisimlar|, i requires 0 <= i < |b.kisimlar| => CleanKisim(b.kisimlar[i])))
  }

  /** `cleanupBolumler` */
  function CleanBolumler(bs: seq<Bolum>): (r: seq<Bolum>)
    ensures |r| == |bs|
  {
    seq(|bs|, i requires 0 <= i < |bs| => CleanBolum(bs[i]))
  }

  /** `cleanupStructure`: the chapters of every book and the top-level
      chapters are cleaned. */
  function CleanKanun(k: Kanun): (r: Kanun)
    ensures r.header == k.header && |r.kitaplar| == |k.kitaplar| && |r.bolumler| == |k.bolumler|
  {
    k.(kitaplar := seq(|k.kitaplar|, i requires 0 <= i < |k.kitaplar| =>
                         k.kitaplar[i].(bolumler := CleanBolumler(k.kitaplar[i].bolumler))),
       bolumler := CleanBolumler(k.bolumler))
  }

  // ---------------------------------------------------------------------
  // parse

  /** `sourceFileName || null` */
  function SourceName(src: Option<string>): Option<string> {
    if Truthy(src) then src else None
  }

  /** What `parse(text, sourceFileName)` returns or throws. */
  function ParseSpec(text: string, src: Option<string>, now: string): Result<ParseResult> {
    if Trim(text) == "" then Err(EmptyTextError)
    else
      var lines := Lines(text);
      var s := Walk(Start(HeaderScan(Hits(lines), HeaderSpan(lines))), Kinds(lines), |lines|);
      Ok(ParseResult(CleanKanun(s.kanun), now, SourceName(src)))
  }

  /** The header loop: the first twenty lines (or all, when fewer). */
  method ScanHeader(hits: seq<HeaderHits>) returns (header: Header)
    ensures header == HeaderScan(hits, HeaderSpan(hits))
  {
    header := NoHeader;
    var i := 0;
    while i < HeaderSpan(hits)
      invariant i <= HeaderSpan(hits)
      invariant header == HeaderScan(hits, i)
    {
      header := HeaderLine(header, hits[i]);
      i := i + 1;
    }
  }

  /** The line loop, from the header and an empty tree. */
  method WalkLines(header: Header, kinds: seq<LineKind>) returns (state: Context)
    ensures state == Walk(Start(header), kinds, |kinds|)
  {
    state := Start(header);
    var i := 0;
    while i < |kinds|
      invariant i <= |kinds|
      invariant state == Walk(Start(header), kinds, i)
    {
      state := Step(state, kinds[i]);
      i := i + 1;
    }
  }

  /** `parse`: the header loop, the line loop, then cleanup. */
  method Parse(text: string, src: Option<string>, now: string) returns (r: Result<ParseResult>)
    ensures r == ParseSpec(text, src, now)
  {
    if Trim(text) == "" {
      return Err(EmptyTextError);
    }
    var lines := Lines(text);
    var header := ScanHeader(Hits(lines));
    var state := WalkLines(header, Kinds(lines));
    r := Ok(ParseResult(CleanKanun(state.kanun), now, SourceName(src)));
  }

  // ---------------------------------------------------------------------
  // Properties of parse

  /** `parse` throws exactly for a text of whitespace only; otherwise the
      result carries the given processing time and the source name, or null
      for a missing or empty one. */
  lemma ParseRejectsBlank(text: string, src: Option<string>, now: string)
    ensures ParseSpec(text, src, now).Err? <==> IsAllWhitespace(text)
    ensures ParseSpec(text, src, now).Err? ==> ParseSpec(text, src, now).message == EmptyTextError
    ensures ParseSpec(text, src, now).Ok? ==>
      ParseSpec(text, src, now).value.islemTarihi == now
      && ParseSpec(text, src, now).value.kaynakDosya == (if src.Some? && src.value != "" then src else None)
  {
    TrimEmptyIff(text);
  }

  /** Exactly the lines of whitespace only are skipped as blank. */
  lemma BlankLines(line: string)
    ensures Classify(line) == BlankLine <==> IsAllWhitespace(line)
  {
    TrimEmptyIff(line);
  }

  /** The header depends on the findings in the first `n` lines only. */
  lemma {:induction false} HeaderScanAgree(a: seq<HeaderHits>, b: seq<HeaderHits>, n: nat)
    requires n <= |a| && n <= |b|
    requires forall j :: 0 <= j < n ==> a[j] == b[j]
    ensures HeaderScan(a, n) == HeaderScan(b, n)
  {
    if n > 0 {
      HeaderScanAgree(a, b, n - 1);
    }
  }

  /** No line of the main loop changes the header. */
  lemma StepKeepsHeader(s: Context, kind: LineKind)
    ensures Step(s, kind).kanun.header == s.kanun.header
  {
    match kind
    case BlankLine =>
    case KitapHeading(h) =>
    case BolumHeading(h) =>
    case KisimHeading(h) =>
      assert EnsureBolum(s).kanun.header == s.kanun.header;
    case MaddeHeading(m) =>
      assert EnsureBolum(s).kanun.header == s.kanun.header;
      assert EnsureKisim(s).kanun.header == s.kanun.header;
    case BodyLine(fikra, bent, altBent, line) =>
  }

  lemma {:induction false} WalkKeepsHeader(s: Context, kinds: seq<LineKind>, n: nat)
    requires n <= |kinds|
    ensures Walk(s, kinds, n).kanun.header == s.kanun.header
  {
    if n > 0 {
      WalkKeepsHeader(s, kinds, n - 1);
      StepKeepsHeader(Walk(s, kinds, n - 1), kinds[n - 1]);
    }
  }

  /** The statute's header fields are those found in the first twenty
      lines; nothing later changes them. */
  lemma ParseHeaderFromFirstLines(text: string, src: Option<string>, now: string)
    requires ParseSpec(text, src, now).Ok?
    ensures var lines := Lines(text);
      ParseSpec(text, src, now).value.kanun.header == HeaderScan(Hits(lines[..HeaderSpan(lines)]), HeaderSpan(lines))
  {
    var lines := Lines(text);
    var n := HeaderSpan(lines);
    var h := HeaderScan(Hits(lines), n);
    WalkKeepsHeader(Start(h), Kinds(lines), |lines|);
    HeaderScanAgree(Hits(lines), Hits(lines[..n]), n);
  }

  /** A number is a non-empty string of digits; an acceptance date is
      non-empty and either a `d.m.yyyy` date from a title line or a run of
      digits and slashes from a "Kabul Tarihi" line; an effective date only
      comes from a title line. */
  predicate WellFormedHeader(h: Header) {
    (h.kanunNo.Some? ==> h.kanunNo.value != "" && IsAllDigits(h.kanunNo.value))
    && (h.kabulTarihi.Some? ==>
          h.kabulTarihi.value != "" && (IsDateText(h.kabulTarihi.value) || IsDateChars(h.kabulTarihi.value)))
    && (h.yururlukTarihi.Some? ==> IsDateText(h.yururlukTarihi.value))
  }

  /** The shapes the recognisers guarantee for one line's findings. */
  predicate WellFormedHits(x: HeaderHits) {
    (x.title.Some? ==> IsFullTitleLine(x.title.value) || IsNumberedTitleLine(x.title.value))
    && (x.numara.Some? ==> x.numara.value != "" && IsAllDigits(x.numara.value))
    && (x.kabul.Some? ==> x.kabul.value != "" && IsDateChars(x.kabul.value))
  }

  lemma HitsWellFormed(line: string)
    ensures WellFormedHits(HitsOf(line))
  {
    KanunBaslikShape(line);
    var f := (i: nat) => NumarasiAt(line, i);
    var g := (i: nat) => KabulTarihiAt(line, i);
    FirstHitLeftmost(f, 0, |line|);
    FirstHitLeftmost(g, 0, |line|);
    if NumarasiMatch(line).Some? {
      var k :| NumarasiMatch(line) == f(k);
      assert f(k) == NumarasiAt(line, k);
    }
    if KabulMatch(line).Some? {
      var k :| KabulMatch(line) == g(k);
      assert g(k) == KabulTarihiAt(line, k);
    }
  }

  lemma DateTextNonEmpty(d: string)
    requires IsDateText(d)
    ensures d != ""
  {
  }

  lemma HeaderLineWellFormed(h: Header, x: HeaderHits)
    requires WellFormedHeader(h) && WellFormedHits(x)
    ensures WellFormedHeader(HeaderLine(h, x))
  {
    if x.title.Some? && x.title.value.kabulTarihi.Some? {
      DateTextNonEmpty(x.title.value.kabulTarihi.value);
    }
  }

  lemma {:induction false} HeaderScanWellFormed(hits: seq<HeaderHits>, n: nat)
    requires n <= |hits|
    requires forall j :: 0 <= j < n ==> WellFormedHits(hits[j])
    ensures WellFormedHeader(HeaderScan(hits, n))
  {
    if n > 0 {
      HeaderScanWellFormed(hits, n - 1);
      HeaderLineWellFormed(HeaderScan(hits, n - 1), hits[n - 1]);
    }
  }

  /** Whatever header `parse` reports is well formed. */
  lemma ParseHeaderWellFormed(text: string, src: Option<string>, now: string)
    requires ParseSpec(text, src, now).Ok?
    ensures WellFormedHeader(ParseSpec(text, src, now).value.kanun.header)
  {
    var lines := Lines(text);
    var hits := Hits(lines);
    forall j | 0 <= j < |hits|
      ensures WellFormedHits(hits[j])
    {
      HitsWellFormed(lines[j]);
    }
    HeaderScanWellFormed(hits, HeaderSpan(lines));
    WalkKeepsHeader(Start(HeaderScan(hits, HeaderSpan(lines))), Kinds(lines), |lines|);
  }

  /** Between statute title lines the header only fills in: the title and
      the effective date stay, and a number or acceptance date once found
      is kept. */
  lemma {:induction false} HeaderFillsOnly(hits: seq<HeaderHits>, i: nat, n: nat)
    requires i <= n <= |hits|
    requires forall j :: i <= j < n ==> hits[j].title.None?
    ensures HeaderScan(hits, n).baslik == HeaderScan(hits, i).baslik
    ensures HeaderScan(hits, n).yururlukTarihi == HeaderScan(hits, i).yururlukTarihi
    ensures Truthy(HeaderScan(hits, i).kanunNo) ==> HeaderScan(hits, n).kanunNo == HeaderScan(hits, i).kanunNo
    ensures Truthy(HeaderScan(hits, i).kabulTarihi) ==>
      HeaderScan(hits, n).kabulTarihi == HeaderScan(hits, i).kabulTarihi
  {
    if i < n {
      HeaderFillsOnly(hits, i, n - 1);
    }
  }

  /** A statute title line overwrites the whole header: what it yields does
      not depend on the lines before it, and the title is the heading's. */
  lemma TitleLineResets(h1: Header, h2: Header, x: HeaderHits)
    requires x.title.Some?
    ensures HeaderLine(h1, x) == HeaderLine(h2, x)
    ensures HeaderLine(h1, x).baslik == Some(x.title.value.baslik)
    ensures HeaderLine(h1, x).yururlukTarihi == x.title.value.yururlukTarihi
  {
  }

  // ---------------------------------------------------------------------
  // Properties of the line loop

  /** A chapter heading adds a chapter at the end of the current book's
      list, or of the statute's own list when no book has been seen; no
      other list changes, and only the chapter is open. */
  lemma BolumPlacement(s: Context, h: HeadingLine)
    ensures var r := Step(s, BolumHeading(h));
      Bolumler(r.kanun) == Bolumler(s.kanun) + [Bolum(h.baslik, h.baslikMetni, [])]
      && |r.kanun.kitaplar| == |s.kanun.kitaplar|
      && (|s.kanun.kitaplar| > 0 ==>
            r.kanun.bolumler == s.kanun.bolumler
            && r.kanun.kitaplar[..|s.kanun.kitaplar| - 1] == s.kanun.kitaplar[..|s.kanun.kitaplar| - 1])
      && r.open == Open(true, false, false, false, false)
  {
  }

  /** An article line outside any part first opens a default part 'GENEL
      KISIM' (inside a default chapter 'GENEL BÖLÜM' when no chapter is
      open); inside an open part it is appended to that part. Either way the
      new article is open and has no paragraph open. */
  lemma MaddePlacement(s: Context, m: MaddeLine)
    ensures var r := Step(s, MaddeHeading(m));
      Maddeler(r.kanun) == (if s.open.kisim then Maddeler(s.kanun) else []) + [NewMadde(m)]
      && (!s.open.kisim ==> Last(Kisimlar(r.kanun)) == Kisim(GenelKisim, None, [NewMadde(m)]))
      && (!s.open.bolum ==> Last(Bolumler(r.kanun)) == Bolum(GenelBolum, None, [Kisim(GenelKisim, None, [NewMadde(m)])]))
      && r.open == Open(true, true, true, false, false)
  {
  }

  /** A book heading appends a new book and closes every lower level. */
  lemma KitapResets(s: Context, h: HeadingLine)
    ensures var r := Step(s, KitapHeading(h));
      r.kanun.kitaplar == s.kanun.kitaplar + [Kitap(h.baslik, h.baslikMetni, [])]
      && r.kanun.bolumler == s.kanun.bolumler && r.open == Closed
  {
  }

  /** A part heading goes into the open chapter, or into a default chapter
      'GENEL BÖLÜM' when none is open. */
  lemma KisimPlacement(s: Context, h: HeadingLine)
    ensures var r := Step(s, KisimHeading(h));
      Kisimlar(r.kanun) == (if s.open.bolum then Kisimlar(s.kanun) else []) + [Kisim(h.baslik, h.baslikMetni, [])]
      && (!s.open.bolum ==> Last(Bolumler(r.kanun)).baslik == GenelBolum)
      && r.open == Open(true, true, false, false, false)
  {
  }

  /** Outside an article, a line that is no heading changes nothing. */
  lemma BodyOutsideArticle(s: Context, fikra: Option<FikraLine>, bent: Option<BentLine>, alt: Option<BentLine>, line: string)
    requires !s.open.madde
    ensures Step(s, BodyLine(fikra, bent, alt, line)) == s
  {
  }

  /** `a + ' ' + b`, or just `b` when `a` is empty. */
  function JoinedText(a: string, b: string): string {
    if a == "" then b else a + " " + b
  }

  /** A plain line inside an article goes to the innermost open node: the
      last sub-clause of the open clause, else the clause, else the open
      paragraph, joined with one space; with no paragraph yet it becomes the
      text of a new paragraph 1. Which levels are open stays the same,
      except that the new paragraph is open. */
  lemma ContinuationAppends(s: Context, alt: Option<BentLine>, line: string)
    requires s.open.madde && !(s.open.bent && alt.Some?)
    ensures var r := Step(s, BodyLine(None, None, alt, line));
      var k := s.kanun;
      var k' := r.kanun;
      r.open == s.open.(fikra := true)
      && (s.open.bent && |Last(Bentler(k)).altBentler| > 0 ==>
            Last(Last(Bentler(k')).altBentler).metin == JoinedText(Last(Last(Bentler(k)).altBentler).metin, line))
      && (s.open.bent && |Last(Bentler(k)).altBentler| == 0 ==>
            Last(Bentler(k')).metin == JoinedText(Last(Bentler(k)).metin, line))
      && (!s.open.bent && s.open.fikra ==>
            Last(Fikralar(k')).metin == Some(JoinedText(OrEmpty(Last(Fikralar(k)).metin), line)))
      && (!s.open.fikra ==> Fikralar(k') == [Fikra(1, Some(line), [])])
  {
  }

  /** A paragraph line inside an article appends a new paragraph to that
      article, whatever else the line looks like; the earlier articles of
      the part are untouched and no clause is open afterwards. */
  lemma FikraPlacement(s: Context, f: FikraLine, b: Option<BentLine>, alt: Option<BentLine>, line: string)
    requires s.open.madde
    ensures var r := Step(s, BodyLine(Some(f), b, alt, line));
      var n := |Maddeler(s.kanun)|;
      Fikralar(r.kanun) == Fikralar(s.kanun) + [Fikra(f.no, Some(f.metin), [])]
      && |Maddeler(r.kanun)| == n && Maddeler(r.kanun)[..n - 1] == Maddeler(s.kanun)[..n - 1]
      && Last(Maddeler(r.kanun)).(fikralar := []) == Last(Maddeler(s.kanun)).(fikralar := [])
      && r.open == s.open.(fikra := true, bent := false)
  {
  }

  /** A clause line inside an article goes into the open paragraph; when
      the article has no paragraph yet it first gets a paragraph 1 without
      text. The new clause is open afterwards. */
  lemma BentPlacement(s: Context, b: BentLine, alt: Option<BentLine>, line: string)
    requires s.open.madde
    ensures var r := Step(s, BodyLine(None, Some(b), alt, line));
      Bentler(r.kanun) == (if s.open.fikra then Bentler(s.kanun) else []) + [Bent(b.no, b.metin, [])]
      && (s.open.fikra ==>
            |Fikralar(r.kanun)| == |Fikralar(s.kanun)|
            && Fikralar(r.kanun)[..|Fikralar(s.kanun)| - 1] == Fikralar(s.kanun)[..|Fikralar(s.kanun)| - 1])
      && (!s.open.fikra ==> Fikralar(r.kanun) == [Fikra(1, None, [Bent(b.no, b.metin, [])])])
      && r.open == s.open.(fikra := true, bent := true)
  {
    if !s.open.fikra {
      var k1 := WithFikralar(s.kanun, Fikralar(s.kanun) + [Fikra(1, None, [])]);
      var bent := Bent(b.no, b.metin, []);
      assert Fikralar(s.kanun) == [];
      assert Fikralar(k1) == [Fikra(1, None, [])];
      assert Bentler(k1) + [bent] == [bent];
      var k2 := WithFikra(k1, Fikra(1, None, [bent]));
      assert Step(s, BodyLine(None, Some(b), alt, line)).kanun == k2;
      assert Fikralar(k2) == [Fikra(1, None, [bent])];
    }
  }

  /** A sub-clause line while a clause is open is appended to that clause;
      the clause keeps its number and text, and what is open stays open. */
  lemma AltBentPlacement(s: Context, a: BentLine, line: string)
    requires s.open.bent
    ensures var r := Step(s, BodyLine(None, None, Some(a), line));
      var n := |Bentler(s.kanun)|;
      Last(Bentler(r.kanun)).altBentler == Last(Bentler(s.kanun)).altBentler + [AltBent(a.no, a.metin)]
      && Last(Bentler(r.kanun)).(altBentler := []) == Last(Bentler(s.kanun)).(altBentler := [])
      && |Bentler(r.kanun)| == n && Bentler(r.kanun)[..n - 1] == Bentler(s.kanun)[..n - 1]
      && r.open == s.open
  {
  }

  // ---------------------------------------------------------------------
  // Properties of cleanup

  /** Filtering works element by element, so it keeps the order. */
  lemma {:induction false} FilterMapAppend<T>(a: seq<T>, b: seq<T>, keep: T -> bool, clean: T -> T)
    ensures FilterMap(a + b, keep, clean) == FilterMap(a, keep, clean) + FilterMap(b, keep, clean)
    decreases |a|
  {
    if a == [] {
      assert a + b == b;
    } else {
      var head := if keep(a[0]) then [clean(a[0])] else [];
      assert (a + b)[0] == a[0];
      assert (a + b)[1..] == a[1..] + b;
      assert FilterMap(a + b, keep, clean) == head + FilterMap(a[1..] + b, keep, clean);
      FilterMapAppend(a[1..], b, keep, clean);
      assert FilterMap(a, keep, clean) == head + FilterMap(a[1..], keep, clean);
    }
  }

  /** What survives is exactly the cleaned kept elements. */
  lemma {:induction false} FilterMapMembers<T>(s: seq<T>, keep: T -> bool, clean: T -> T)
    ensures forall x :: x in FilterMap(s, keep, clean) <==> exists y :: y in s && keep(y) && x == clean(y)
    decreases |s|
  {
    if s != [] {
      FilterMapMembers(s[1..], keep, clean);
      assert s == [s[0]] + s[1..];
      forall y | y in s
        ensures y == s[0] || y in s[1..]
      {
      }
    }
  }

  lemma TrimTrimmed(x: string)
    ensures IsTrimmed(Trim(x))
  {
    TrimSlice(x);
  }

  /** After cleanup a clause's text is trimmed and all its sub-clauses have
      non-blank text. */
  predicate TidyBent(b: Bent) {
    IsTrimmed(b.metin) && forall a :: a in b.altBentler ==> KeepAltBent(a)
  }

  /** After cleanup a paragraph's text is trimmed and so are its clauses. */
  predicate TidyFikra(f: Fikra) {
    (f.metin.Some? ==> IsTrimmed(f.metin.value)) && forall b :: b in f.bentler ==> TidyBent(b)
  }

  /** After cleanup an article's text is trimmed and so are its paragraphs. */
  predicate TidyMadde(m: Madde) {
    (m.metin.Some? ==> IsTrimmed(m.metin.value)) && forall f :: f in m.fikralar ==> TidyFikra(f)
  }

  predicate TidyBolumler(bs: seq<Bolum>) {
    forall b, k, m :: b in bs && k in b.kisimlar && m in k.maddeler ==> TidyMadde(m)
  }

  lemma CleanBentTidy(b: Bent)
    ensures TidyBent(CleanBent(b))
    ensures forall a :: a in CleanBent(b).altBentler <==> a in b.altBentler && KeepAltBent(a)
  {
    FilterMapMembers(b.altBentler, KeepAltBent, (a: AltBent) => a);
    if b.metin != "" {
      TrimTrimmed(b.metin);
    }
  }

  lemma TrimTextTrimmed(o: Option<string>)
    ensures TrimText(o).Some? ==> IsTrimmed(TrimText(o).value)
  {
    if Truthy(o) {
      TrimTrimmed(o.value);
    }
  }

  lemma CleanFikraTidy(f: Fikra)
    ensures TidyFikra(CleanFikra(f))
    ensures forall x :: x in CleanFikra(f).bentler <==> exists b :: b in f.bentler && KeepBent(b) && x == CleanBent(b)
  {
    FilterMapMembers(f.bentler, KeepBent, CleanBent);
    forall b | b in f.bentler
      ensures TidyBent(CleanBent(b))
    {
      CleanBentTidy(b);
    }
    TrimTextTrimmed(f.metin);
  }

  lemma CleanMaddeTidy(m: Madde)
    ensures TidyMadde(CleanMadde(m))
    ensures forall x :: x in CleanMadde(m).fikralar <==> exists f :: f in m.fikralar && KeepFikra(f) && x == CleanFikra(f)
  {
    FilterMapMembers(m.fikralar, KeepFikra, CleanFikra);
    forall f | f in m.fikralar
      ensures TidyFikra(CleanFikra(f))
    {
      CleanFikraTidy(f);
    }
    TrimTextTrimmed(m.metin);
  }

  /** Cleanup keeps every chapter and part, keeps exactly the articles that
      have a text or a paragraph (cleaned), and leaves every text trimmed. */
  lemma CleanBolumlerTidy(bs: seq<Bolum>)
    ensures TidyBolumler(CleanBolumler(bs))
    ensures forall i, j :: 0 <= i < |bs| && 0 <= j < |bs[i].kisimlar| ==>
      CleanBolumler(bs)[i].baslik == bs[i].baslik
      && |CleanBolumler(bs)[i].kisimlar| == |bs[i].kisimlar|
      && CleanBolumler(bs)[i].kisimlar[j].maddeler == FilterMap(bs[i].kisimlar[j].maddeler, KeepMadde, CleanMadde)
  {
    var r := CleanBolumler(bs);
    forall b, k, m | b in r && k in b.kisimlar && m in k.maddeler
      ensures TidyMadde(m)
    {
      var i :| 0 <= i < |r| && r[i] == b;
      var j :| 0 <= j < |b.kisimlar| && b.kisimlar[j] == k;
      var src := bs[i].kisimlar[j];
      assert k == CleanKisim(src);
      FilterMapMembers(src.maddeler, KeepMadde, CleanMadde);
      var y :| y in src.maddeler && KeepMadde(y) && m == CleanMadde(y);
      CleanMaddeTidy(y);
    }
  }

  /** After `parse`, every article in the tree, in a book or not, is tidy. */
  lemma ParseTidy(text: string, src: Option<string>, now: string)
    requires ParseSpec(text, src, now).Ok?
    ensures var k := ParseSpec(text, src, now).value.kanun;
      TidyBolumler(k.bolumler) && forall kt :: kt in k.kitaplar ==> TidyBolumler(kt.bolumler)
  {
    var lines := Lines(text);
    var s := Walk(Start(HeaderScan(Hits(lines), HeaderSpan(lines))), Kinds(lines), |lines|);
    var k := CleanKanun(s.kanun);
    CleanBolumlerTidy(s.kanun.bolumler);
    forall kt | kt in k.kitaplar
      ensures TidyBolumler(kt.bolumler)
    {
      var i :| 0 <= i < |k.kitaplar| && k.kitaplar[i] == kt;
      CleanBolumlerTidy(s.kanun.kitaplar[i].bolumler);
    }
  }
}
