/**
 * Identity of a decision: court, chamber, case (esas) and decision (karar)
 * numbers with their base/suffix split, date, subject, and the crime names
 * written in capitals above the body of the decision. Missing values take
 * fixed sentinel strings.
 */
module Meta {
  import opened Base
  import opened Text
  import opened Scan

  /** The sentinels of missing values. */
  const NotDetermined: string := "Belirlenemedi"
  const NotFound: string := "Bulunamadı"
  const NoDate: string := "Yok"
  const DefaultSubject: string := "Genel Hukuki Uyuşmazlık"

  /** A match of the court-name pattern: the whole match and the captured
      name in front of "Genel Kurulu", "Dairesi", "Mahkemesi", ... */
  datatype CourtMatch = CourtMatch(whole: string, name: string)

  /** The patterns of `extract`, left abstract: the first court-name match,
      the chamber capture, the captures of every case-number and every
      decision-number match in text order, the date capture and the
      subject capture. */
  datatype MetaGrammar = MetaGrammar(
    court: string -> Option<CourtMatch>,
    daire: string -> Option<string>,
    esas: string -> seq<string>,
    karar: string -> seq<string>,
    tarih: string -> Option<string>,
    konu: string -> Option<string>)

  // ---------------------------------------------------------------------
  // Court name

  /** The trimmed captured name, a space, and the last two whitespace-separated
      words of the whole match joined by a space. */
  function CourtName(m: CourtMatch): (r: string)
    ensures Trim(m.name) + " " <= r
  {
    Trim(m.name) + " " + Join(LastN(SplitWhitespace(m.whole), 2), ' ')
  }

  /** A match whose text is words separated by single spaces: the court
      name is the trimmed captured name followed by the match's last two
      words, each after one space. */
  lemma CourtNameOfWords(name: string, ws: seq<string>)
    requires |ws| >= 2 && AreWords(ws)
    ensures CourtName(CourtMatch(Join(ws, ' '), name)) == Trim(name) + " " + ws[|ws| - 2] + " " + ws[|ws| - 1]
  {
    SplitJoinWords(ws);
    CourtNameOfPieces(CourtMatch(Join(ws, ' '), name), ws);
  }

  /** The court name from the pieces of the whole match split at runs of
      whitespace. */
  lemma CourtNameOfPieces(m: CourtMatch, ws: seq<string>)
    requires |ws| >= 2 && SplitWhitespace(m.whole) == ws
    ensures CourtName(m) == Trim(m.name) + " " + ws[|ws| - 2] + " " + ws[|ws| - 1]
  {
    var a, b := ws[|ws| - 2], ws[|ws| - 1];
    assert LastN(ws, 2) == [a, b];
    JoinTwo(a, b);
    var n := Trim(m.name) + " ";
    assert n + (a + " " + b) == n + a + " " + b;
  }

  /** Two words joined by a space. */
  lemma JoinTwo(a: string, b: string)
    ensures Join([a, b], ' ') == a + " " + b
  {
    assert [a, b][1..] == [b];
  }

  /** `mahkeme || "Belirlenemedi"` */
  function Mahkeme(m: Option<CourtMatch>): string {
    if m.Some? then CourtName(m.value) else NotDetermined
  }

  /** The court is reported as undetermined exactly when the pattern does
      not match: a built name always holds a space, the sentinel none. */
  lemma MahkemeSentinel(m: Option<CourtMatch>)
    ensures Mahkeme(m) == NotDetermined <==> m.None?
  {
    if m.Some? {
      var r := CourtName(m.value);
      var n := |Trim(m.value.name)|;
      assert r[n] == ' ';
      assert ' ' in r;
      assert ' ' !in NotDetermined;
    }
  }

  // ---------------------------------------------------------------------
  // Case and decision numbers

  /** `esas`, `esasList`, `esasBase` and `esasEk` (and the same four for
      `karar`). */
  datatype CaseNumber = CaseNumber(
    full: string,
    list: Option<seq<string>>,
    base: Option<string>,
    ek: Option<string>)

  /** The four fields computed from the captures of all matches: the first
      capture or "Bulunamadı", the list or null, and the parts before and
      after the first '-'. */
  function Numbers(matches: seq<string>): (r: CaseNumber)
    ensures r.list.None? <==> matches == []
    ensures r.list.Some? ==> r.list.value == matches && r.full == matches[0]
    ensures matches == [] ==> r.full == NotFound && r.base.None? && r.ek.None?
    ensures r.ek.Some? ==> r.base.Some?
  {
    var full := if |matches| > 0 then matches[0] else NotFound;
    var parts := Split(full, '-');
    CaseNumber(
      full,
      if |matches| > 0 then Some(matches) else None,
      if full != NotFound then Some(parts[0]) else None,
      if full != NotFound && '-' in full then Some(parts[1]) else None)
  }

  /** The first piece of `split(sep)` is the text up to the first separator,
      and the remaining pieces are the split of what follows it. */
  lemma SplitFirst(s: string, sep: char)
    ensures var h := Split(s, sep)[0];
      && h <= s && sep !in h
      && (sep !in s ==> h == s)
      && (sep in s ==> |h| < |s| && s[|h|] == sep && Split(s, sep)[1..] == Split(s[|h| + 1..], sep))
  {
    if sep in s {
      var i := IndexOf(s, sep);
      assert Split(s, sep) == [s[..i]] + Split(s[i + 1..], sep);
    }
  }

  /** A text split at '-': the first piece has no '-' and is the whole
      text when there is no '-'; otherwise it is followed in the text by the
      first '-', and the second piece is the text after that '-' up to the
      next one (all of it when there is no other). */
  lemma DashParts(full: string)
    ensures var p := Split(full, '-');
      && '-' !in p[0]
      && ('-' !in full ==> p[0] == full)
      && ('-' in full ==> DashSplit(full, p[0], p[1]))
  {
    SplitFirst(full, '-');
    if '-' in full {
      var p := Split(full, '-');
      var rest := full[|p[0]| + 1..];
      assert p[1..] == Split(rest, '-');
      assert p[1] == Split(rest, '-')[0];
      SplitFirst(rest, '-');
    }
  }

  /** `base` is the text before the first '-' of `full`, and `ek` the text
      after it up to the next '-'. */
  predicate DashSplit(full: string, base: string, ek: string) {
    && |base| < |full| && full[..|base|] == base && full[|base|] == '-'
    && '-' !in base && '-' !in ek
    && ek <= full[|base| + 1..]
    && ('-' !in full[|base| + 1..] ==> ek == full[|base| + 1..])
  }

  /** A found number splits at its first '-': the base is the part before
      it and the suffix the part after it up to any further '-'; without
      '-' the base is the whole number and there is no suffix. */
  lemma NumberParts(matches: seq<string>)
    requires matches != [] && matches[0] != NotFound
    ensures var r := Numbers(matches);
      && r.base.Some? && '-' !in r.base.value
      && (r.ek.None? <==> '-' !in r.full)
      && (r.ek.None? ==> r.base.value == r.full)
      && (r.ek.Some? ==> DashSplit(r.full, r.base.value, r.ek.value))
  {
    DashParts(matches[0]);
  }

  // ---------------------------------------------------------------------
  // The other fields

  /** `x || null` for a capture. */
  function OrNull(o: Option<string>): (r: Option<string>)
    ensures r.Some? <==> Truthy(o)
    ensures r.Some? ==> r == o
  {
    if Truthy(o) then o else None
  }

  /** `x || sentinel` for a capture. */
  function OrSentinel(o: Option<string>, sentinel: string): (r: string)
    ensures Truthy(o) ==> r == o.value
    ensures !Truthy(o) ==> r == sentinel
  {
    if Truthy(o) then o.value else sentinel
  }

  /** `?.[1]?.trim() || "Genel Hukuki Uyuşmazlık"` */
  function Konu(o: Option<string>): (r: string)
    ensures o.Some? && Trim(o.value) != "" ==> r == Trim(o.value)
    ensures o.None? || Trim(o.value) == "" ==> r == DefaultSubject
  {
    if o.Some? && Trim(o.value) != "" then Trim(o.value) else DefaultSubject
  }

  // ---------------------------------------------------------------------
  // Crime names: the header

  /** A piece of the small patterns the header scan uses: a literal
      compared under `/i`, or `\s+`. Every literal starts with a
      non-whitespace character, so the greedy `\s+` in front of it never has
      to give anything back. */
  datatype Token = Word(lit: string) | Blank

  /** The tokens `p` match the text from `i` on. */
  predicate TokensAt(s: string, i: nat, p: seq<Token>)
    requires i <= |s|
    decreases |p|
  {
    if p == [] then true
    else match p[0]
      case Word(lit) => CiAt(s, i, lit) && TokensAt(s, i + |lit|, p[1..])
      case Blank => var w := WsRun(s, i); w > 0 && TokensAt(s, i + w, p[1..])
  }

  /** One of the alternatives `alts` matches from `i` on. */
  predicate AnyAt(s: string, i: nat, alts: seq<seq<Token>>)
    requires i <= |s|
    decreases |alts|
  {
    alts != [] && (TokensAt(s, i, alts[0]) || AnyAt(s, i, alts[1..]))
  }

  /** The body markers `İçtihat\s+Metni|GEREKÇE|KARAR|TÜRK\s+MİLLETİ\s+ADINA`. */
  const BodyMarkers: seq<seq<Token>> := [
    [Word("İçtihat"), Blank, Word("Metni")],
    [Word("GEREKÇE")],
    [Word("KARAR")],
    [Word("TÜRK"), Blank, Word("MİLLETİ"), Blank, Word("ADINA")]]

  /** `search` of the alternatives `alts`: the first index from `i` on
      where one of them matches. */
  function FirstAt(s: string, i: nat, alts: seq<seq<Token>>): (r: Option<nat>)
    requires i <= |s|
    ensures r.Some? ==> i <= r.value < |s| && AnyAt(s, r.value, alts)
    decreases |s| - i
  {
    if i == |s| then None
    else if AnyAt(s, i, alts) then Some(i)
    else FirstAt(s, i + 1, alts)
  }

  /** The search finds the leftmost match, and nothing only when there is
      no match before the end of the text. */
  lemma {:induction false} FirstAtLeftmost(s: string, i: nat, alts: seq<seq<Token>>)
    requires i <= |s|
    ensures var r := FirstAt(s, i, alts);
      && (r.None? <==> forall j :: i <= j < |s| ==> !AnyAt(s, j, alts))
      && (r.Some? ==> forall j :: i <= j < r.value ==> !AnyAt(s, j, alts))
    decreases |s| - i
  {
    if i < |s| {
      if AnyAt(s, i, alts) {
        assert FirstAt(s, i, alts) == Some(i);
        assert exists j :: i <= j < |s| && AnyAt(s, j, alts);
      } else {
        FirstAtLeftmost(s, i + 1, alts);
        assert FirstAt(s, i, alts) == FirstAt(s, i + 1, alts);
      }
    }
  }

  /** The text scanned for crime names: up to the first marker, or the whole
      text when there is none or it is at index 0. */
  function HeaderText(s: string): (h: string)
    ensures h <= s
  {
    var e := FirstAt(s, 0, BodyMarkers);
    if e.Some? && e.value > 0 then s[..e.value] else s
  }

  /** The header ends right before the first marker and holds no marker; it
      is the whole text exactly when there is no marker or the text starts
      with one. */
  lemma HeaderCut(s: string)
    ensures var h := HeaderText(s);
      && (h == s <==> (forall j :: 0 <= j < |s| ==> !AnyAt(s, j, BodyMarkers)) || (|s| > 0 && AnyAt(s, 0, BodyMarkers)))
      && (h != s ==> |h| < |s| && AnyAt(s, |h|, BodyMarkers) && forall j :: 0 <= j < |h| ==> !AnyAt(s, j, BodyMarkers))
  {
    FirstAtLeftmost(s, 0, BodyMarkers);
  }

  // ---------------------------------------------------------------------
  // Crime names: the line filter

  /** `[A-ZÇĞİÖŞÜ\s]` */
  predicate IsCapsChar(c: char) {
    IsAsciiUpper(c) || IsTurkishUpper(c) || c == 'İ' || IsWhitespace(c)
  }

  /** `/^[A-ZÇĞİÖŞÜ\s]+$/` */
  predicate AllCaps(t: string) {
    |t| > 0 && forall k :: 0 <= k < |t| ==> IsCapsChar(t[k])
  }

  /** `\d{4}` at `i`. */
  predicate FourDigits(t: string, i: nat) {
    i + 4 <= |t| && IsDigit(t[i]) && IsDigit(t[i + 1]) && IsDigit(t[i + 2]) && IsDigit(t[i + 3])
  }

  /** `\d{4}\s*S` at `i`: a law reference such as "5237 S.". */
  predicate LawReferenceAt(t: string, i: nat) {
    FourDigits(t, i) && var j := i + 4 + WsRun(t, i + 4); j < |t| && t[j] == 'S'
  }

  predicate LawReference(t: string) {
    exists i: nat :: i <= |t| && LawReferenceAt(t, i)
  }

  /** `/^\d+\.\s*(Hukuk|Ceza)\s*Dairesi/i`: a chamber heading. */
  predicate ChamberHeading(t: string) {
    var d := DigitRun(t, 0);
    d > 0 && d < |t| && t[d] == '.' &&
    var j := d + 1 + WsRun(t, d + 1);
    || (CiAt(t, j, "Hukuk") && CiAt(t, j + 5 + WsRun(t, j + 5), "Dairesi"))
    || (CiAt(t, j, "Ceza") && CiAt(t, j + 4 + WsRun(t, j + 4), "Dairesi"))
  }

  /** `\d{4}\/\d+` at `i`: a file number such as "2009/6". */
  predicate FileNumberAt(t: string, i: nat) {
    FourDigits(t, i) && i + 5 < |t| && t[i + 4] == '/' && IsDigit(t[i + 5])
  }

  predicate FileNumber(t: string) {
    exists i: nat :: i <= |t| && FileNumberAt(t, i)
  }

  /** `Genel\s+Kurulu?|Dairesi|Mahkemesi`; the optional last letter of
      "Kurulu" does not change whether the pattern occurs. */
  const CourtWords: seq<seq<Token>> := [
    [Word("Genel"), Blank, Word("Kurul")],
    [Word("Dairesi")],
    [Word("Mahkemesi")]]

  predicate CourtWordAt(t: string, i: nat) {
    i <= |t| && AnyAt(t, i, CourtWords)
  }

  predicate CourtWord(t: string) {
    exists i: nat :: i <= |t| && CourtWordAt(t, i)
  }

  /** A trimmed header line is a crime name: at least three characters, only
      capitals and spaces, and not a law reference, a chamber heading, a
      file number or a court name. */
  predicate IsCrimeName(t: string) {
    && |t| >= 3
    && AllCaps(t)
    && !LawReference(t)
    && !ChamberHeading(t)
    && !FileNumber(t)
    && !CourtWord(t)
  }

  /** A line of capitals holds no digit, so the law-reference, chamber and
      file-number filters never reject it: only the court-name filter can. */
  lemma CrimeNameFilters(t: string)
    ensures IsCrimeName(t) <==> |t| >= 3 && AllCaps(t) && !CourtWord(t)
  {
    if AllCaps(t) {
      assert !IsCapsChar('0') && !IsCapsChar('9');
      forall i: nat | i <= |t| ensures !LawReferenceAt(t, i) && !FileNumberAt(t, i) {
        if i < |t| {
          assert !IsDigit(t[i]);
        }
      }
      assert !IsDigit(t[0]);
    }
  }

  /** The trimmed lines that are crime names, in line order. */
  function CrimeNames(lines: seq<string>): (r: seq<string>)
    ensures |r| <= |lines|
    decreases |lines|
  {
    if lines == [] then []
    else
      var t := Trim(lines[|lines| - 1]);
      CrimeNames(lines[..|lines| - 1]) + (if IsCrimeName(t) then [t] else [])
  }

  /** One more line: its trimmed form joins the names when it passes. */
  lemma CrimeNamesStep(lines: seq<string>, i: nat)
    requires i < |lines|
    ensures var t := Trim(lines[i]);
      CrimeNames(lines[..i + 1]) == CrimeNames(lines[..i]) + if IsCrimeName(t) then [t] else []
  {
    assert lines[..i + 1][..i] == lines[..i];
  }

  /** The filter keeps line order: the names of a block of lines followed by
      another are the names of the first block followed by those of the
      second. */
  lemma {:induction false} CrimeNamesAppend(a: seq<string>, b: seq<string>)
    ensures CrimeNames(a + b) == CrimeNames(a) + CrimeNames(b)
    decreases |b|
  {
    if b != [] {
      var b' := b[..|b| - 1];
      CrimeNamesAppend(a, b');
      var n := Trim(b[|b| - 1]);
      var kept := if IsCrimeName(n) then [n] else [];
      assert (a + b)[..|a + b| - 1] == a + b';
      assert (a + b)[|a + b| - 1] == b[|b| - 1];
      assert CrimeNames(a + b) == CrimeNames(a + b') + kept;
      assert CrimeNames(b) == CrimeNames(b') + kept;
    } else {
      assert a + b == a;
    }
  }

  /** A text is among the names exactly when it is a crime name and the
      trimmed form of some line. */
  lemma {:induction false} CrimeNamesMember(lines: seq<string>, t: string)
    ensures t in CrimeNames(lines) <==> IsCrimeName(t) && exists k :: 0 <= k < |lines| && Trim(lines[k]) == t
    decreases |lines|
  {
    if lines != [] {
      var init := lines[..|lines| - 1];
      CrimeNamesMember(init, t);
      if exists k :: 0 <= k < |lines| && Trim(lines[k]) == t {
        var k :| 0 <= k < |lines| && Trim(lines[k]) == t;
        if k < |lines| - 1 {
          assert Trim(init[k]) == t;
        }
      }
      if exists k :: 0 <= k < |init| && Trim(init[k]) == t {
        var k :| 0 <= k < |init| && Trim(init[k]) == t;
        assert Trim(lines[k]) == t;
      }
    }
  }

  /** `extractSuçAdları(text)` as a value: the crime names of the header
      lines, or null when there are none. */
  function SucAdlari(text: string): (r: Option<seq<string>>)
    ensures r.Some? ==> r.value != []
  {
    var names := CrimeNames(Split(HeaderText(text), '\n'));
    if names == [] then None else Some(names)
  }

  /** `extractSuçAdları`: cut the header, split it into lines and push every
      trimmed line that passes the filter. */
  method ExtractSucAdlari(text: string) returns (r: Option<seq<string>>)
    ensures r == SucAdlari(text)
  {
    var lines := Split(HeaderText(text), '\n');
    var names: seq<string> := [];
    var i := 0;
    while i < |lines|
      invariant 0 <= i <= |lines|
      invariant names == CrimeNames(lines[..i])
    {
      var t := Trim(lines[i]);
      if IsCrimeName(t) {
        names := names + [t];
      }
      CrimeNamesStep(lines, i);
      i := i + 1;
    }
    assert lines[..i] == lines;
    r := if names == [] then None else Some(names);
  }

  // ---------------------------------------------------------------------
  // The record

  /** The object `extract` returns. */
  datatype MetaRecord = MetaRecord(
    mahkeme: string,
    daire: Option<string>,
    esas: string,
    esasList: Option<seq<string>>,
    esasBase: Option<string>,
    esasEk: Option<string>,
    karar: string,
    kararList: Option<seq<string>>,
    kararBase: Option<string>,
    kararEk: Option<string>,
    tarih: string,
    konu: string,
    sucAdlari: Option<seq<string>>)

  /** `extract(text)` */
  function Extract(g: MetaGrammar, text: string): (r: MetaRecord)
    ensures r.sucAdlari == SucAdlari(text)
  {
    var e := Numbers(g.esas(text));
    var k := Numbers(g.karar(text));
    MetaRecord(
      Mahkeme(g.court(text)),
      OrNull(g.daire(text)),
      e.full, e.list, e.base, e.ek,
      k.full, k.list, k.base, k.ek,
      OrSentinel(g.tarih(text), NoDate),
      Konu(g.konu(text)),
      SucAdlari(text))
  }

  /** What the record holds: the court is undetermined exactly when the
      court pattern does not match; the case and decision numbers are the
      first of their lists, which are null exactly when nothing matched;
      and every missing value takes its sentinel. */
  lemma ExtractFields(g: MetaGrammar, text: string)
    ensures var r := Extract(g, text);
      && (r.mahkeme == NotDetermined <==> g.court(text).None?)
      && (r.esasList.None? <==> g.esas(text) == [])
      && (r.esasList.Some? ==> r.esas == r.esasList.value[0])
      && (r.esasList.None? ==> r.esas == NotFound && r.esasBase.None? && r.esasEk.None?)
      && (r.kararList.None? <==> g.karar(text) == [])
      && (r.kararList.Some? ==> r.karar == r.kararList.value[0])
      && (r.kararList.None? ==> r.karar == NotFound && r.kararBase.None? && r.kararEk.None?)
      && (r.daire.Some? <==> Truthy(g.daire(text)))
      && (Truthy(g.tarih(text)) ==> r.tarih == g.tarih(text).value)
      && (!Truthy(g.tarih(text)) ==> r.tarih == NoDate)
      && (g.konu(text).Some? && Trim(g.konu(text).value) != "" ==> r.konu == Trim(g.konu(text).value))
      && (g.konu(text).None? || Trim(g.konu(text).value) == "" ==> r.konu == DefaultSubject)
  {
    MahkemeSentinel(g.court(text));
  }

  /** An empty text has no header line that is a crime name. */
  lemma EmptyTextHasNoCrimeNames()
    ensures SucAdlari("") == None
  {
    assert HeaderText("") == "";
    assert Split("", '\n') == [""];
    assert CrimeNames([""]) == CrimeNames([]) + [];
  }

  /** On an empty text, where no pattern can match, every field takes its
      sentinel. */
  lemma EmptyTextDefaults(g: MetaGrammar)
    requires g.court("").None? && g.daire("").None? && g.esas("") == [] && g.karar("") == []
    requires g.tarih("").None? && g.konu("").None?
    ensures Extract(g, "") == MetaRecord(NotDetermined, None, NotFound, None, None, None,
                                         NotFound, None, None, None, NoDate, DefaultSubject, None)
  {
    EmptyTextHasNoCrimeNames();
  }
}
