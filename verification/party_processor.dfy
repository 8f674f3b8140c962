/**
 * Parties, representatives and claims of a court decision. Every trimmed
 * line is scanned for plaintiffs (davacı), defendants (davalı),
 * representatives (vekil) and claims (talep). Each category keeps only the
 * first entry for a case-insensitive key; a representative also gets a
 * role and a claim a type, both judged on the whole line. A category
 * without entries is reported as null.
 */
module Parties {
  import opened Base
  import opened Text

  // ---------------------------------------------------------------------
  // Data

  /** `{isim, satirNo, baglam, satirIcerigi}` */
  datatype Party = Party(isim: string, satirNo: nat, baglam: string, satirIcerigi: string)

  /** `{isim, tip, satirNo, baglam, satirIcerigi}` */
  datatype Vekil = Vekil(isim: string, tip: string, satirNo: nat, baglam: string, satirIcerigi: string)

  /** `{icerik, tip, satirNo, baglam, satirIcerigi}` */
  datatype Talep = Talep(icerik: string, tip: string, satirNo: nat, baglam: string, satirIcerigi: string)

  /** The two sides whose names are extracted. */
  datatype Side = Davaci | Davali

  /** The word the side's pattern is built from. */
  function SideWord(side: Side): string {
    match side
    case Davaci => "davacı"
    case Davali => "davalı"
  }

  /** The global (`/gi`) patterns, each giving the captured text of every
      match, left to right. `party(w, line)` is the name pattern built from
      the side word `w`; `roleVekili`, `mudafi` and `vekili` are the three
      representative patterns, in their order; `talepEdilen` and
      `talepEdilmesi` are the two claim patterns, whose captures are whole
      matches. Each representative pattern has a mandatory name group of at
      least three characters, so its capture is always the group. */
  datatype Grammar = Grammar(
    party: (string, string) -> seq<string>,
    roleVekili: string -> seq<string>,
    mudafi: string -> seq<string>,
    vekili: string -> seq<string>,
    talepEdilen: string -> seq<string>,
    talepEdilmesi: string -> seq<string>)

  /** Length of the stored context excerpt. */
  const ContextLength: nat := 150

  const DavaciVekili := "Davacı Vekili"
  const DavaliVekili := "Davalı Vekili"
  const Mudafi := "Müdafi"
  const PlainVekil := "Vekil"

  const Iddia := "İddia"
  const Dilekce := "Dilekçe"
  const Basvuru := "Başvuru"
  const PlainTalep := "Talep"

  // ---------------------------------------------------------------------
  // Filters and classification

  /** `/^[.,\s]+$/.test(s)` */
  predicate IsPunctuationOnly(s: string) {
    |s| > 0 && forall k :: 0 <= k < |s| ==> s[k] == '.' || s[k] == ',' || IsWhitespace(s[k])
  }

  /** A representative's name: 2 to 50 characters, not just dots, commas
      and spaces. */
  predicate AcceptsVekilName(name: string) {
    2 <= |name| <= 50 && !IsPunctuationOnly(name)
  }

  /** A party's name must also not contain "vekili" in any case. */
  predicate AcceptsPartyName(name: string) {
    AcceptsVekilName(name) && !Includes(ToLower(name), "vekili")
  }

  /** A claim is 10 to 300 characters long. */
  predicate AcceptsTalep(t: string) {
    10 <= |t| <= 300
  }

  /** The representative's role, from the whole line, by priority. */
  function VekilTip(line: string): string {
    var l := ToLower(line);
    if Includes(l, "davacı vekili") then DavaciVekili
    else if Includes(l, "davalı vekili") then DavaliVekili
    else if Includes(l, "sanık vekili") || Includes(l, "müdafi") then Mudafi
    else PlainVekil
  }

  /** The claim's type, from the whole line, by priority. */
  function TalepTip(line: string): string {
    var l := ToLower(line);
    if Includes(l, "iddia") then Iddia
    else if Includes(l, "dilekçe") then Dilekce
    else if Includes(l, "başvuru") then Basvuru
    else PlainTalep
  }

  /** The representative captures of a line: the three patterns in order. */
  function VekilCaptures(g: Grammar, line: string): seq<string> {
    g.roleVekili(line) + g.mudafi(line) + g.vekili(line)
  }

  /** The claim captures of a line: the two patterns in order. */
  function TalepCaptures(g: Grammar, line: string): seq<string> {
    g.talepEdilen(line) + g.talepEdilmesi(line)
  }

  /** One match as the extractor sees it: the trimmed captured text and
      whether the category's filter accepts it. */
  datatype Capture = Capture(text: string, accepted: bool)

  /** The matches of one or more patterns, trimmed and judged by `accepts`. */
  function Captures(matches: seq<string>, accepts: string -> bool): (r: seq<Capture>)
    ensures |r| == |matches|
    decreases |matches|
  {
    if matches == [] then []
    else
      var name := Trim(matches[|matches| - 1]);
      Captures(matches[..|matches| - 1], accepts) + [Capture(name, accepts(name))]
  }

  /** What one line gives the extractors: the trimmed line, its context
      excerpt, the judged matches of each category on it, and the line's
      representative role and claim type. The patterns and filters are
      pure, so scanning a line before storing its entries is the same as
      the interleaved JavaScript loops. */
  datatype LineScan = LineScan(
    line: string,
    baglam: string,
    davaci: seq<Capture>,
    davali: seq<Capture>,
    vekil: seq<Capture>,
    role: string,
    talep: seq<Capture>,
    talepTip: string)

  function ScanLine(g: Grammar, raw: string): LineScan {
    var line := Trim(raw);
    LineScan(line, Excerpt(line, ContextLength),
             Captures(g.party(SideWord(Davaci), line), AcceptsPartyName),
             Captures(g.party(SideWord(Davali), line), AcceptsPartyName),
             Captures(VekilCaptures(g, line), AcceptsVekilName), VekilTip(line),
             Captures(TalepCaptures(g, line), AcceptsTalep), TalepTip(line))
  }

  /** The scans of all lines, in order. */
  function Scans(g: Grammar, lines: seq<string>): (r: seq<LineScan>)
    ensures |r| == |lines|
    decreases |lines|
  {
    if lines == [] then [] else Scans(g, lines[..|lines| - 1]) + [ScanLine(g, lines[|lines| - 1])]
  }

  function PartyCaptures(s: LineScan, side: Side): seq<Capture> {
    if side == Davaci then s.davaci else s.davali
  }

  // ---------------------------------------------------------------------
  // The find callbacks and the appends, as functions of the lists

  predicate SameParty(p: Party, name: string) {
    p.isim != "" && SameIgnoringCase(p.isim, name)
  }

  predicate HasParty(ps: seq<Party>, name: string) {
    exists k :: 0 <= k < |ps| && SameParty(ps[k], name)
  }

  predicate SameVekil(v: Vekil, name: string, tip: string) {
    v.isim != "" && SameIgnoringCase(v.isim, name) && v.tip == tip
  }

  predicate HasVekil(vs: seq<Vekil>, name: string, tip: string) {
    exists k :: 0 <= k < |vs| && SameVekil(vs[k], name, tip)
  }

  predicate SameTalep(t: Talep, icerik: string) {
    t.icerik != "" && SameIgnoringCase(t.icerik, icerik)
  }

  predicate HasTalep(ts: seq<Talep>, icerik: string) {
    exists k :: 0 <= k < |ts| && SameTalep(ts[k], icerik)
  }

  /** One match of a party pattern on `line`, whose excerpt is `baglam`. */
  function AddParty(ps: seq<Party>, c: Capture, line: string, baglam: string, lineNum: nat): seq<Party> {
    if !c.accepted || HasParty(ps, c.text) then ps
    else ps + [Party(c.text, lineNum, baglam, line)]
  }

  function AddParties(ps: seq<Party>, cs: seq<Capture>, line: string, baglam: string, lineNum: nat): seq<Party>
    decreases |cs|
  {
    if cs == [] then ps
    else AddParty(AddParties(ps, cs[..|cs| - 1], line, baglam, lineNum), cs[|cs| - 1], line, baglam, lineNum)
  }

  /** One match of a representative pattern on `line`, whose role is `tip`. */
  function AddVekil(vs: seq<Vekil>, c: Capture, line: string, baglam: string, tip: string, lineNum: nat): seq<Vekil> {
    if !c.accepted || HasVekil(vs, c.text, tip) then vs
    else vs + [Vekil(c.text, tip, lineNum, baglam, line)]
  }

  function AddVekiller(vs: seq<Vekil>, cs: seq<Capture>, line: string, baglam: string, tip: string, lineNum: nat): seq<Vekil>
    decreases |cs|
  {
    if cs == [] then vs
    else AddVekil(AddVekiller(vs, cs[..|cs| - 1], line, baglam, tip, lineNum), cs[|cs| - 1], line, baglam, tip, lineNum)
  }

  /** One match of a claim pattern on `line`, whose claim type is `tip`. */
  function AddTalep(ts: seq<Talep>, c: Capture, line: string, baglam: string, tip: string, lineNum: nat): seq<Talep> {
    if !c.accepted || HasTalep(ts, c.text) then ts
    else ts + [Talep(c.text, tip, lineNum, baglam, line)]
  }

  function AddTalepler(ts: seq<Talep>, cs: seq<Capture>, line: string, baglam: string, tip: string, lineNum: nat): seq<Talep>
    decreases |cs|
  {
    if cs == [] then ts
    else AddTalep(AddTalepler(ts, cs[..|cs| - 1], line, baglam, tip, lineNum), cs[|cs| - 1], line, baglam, tip, lineNum)
  }

  /** A side's list after the first `n` lines, numbered from 1. The four
      lists are filled independently of each other. */
  function PartiesFrom(scans: seq<LineScan>, side: Side, n: nat): seq<Party>
    requires n <= |scans|
  {
    if n == 0 then []
    else
      var s := scans[n - 1];
      AddParties(PartiesFrom(scans, side, n - 1), PartyCaptures(s, side), s.line, s.baglam, n)
  }

  /** The representatives after the first `n` lines. */
  function VekillerFrom(scans: seq<LineScan>, n: nat): seq<Vekil>
    requires n <= |scans|
  {
    if n == 0 then []
    else
      var s := scans[n - 1];
      AddVekiller(VekillerFrom(scans, n - 1), s.vekil, s.line, s.baglam, s.role, n)
  }

  /** The claims after the first `n` lines. */
  function TaleplerFrom(scans: seq<LineScan>, n: nat): seq<Talep>
    requires n <= |scans|
  {
    if n == 0 then []
    else
      var s := scans[n - 1];
      AddTalepler(TaleplerFrom(scans, n - 1), s.talep, s.line, s.baglam, s.talepTip, n)
  }

  /** What `extract` returns: each list, or null when it is empty. */
  datatype PartyResult = PartyResult(
    davacilar: Option<seq<Party>>,
    davalilar: Option<seq<Party>>,
    vekiller: Option<seq<Vekil>>,
    talepler: Option<seq<Talep>>)

  /** `if (a.length === 0) a = null` */
  function NullIfEmpty<T>(s: seq<T>): Option<seq<T>> {
    if |s| == 0 then None else Some(s)
  }

  function ExtractSpec(g: Grammar, text: string): PartyResult {
    var scans := Scans(g, Split(text, '\n'));
    var n := |scans|;
    PartyResult(
      NullIfEmpty(PartiesFrom(scans, Davaci, n)), NullIfEmpty(PartiesFrom(scans, Davali, n)),
      NullIfEmpty(VekillerFrom(scans, n)), NullIfEmpty(TaleplerFrom(scans, n)))
  }

  // ---------------------------------------------------------------------
  // Properties

  /** Each field of the result is null exactly when its list is empty, and
      otherwise the (non-empty) list itself. */
  lemma ExtractNullIffEmpty(g: Grammar, text: string)
    ensures var scans := Scans(g, Split(text, '\n'));
      var n := |scans|;
      var r := ExtractSpec(g, text);
      var davacilar, davalilar := PartiesFrom(scans, Davaci, n), PartiesFrom(scans, Davali, n);
      var vekiller, talepler := VekillerFrom(scans, n), TaleplerFrom(scans, n);
      (r.davacilar.None? <==> davacilar == []) && (r.davacilar.Some? ==> r.davacilar.value == davacilar)
      && (r.davalilar.None? <==> davalilar == []) && (r.davalilar.Some? ==> r.davalilar.value == davalilar)
      && (r.vekiller.None? <==> vekiller == []) && (r.vekiller.Some? ==> r.vekiller.value == vekiller)
      && (r.talepler.None? <==> talepler == []) && (r.talepler.Some? ==> r.talepler.value == talepler)
  {
  }

  /** The representative's role follows the priority of its tests. */
  lemma VekilTipPriority(line: string)
    ensures var l := ToLower(line);
      var tip := VekilTip(line);
      (tip == DavaciVekili <==> Includes(l, "davacı vekili"))
      && (tip == DavaliVekili <==> !Includes(l, "davacı vekili") && Includes(l, "davalı vekili"))
      && (tip == Mudafi <==> !Includes(l, "davacı vekili") && !Includes(l, "davalı vekili")
                              && (Includes(l, "sanık vekili") || Includes(l, "müdafi")))
      && (tip == PlainVekil <==> !Includes(l, "davacı vekili") && !Includes(l, "davalı vekili")
                                  && !Includes(l, "sanık vekili") && !Includes(l, "müdafi"))
  {
  }

  /** The claim's type follows the priority of its tests. */
  lemma TalepTipPriority(line: string)
    ensures var l := ToLower(line);
      var tip := TalepTip(line);
      (tip == Iddia <==> Includes(l, "iddia"))
      && (tip == Dilekce <==> !Includes(l, "iddia") && Includes(l, "dilekçe"))
      && (tip == Basvuru <==> !Includes(l, "iddia") && !Includes(l, "dilekçe") && Includes(l, "başvuru"))
      && (tip == PlainTalep <==> !Includes(l, "iddia") && !Includes(l, "dilekçe") && !Includes(l, "başvuru"))
  {
  }

  /** A stored party of side `side`: it was made for one of the first `n`
      lines, holds that line and its excerpt, and its name is an accepted
      match of the side's pattern on that line. */
  predicate PartyOfLine(scans: seq<LineScan>, side: Side, p: Party, n: nat) {
    1 <= p.satirNo <= n && p.satirNo <= |scans|
    && p.satirIcerigi == scans[p.satirNo - 1].line
    && p.baglam == scans[p.satirNo - 1].baglam
    && exists c :: c in PartyCaptures(scans[p.satirNo - 1], side) && c.accepted && p.isim == c.text
  }

  /** A party list as extract builds it: entries of their lines, and no
      entry's name is found again, ignoring case, by an earlier entry. */
  predicate PartiesOk(scans: seq<LineScan>, side: Side, ps: seq<Party>, n: nat) {
    (forall k :: 0 <= k < |ps| ==> PartyOfLine(scans, side, ps[k], n))
    && forall i, j :: 0 <= i < j < |ps| ==> !SameParty(ps[i], ps[j].isim)
  }

  predicate VekilOfLine(scans: seq<LineScan>, v: Vekil, n: nat) {
    1 <= v.satirNo <= n && v.satirNo <= |scans|
    && v.satirIcerigi == scans[v.satirNo - 1].line
    && v.baglam == scans[v.satirNo - 1].baglam
    && v.tip == scans[v.satirNo - 1].role
    && exists c :: c in scans[v.satirNo - 1].vekil && c.accepted && v.isim == c.text
  }

  /** Representatives: entries of their lines, and no entry's (name
      ignoring case, role) pair is found again by an earlier entry. */
  predicate VekillerOk(scans: seq<LineScan>, vs: seq<Vekil>, n: nat) {
    (forall k :: 0 <= k < |vs| ==> VekilOfLine(scans, vs[k], n))
    && forall i, j :: 0 <= i < j < |vs| ==> !SameVekil(vs[i], vs[j].isim, vs[j].tip)
  }

  predicate TalepOfLine(scans: seq<LineScan>, t: Talep, n: nat) {
    1 <= t.satirNo <= n && t.satirNo <= |scans|
    && t.satirIcerigi == scans[t.satirNo - 1].line
    && t.baglam == scans[t.satirNo - 1].baglam
    && t.tip == scans[t.satirNo - 1].talepTip
    && exists c :: c in scans[t.satirNo - 1].talep && c.accepted && t.icerik == c.text
  }

  /** Claims: entries of their lines, and no entry's text is found again,
      ignoring case, by an earlier entry. */
  predicate TaleplerOk(scans: seq<LineScan>, ts: seq<Talep>, n: nat) {
    (forall k :: 0 <= k < |ts| ==> TalepOfLine(scans, ts[k], n))
    && forall i, j :: 0 <= i < j < |ts| ==> !SameTalep(ts[i], ts[j].icerik)
  }

  /** One party match keeps the list well formed. */
  lemma AddPartyOk(scans: seq<LineScan>, side: Side, ps: seq<Party>, c: Capture, n: nat)
    requires 1 <= n <= |scans| && c in PartyCaptures(scans[n - 1], side) && PartiesOk(scans, side, ps, n)
    ensures PartiesOk(scans, side, AddParty(ps, c, scans[n - 1].line, scans[n - 1].baglam, n), n)
  {
    var s := scans[n - 1];
    if c.accepted && !HasParty(ps, c.text) {
      var r := ps + [Party(c.text, n, s.baglam, s.line)];
      assert PartyOfLine(scans, side, r[|ps|], n);
      assert forall i :: 0 <= i < |ps| ==> !SameParty(r[i], r[|ps|].isim);
    }
  }

  lemma {:induction false} AddPartiesOk(scans: seq<LineScan>, side: Side, ps: seq<Party>, cs: seq<Capture>, n: nat)
    requires 1 <= n <= |scans| && PartiesOk(scans, side, ps, n)
    requires forall k :: 0 <= k < |cs| ==> cs[k] in PartyCaptures(scans[n - 1], side)
    ensures PartiesOk(scans, side, AddParties(ps, cs, scans[n - 1].line, scans[n - 1].baglam, n), n)
    decreases |cs|
  {
    if cs != [] {
      var s := scans[n - 1];
      AddPartiesOk(scans, side, ps, cs[..|cs| - 1], n);
      AddPartyOk(scans, side, AddParties(ps, cs[..|cs| - 1], s.line, s.baglam, n), cs[|cs| - 1], n);
    }
  }

  /** One representative match keeps the list well formed. */
  lemma AddVekilOk(scans: seq<LineScan>, vs: seq<Vekil>, c: Capture, n: nat)
    requires 1 <= n <= |scans| && c in scans[n - 1].vekil && VekillerOk(scans, vs, n)
    ensures VekillerOk(scans, AddVekil(vs, c, scans[n - 1].line, scans[n - 1].baglam, scans[n - 1].role, n), n)
  {
    var s := scans[n - 1];
    if c.accepted && !HasVekil(vs, c.text, s.role) {
      var r := vs + [Vekil(c.text, s.role, n, s.baglam, s.line)];
      assert VekilOfLine(scans, r[|vs|], n);
      assert forall i :: 0 <= i < |vs| ==> !SameVekil(r[i], r[|vs|].isim, r[|vs|].tip);
    }
  }

  lemma {:induction false} AddVekillerOk(scans: seq<LineScan>, vs: seq<Vekil>, cs: seq<Capture>, n: nat)
    requires 1 <= n <= |scans| && VekillerOk(scans, vs, n)
    requires forall k :: 0 <= k < |cs| ==> cs[k] in scans[n - 1].vekil
    ensures VekillerOk(scans, AddVekiller(vs, cs, scans[n - 1].line, scans[n - 1].baglam, scans[n - 1].role, n), n)
    decreases |cs|
  {
    if cs != [] {
      var s := scans[n - 1];
      AddVekillerOk(scans, vs, cs[..|cs| - 1], n);
      AddVekilOk(scans, AddVekiller(vs, cs[..|cs| - 1], s.line, s.baglam, s.role, n), cs[|cs| - 1], n);
    }
  }

  /** One claim match keeps the list well formed. */
  lemma AddTalepOk(scans: seq<LineScan>, ts: seq<Talep>, c: Capture, n: nat)
    requires 1 <= n <= |scans| && c in scans[n - 1].talep && TaleplerOk(scans, ts, n)
    ensures TaleplerOk(scans, AddTalep(ts, c, scans[n - 1].line, scans[n - 1].baglam, scans[n - 1].talepTip, n), n)
  {
    var s := scans[n - 1];
    if c.accepted && !HasTalep(ts, c.text) {
      var r := ts + [Talep(c.text, s.talepTip, n, s.baglam, s.line)];
      assert TalepOfLine(scans, r[|ts|], n);
      assert forall i :: 0 <= i < |ts| ==> !SameTalep(r[i], r[|ts|].icerik);
    }
  }

  lemma {:induction false} AddTaleplerOk(scans: seq<LineScan>, ts: seq<Talep>, cs: seq<Capture>, n: nat)
    requires 1 <= n <= |scans| && TaleplerOk(scans, ts, n)
    requires forall k :: 0 <= k < |cs| ==> cs[k] in scans[n - 1].talep
    ensures TaleplerOk(scans, AddTalepler(ts, cs, scans[n - 1].line, scans[n - 1].baglam, scans[n - 1].talepTip, n), n)
    decreases |cs|
  {
    if cs != [] {
      var s := scans[n - 1];
      AddTaleplerOk(scans, ts, cs[..|cs| - 1], n);
      AddTalepOk(scans, AddTalepler(ts, cs[..|cs| - 1], s.line, s.baglam, s.talepTip, n), cs[|cs| - 1], n);
    }
  }

  /** Every stored plaintiff or defendant comes from an accepted match of
      its side's pattern on its own (1-based) line, with that line's
      excerpt as context, and no two names are equal ignoring case. */
  lemma {:induction false} PartiesFromOk(scans: seq<LineScan>, side: Side, n: nat)
    requires n <= |scans|
    ensures PartiesOk(scans, side, PartiesFrom(scans, side, n), n)
  {
    if n > 0 {
      PartiesFromOk(scans, side, n - 1);
      AddPartiesOk(scans, side, PartiesFrom(scans, side, n - 1), PartyCaptures(scans[n - 1], side), n);
    }
  }

  /** Every stored representative comes from an accepted match on its own
      line, carries that line's role, and no two entries share both the
      name (ignoring case) and the role. */
  lemma {:induction false} VekillerFromOk(scans: seq<LineScan>, n: nat)
    requires n <= |scans|
    ensures VekillerOk(scans, VekillerFrom(scans, n), n)
  {
    if n > 0 {
      VekillerFromOk(scans, n - 1);
      AddVekillerOk(scans, VekillerFrom(scans, n - 1), scans[n - 1].vekil, n);
    }
  }

  /** Every stored claim comes from an accepted match on its own line,
      carries that line's type, and no two texts are equal ignoring case. */
  lemma {:induction false} TaleplerFromOk(scans: seq<LineScan>, n: nat)
    requires n <= |scans|
    ensures TaleplerOk(scans, TaleplerFrom(scans, n), n)
  {
    if n > 0 {
      TaleplerFromOk(scans, n - 1);
      AddTaleplerOk(scans, TaleplerFrom(scans, n - 1), scans[n - 1].talep, n);
    }
  }

  /** `b` starts with `a`. */
  predicate Extends<T(==)>(a: seq<T>, b: seq<T>) {
    |a| <= |b| && forall k :: 0 <= k < |a| ==> b[k] == a[k]
  }

  /** Parties: earlier entries are never changed or removed, and every
      accepted match ends up with an entry of that name ignoring case (the
      first one is kept). */
  lemma {:induction false} AddPartiesKeepsFirst(ps: seq<Party>, cs: seq<Capture>, line: string, baglam: string, lineNum: nat)
    ensures var r := AddParties(ps, cs, line, baglam, lineNum);
      Extends(ps, r) && forall c :: c in cs && c.accepted && c.text != "" ==> HasParty(r, c.text)
    decreases |cs|
  {
    if cs != [] {
      var prev := AddParties(ps, cs[..|cs| - 1], line, baglam, lineNum);
      AddPartiesKeepsFirst(ps, cs[..|cs| - 1], line, baglam, lineNum);
      var r := AddParties(ps, cs, line, baglam, lineNum);
      assert Extends(prev, r);
      assert cs == cs[..|cs| - 1] + [cs[|cs| - 1]];
      forall c | c in cs && c.accepted && c.text != ""
        ensures HasParty(r, c.text)
      {
        if c in cs[..|cs| - 1] || HasParty(prev, c.text) {
          HasPartyPrefix(prev, r, c.text);
        } else {
          assert c == cs[|cs| - 1];
          assert SameParty(r[|prev|], c.text);
        }
      }
    }
  }

  /** Representatives: earlier entries stay, and every accepted match ends
      up with an entry of that name (ignoring case) and the role. */
  lemma {:induction false} AddVekillerKeepsFirst(vs: seq<Vekil>, cs: seq<Capture>, line: string, baglam: string, tip: string, lineNum: nat)
    ensures var r := AddVekiller(vs, cs, line, baglam, tip, lineNum);
      Extends(vs, r) && forall c :: c in cs && c.accepted && c.text != "" ==> HasVekil(r, c.text, tip)
    decreases |cs|
  {
    if cs != [] {
      var prev := AddVekiller(vs, cs[..|cs| - 1], line, baglam, tip, lineNum);
      AddVekillerKeepsFirst(vs, cs[..|cs| - 1], line, baglam, tip, lineNum);
      var r := AddVekiller(vs, cs, line, baglam, tip, lineNum);
      assert Extends(prev, r);
      assert cs == cs[..|cs| - 1] + [cs[|cs| - 1]];
      forall c | c in cs && c.accepted && c.text != ""
        ensures HasVekil(r, c.text, tip)
      {
        if c in cs[..|cs| - 1] || HasVekil(prev, c.text, tip) {
          HasVekilPrefix(prev, r, c.text, tip);
        } else {
          assert c == cs[|cs| - 1];
          assert SameVekil(r[|prev|], c.text, tip);
        }
      }
    }
  }

  /** Claims: earlier entries stay, and every accepted match ends up with an
      entry of that text ignoring case. */
  lemma {:induction false} AddTaleplerKeepsFirst(ts: seq<Talep>, cs: seq<Capture>, line: string, baglam: string, tip: string, lineNum: nat)
    ensures var r := AddTalepler(ts, cs, line, baglam, tip, lineNum);
      Extends(ts, r) && forall c :: c in cs && c.accepted && c.text != "" ==> HasTalep(r, c.text)
    decreases |cs|
  {
    if cs != [] {
      var prev := AddTalepler(ts, cs[..|cs| - 1], line, baglam, tip, lineNum);
      AddTaleplerKeepsFirst(ts, cs[..|cs| - 1], line, baglam, tip, lineNum);
      var r := AddTalepler(ts, cs, line, baglam, tip, lineNum);
      assert Extends(prev, r);
      assert cs == cs[..|cs| - 1] + [cs[|cs| - 1]];
      forall c | c in cs && c.accepted && c.text != ""
        ensures HasTalep(r, c.text)
      {
        if c in cs[..|cs| - 1] || HasTalep(prev, c.text) {
          HasTalepPrefix(prev, r, c.text);
        } else {
          assert c == cs[|cs| - 1];
          assert SameTalep(r[|prev|], c.text);
        }
      }
    }
  }

  lemma HasPartyPrefix(ps: seq<Party>, r: seq<Party>, name: string)
    requires Extends(ps, r) && HasParty(ps, name)
    ensures HasParty(r, name)
  {
    var k :| 0 <= k < |ps| && SameParty(ps[k], name);
    assert r[k] == ps[k];
  }

  lemma HasVekilPrefix(vs: seq<Vekil>, r: seq<Vekil>, name: string, tip: string)
    requires Extends(vs, r) && HasVekil(vs, name, tip)
    ensures HasVekil(r, name, tip)
  {
    var k :| 0 <= k < |vs| && SameVekil(vs[k], name, tip);
    assert r[k] == vs[k];
  }

  lemma HasTalepPrefix(ts: seq<Talep>, r: seq<Talep>, icerik: string)
    requires Extends(ts, r) && HasTalep(ts, icerik)
    ensures HasTalep(r, icerik)
  {
    var k :| 0 <= k < |ts| && SameTalep(ts[k], icerik);
    assert r[k] == ts[k];
  }

  /** No accepted plaintiff or defendant match is lost: a match of the
      side's pattern on line `k + 1` has an entry with its name, ignoring
      case, once that line has been read. */
  lemma {:induction false} PartiesFromFinds(scans: seq<LineScan>, side: Side, n: nat, k: nat, c: Capture)
    requires k < n <= |scans| && c in PartyCaptures(scans[k], side) && c.accepted && c.text != ""
    ensures HasParty(PartiesFrom(scans, side, n), c.text)
  {
    var s := scans[n - 1];
    var ps := PartiesFrom(scans, side, n - 1);
    AddPartiesKeepsFirst(ps, PartyCaptures(s, side), s.line, s.baglam, n);
    if k < n - 1 {
      PartiesFromFinds(scans, side, n - 1, k, c);
      HasPartyPrefix(ps, PartiesFrom(scans, side, n), c.text);
    }
  }

  /** No accepted representative match is lost: it has an entry with that
      name (ignoring case) and its line's role. */
  lemma {:induction false} VekillerFromFinds(scans: seq<LineScan>, n: nat, k: nat, c: Capture)
    requires k < n <= |scans| && c in scans[k].vekil && c.accepted && c.text != ""
    ensures HasVekil(VekillerFrom(scans, n), c.text, scans[k].role)
  {
    var s := scans[n - 1];
    var vs := VekillerFrom(scans, n - 1);
    AddVekillerKeepsFirst(vs, s.vekil, s.line, s.baglam, s.role, n);
    if k < n - 1 {
      VekillerFromFinds(scans, n - 1, k, c);
      HasVekilPrefix(vs, VekillerFrom(scans, n), c.text, scans[k].role);
    }
  }

  /** No accepted claim match is lost: it has an entry with that text,
      ignoring case. */
  lemma {:induction false} TaleplerFromFinds(scans: seq<LineScan>, n: nat, k: nat, c: Capture)
    requires k < n <= |scans| && c in scans[k].talep && c.accepted && c.text != ""
    ensures HasTalep(TaleplerFrom(scans, n), c.text)
  {
    var s := scans[n - 1];
    var ts := TaleplerFrom(scans, n - 1);
    AddTaleplerKeepsFirst(ts, s.talep, s.line, s.baglam, s.talepTip, n);
    if k < n - 1 {
      TaleplerFromFinds(scans, n - 1, k, c);
      HasTalepPrefix(ts, TaleplerFrom(scans, n), c.text);
    }
  }

  // ---------------------------------------------------------------------
  // The same properties stated on the text

  lemma {:induction false} CapturesAt(matches: seq<string>, accepts: string -> bool, j: nat)
    requires j < |matches|
    ensures Captures(matches, accepts)[j] == Capture(Trim(matches[j]), accepts(Trim(matches[j])))
    decreases |matches|
  {
    if j < |matches| - 1 {
      CapturesAt(matches[..|matches| - 1], accepts, j);
    }
  }

  /** The match a judged capture comes from. */
  lemma CapturesIn(matches: seq<string>, accepts: string -> bool, c: Capture) returns (m: string)
    requires c in Captures(matches, accepts)
    ensures m in matches && c.text == Trim(m) && c.accepted == accepts(c.text)
  {
    var j :| 0 <= j < |matches| && Captures(matches, accepts)[j] == c;
    CapturesAt(matches, accepts, j);
    m := matches[j];
  }

  /** Every stored plaintiff or defendant: its line number is 1-based, it
      holds its trimmed line and that line's excerpt, and its name is an
      accepted, trimmed match of the side's pattern on that line. */
  lemma PartyOfText(g: Grammar, text: string, side: Side, p: Party)
    requires var lines := Split(text, '\n'); p in PartiesFrom(Scans(g, lines), side, |lines|)
    ensures var lines := Split(text, '\n');
      1 <= p.satirNo <= |lines| && p.satirIcerigi == Trim(lines[p.satirNo - 1])
      && p.baglam == Excerpt(p.satirIcerigi, ContextLength) && AcceptsPartyName(p.isim)
      && exists m :: m in g.party(SideWord(side), p.satirIcerigi) && p.isim == Trim(m)
  {
    var lines := Split(text, '\n');
    var ps := PartiesFrom(Scans(g, lines), side, |lines|);
    PartiesFromOk(Scans(g, lines), side, |lines|);
    var k :| 0 <= k < |ps| && ps[k] == p;
    PartyOfLines(g, lines, side, p);
  }

  lemma PartyOfLines(g: Grammar, lines: seq<string>, side: Side, p: Party)
    requires PartyOfLine(Scans(g, lines), side, p, |lines|)
    ensures 1 <= p.satirNo <= |lines| && p.satirIcerigi == Trim(lines[p.satirNo - 1])
      && p.baglam == Excerpt(p.satirIcerigi, ContextLength) && AcceptsPartyName(p.isim)
      && exists m :: m in g.party(SideWord(side), p.satirIcerigi) && p.isim == Trim(m)
  {
    var j := p.satirNo - 1;
    ScansAt(g, lines, j);
    PartyOfScan(g, lines[j], Scans(g, lines)[j], side, p);
  }

  lemma PartyOfScan(g: Grammar, raw: string, s: LineScan, side: Side, p: Party)
    requires s == ScanLine(g, raw) && p.satirIcerigi == s.line && p.baglam == s.baglam
    requires exists c :: c in PartyCaptures(s, side) && c.accepted && p.isim == c.text
    ensures p.satirIcerigi == Trim(raw) && p.baglam == Excerpt(p.satirIcerigi, ContextLength)
    ensures AcceptsPartyName(p.isim) && exists m :: m in g.party(SideWord(side), p.satirIcerigi) && p.isim == Trim(m)
  {
    var c :| c in PartyCaptures(s, side) && c.accepted && p.isim == c.text;
    var m := CapturesIn(g.party(SideWord(side), p.satirIcerigi), AcceptsPartyName, c);
  }

  /** Every accepted, trimmed match of a side's pattern on any trimmed line
      has an entry of that name, ignoring case, in the side's list. */
  lemma PartyFromText(g: Grammar, text: string, side: Side, k: nat, m: string)
    requires var lines := Split(text, '\n');
      k < |lines| && m in g.party(SideWord(side), Trim(lines[k])) && AcceptsPartyName(Trim(m))
    ensures var lines := Split(text, '\n'); HasParty(PartiesFrom(Scans(g, lines), side, |lines|), Trim(m))
  {
    var lines := Split(text, '\n');
    var matches := g.party(SideWord(side), Trim(lines[k]));
    var j :| 0 <= j < |matches| && matches[j] == m;
    ScansAt(g, lines, k);
    CapturesAt(matches, AcceptsPartyName, j);
    PartiesFromFinds(Scans(g, lines), side, |lines|, k, Capture(Trim(m), true));
  }

  /** Every stored representative: its line, that line's excerpt and role,
      and an accepted, trimmed match of one of the three patterns there. */
  lemma VekilOfText(g: Grammar, text: string, v: Vekil)
    requires var lines := Split(text, '\n'); v in VekillerFrom(Scans(g, lines), |lines|)
    ensures var lines := Split(text, '\n');
      1 <= v.satirNo <= |lines| && v.satirIcerigi == Trim(lines[v.satirNo - 1])
      && v.baglam == Excerpt(v.satirIcerigi, ContextLength) && v.tip == VekilTip(v.satirIcerigi)
      && AcceptsVekilName(v.isim)
      && exists m :: m in VekilCaptures(g, v.satirIcerigi) && v.isim == Trim(m)
  {
    var lines := Split(text, '\n');
    var vs := VekillerFrom(Scans(g, lines), |lines|);
    VekillerFromOk(Scans(g, lines), |lines|);
    var k :| 0 <= k < |vs| && vs[k] == v;
    var j := v.satirNo - 1;
    ScansAt(g, lines, j);
    VekilOfScan(g, lines[j], Scans(g, lines)[j], v);
  }

  lemma VekilOfScan(g: Grammar, raw: string, s: LineScan, v: Vekil)
    requires s == ScanLine(g, raw) && v.satirIcerigi == s.line && v.baglam == s.baglam && v.tip == s.role
    requires exists c :: c in s.vekil && c.accepted && v.isim == c.text
    ensures v.satirIcerigi == Trim(raw) && v.baglam == Excerpt(v.satirIcerigi, ContextLength)
    ensures v.tip == VekilTip(v.satirIcerigi)
    ensures AcceptsVekilName(v.isim) && exists m :: m in VekilCaptures(g, v.satirIcerigi) && v.isim == Trim(m)
  {
    var c :| c in s.vekil && c.accepted && v.isim == c.text;
    var m := CapturesIn(VekilCaptures(g, v.satirIcerigi), AcceptsVekilName, c);
  }

  /** Every accepted, trimmed representative match has an entry of that
      name, ignoring case, with the role of its line. */
  lemma VekilFromText(g: Grammar, text: string, k: nat, m: string)
    requires var lines := Split(text, '\n');
      k < |lines| && m in VekilCaptures(g, Trim(lines[k])) && AcceptsVekilName(Trim(m))
    ensures var lines := Split(text, '\n');
      HasVekil(VekillerFrom(Scans(g, lines), |lines|), Trim(m), VekilTip(Trim(lines[k])))
  {
    var lines := Split(text, '\n');
    var matches := VekilCaptures(g, Trim(lines[k]));
    var j :| 0 <= j < |matches| && matches[j] == m;
    ScansAt(g, lines, k);
    CapturesAt(matches, AcceptsVekilName, j);
    VekillerFromFinds(Scans(g, lines), |lines|, k, Capture(Trim(m), true));
  }

  /** Every stored claim: its line, that line's excerpt and claim type, and
      an accepted, trimmed match of one of the two patterns there. */
  lemma TalepOfText(g: Grammar, text: string, t: Talep)
    requires var lines := Split(text, '\n'); t in TaleplerFrom(Scans(g, lines), |lines|)
    ensures var lines := Split(text, '\n');
      1 <= t.satirNo <= |lines| && t.satirIcerigi == Trim(lines[t.satirNo - 1])
      && t.baglam == Excerpt(t.satirIcerigi, ContextLength) && t.tip == TalepTip(t.satirIcerigi)
      && AcceptsTalep(t.icerik)
      && exists m :: m in TalepCaptures(g, t.satirIcerigi) && t.icerik == Trim(m)
  {
    var lines := Split(text, '\n');
    var ts := TaleplerFrom(Scans(g, lines), |lines|);
    TaleplerFromOk(Scans(g, lines), |lines|);
    var k :| 0 <= k < |ts| && ts[k] == t;
    var j := t.satirNo - 1;
    ScansAt(g, lines, j);
    TalepOfScan(g, lines[j], Scans(g, lines)[j], t);
  }

  lemma TalepOfScan(g: Grammar, raw: string, s: LineScan, t: Talep)
    requires s == ScanLine(g, raw) && t.satirIcerigi == s.line && t.baglam == s.baglam && t.tip == s.talepTip
    requires exists c :: c in s.talep && c.accepted && t.icerik == c.text
    ensures t.satirIcerigi == Trim(raw) && t.baglam == Excerpt(t.satirIcerigi, ContextLength)
    ensures t.tip == TalepTip(t.satirIcerigi)
    ensures AcceptsTalep(t.icerik) && exists m :: m in TalepCaptures(g, t.satirIcerigi) && t.icerik == Trim(m)
  {
    var c :| c in s.talep && c.accepted && t.icerik == c.text;
    var m := CapturesIn(TalepCaptures(g, t.satirIcerigi), AcceptsTalep, c);
  }

  /** Every accepted, trimmed claim match has an entry of that text,
      ignoring case. */
  lemma TalepFromText(g: Grammar, text: string, k: nat, m: string)
    requires var lines := Split(text, '\n');
      k < |lines| && m in TalepCaptures(g, Trim(lines[k])) && AcceptsTalep(Trim(m))
    ensures var lines := Split(text, '\n'); HasTalep(TaleplerFrom(Scans(g, lines), |lines|), Trim(m))
  {
    var lines := Split(text, '\n');
    var matches := TalepCaptures(g, Trim(lines[k]));
    var j :| 0 <= j < |matches| && matches[j] == m;
    ScansAt(g, lines, k);
    CapturesAt(matches, AcceptsTalep, j);
    TaleplerFromFinds(Scans(g, lines), |lines|, k, Capture(Trim(m), true));
  }

  // ---------------------------------------------------------------------
  // The imperative code

  /** The four result arrays that the extractors push into. */
  class Collector {
    var davacilar: seq<Party>
    var davalilar: seq<Party>
    var vekiller: seq<Vekil>
    var talepler: seq<Talep>

    constructor ()
      ensures davacilar == [] && davalilar == [] && vekiller == [] && talepler == []
    {
      davacilar, davalilar, vekiller, talepler := [], [], [], [];
    }

    /** `extractParties(line, lineNum, type, target)`: the target is the
        side's list. */
    method ExtractParties(g: Grammar, line: string, lineNum: nat, side: Side)
      modifies this
      ensures var cs := Captures(g.party(SideWord(side), line), AcceptsPartyName);
        var baglam := Excerpt(line, ContextLength);
        if side == Davaci then
          davacilar == AddParties(old(davacilar), cs, line, baglam, lineNum) && davalilar == old(davalilar)
        else
          davalilar == AddParties(old(davalilar), cs, line, baglam, lineNum) && davacilar == old(davacilar)
      ensures vekiller == old(vekiller) && talepler == old(talepler)
    {
      var matches := g.party(SideWord(side), line);
      var baglam := Excerpt(line, ContextLength);
      if side == Davaci {
        davacilar := ScanParties(davacilar, matches, line, baglam, lineNum);
      } else {
        davalilar := ScanParties(davalilar, matches, line, baglam, lineNum);
      }
    }

    /** `extractVekiller`: the three patterns in order, the role judged on
        the line. */
    method ExtractVekiller(g: Grammar, line: string, lineNum: nat)
      modifies this
      ensures vekiller == AddVekiller(old(vekiller), Captures(VekilCaptures(g, line), AcceptsVekilName),
                                      line, Excerpt(line, ContextLength), VekilTip(line), lineNum)
      ensures davacilar == old(davacilar) && davalilar == old(davalilar) && talepler == old(talepler)
    {
      var tip := VekilTip(line);
      var baglam := Excerpt(line, ContextLength);
      var a, b, c := g.roleVekili(line), g.mudafi(line), g.vekili(line);
      vekiller := ScanVekiller(vekiller, a, line, baglam, tip, lineNum);
      vekiller := ScanVekiller(vekiller, b, line, baglam, tip, lineNum);
      vekiller := ScanVekiller(vekiller, c, line, baglam, tip, lineNum);
      CapturesAppend(a, b, AcceptsVekilName);
      CapturesAppend(a + b, c, AcceptsVekilName);
      AddVekillerAppend(old(vekiller), Captures(a, AcceptsVekilName), Captures(b, AcceptsVekilName), line, baglam, tip, lineNum);
      AddVekillerAppend(old(vekiller), Captures(a + b, AcceptsVekilName), Captures(c, AcceptsVekilName), line, baglam, tip, lineNum);
    }

    /** `extractTalepler`: the two patterns in order, the type judged on the
        line. */
    method ExtractTalepler(g: Grammar, line: string, lineNum: nat)
      modifies this
      ensures talepler == AddTalepler(old(talepler), Captures(TalepCaptures(g, line), AcceptsTalep),
                                      line, Excerpt(line, ContextLength), TalepTip(line), lineNum)
      ensures davacilar == old(davacilar) && davalilar == old(davalilar) && vekiller == old(vekiller)
    {
      var tip := TalepTip(line);
      var baglam := Excerpt(line, ContextLength);
      var a, b := g.talepEdilen(line), g.talepEdilmesi(line);
      talepler := ScanTalepler(talepler, a, line, baglam, tip, lineNum);
      talepler := ScanTalepler(talepler, b, line, baglam, tip, lineNum);
      CapturesAppend(a, b, AcceptsTalep);
      AddTaleplerAppend(old(talepler), Captures(a, AcceptsTalep), Captures(b, AcceptsTalep), line, baglam, tip, lineNum);
    }

    /** The `forEach` callback of `extract`: the four extractors on the
        trimmed line. */
    method ExtractLine(g: Grammar, raw: string, lineNum: nat)
      modifies this
      ensures var s := ScanLine(g, raw);
        davacilar == AddParties(old(davacilar), s.davaci, s.line, s.baglam, lineNum)
        && davalilar == AddParties(old(davalilar), s.davali, s.line, s.baglam, lineNum)
        && vekiller == AddVekiller(old(vekiller), s.vekil, s.line, s.baglam, s.role, lineNum)
        && talepler == AddTalepler(old(talepler), s.talep, s.line, s.baglam, s.talepTip, lineNum)
    {
      var line := Trim(raw);
      ExtractParties(g, line, lineNum, Davaci);
      ExtractParties(g, line, lineNum, Davali);
      ExtractVekiller(g, line, lineNum);
      ExtractTalepler(g, line, lineNum);
    }
  }

  /** The match loop of `extractParties` on the side's list `target`. */
  method ScanParties(target: seq<Party>, matches: seq<string>, line: string, baglam: string, lineNum: nat)
    returns (r: seq<Party>)
    ensures r == AddParties(target, Captures(matches, AcceptsPartyName), line, baglam, lineNum)
  {
    r := target;
    var i := 0;
    while i < |matches|
      invariant 0 <= i <= |matches|
      invariant r == AddParties(target, Captures(matches[..i], AcceptsPartyName), line, baglam, lineNum)
    {
      assert matches[..i + 1][..i] == matches[..i];
      var name := Trim(matches[i]);
      if AcceptsPartyName(name) {
        var exists_ := ContainsParty(r, name);
        if !exists_ {
          r := r + [Party(name, lineNum, baglam, line)];
        }
      }
      i := i + 1;
    }
    assert matches[..i] == matches;
  }

  /** The match loop of one representative pattern; `tip` is the role the
      line gives every match. */
  method ScanVekiller(vs: seq<Vekil>, matches: seq<string>, line: string, baglam: string, tip: string, lineNum: nat)
    returns (r: seq<Vekil>)
    ensures r == AddVekiller(vs, Captures(matches, AcceptsVekilName), line, baglam, tip, lineNum)
  {
    r := vs;
    var i := 0;
    while i < |matches|
      invariant 0 <= i <= |matches|
      invariant r == AddVekiller(vs, Captures(matches[..i], AcceptsVekilName), line, baglam, tip, lineNum)
    {
      assert matches[..i + 1][..i] == matches[..i];
      var name := Trim(matches[i]);
      if AcceptsVekilName(name) {
        var exists_ := ContainsVekil(r, name, tip);
        if !exists_ {
          r := r + [Vekil(name, tip, lineNum, baglam, line)];
        }
      }
      i := i + 1;
    }
    assert matches[..i] == matches;
  }

  /** The match loop of one claim pattern; `tip` is the type the line gives
      every match. */
  method ScanTalepler(ts: seq<Talep>, matches: seq<string>, line: string, baglam: string, tip: string, lineNum: nat)
    returns (r: seq<Talep>)
    ensures r == AddTalepler(ts, Captures(matches, AcceptsTalep), line, baglam, tip, lineNum)
  {
    r := ts;
    var i := 0;
    while i < |matches|
      invariant 0 <= i <= |matches|
      invariant r == AddTalepler(ts, Captures(matches[..i], AcceptsTalep), line, baglam, tip, lineNum)
    {
      assert matches[..i + 1][..i] == matches[..i];
      var talep := Trim(matches[i]);
      if AcceptsTalep(talep) {
        var exists_ := ContainsTalep(r, talep);
        if !exists_ {
          r := r + [Talep(talep, tip, lineNum, baglam, line)];
        }
      }
      i := i + 1;
    }
    assert matches[..i] == matches;
  }

  /** Judging two match lists is judging their concatenation. */
  lemma {:induction false} CapturesAppend(a: seq<string>, b: seq<string>, accepts: string -> bool)
    ensures Captures(a + b, accepts) == Captures(a, accepts) + Captures(b, accepts)
    decreases |b|
  {
    if b == [] {
      assert a + b == a;
    } else {
      assert (a + b)[..|a + b| - 1] == a + b[..|b| - 1];
      CapturesAppend(a, b[..|b| - 1], accepts);
    }
  }

  /** The scan of line `k + 1` is the scan of that line. */
  lemma {:induction false} ScansAt(g: Grammar, lines: seq<string>, k: nat)
    requires k < |lines|
    ensures Scans(g, lines)[k] == ScanLine(g, lines[k])
    decreases |lines|
  {
    if k < |lines| - 1 {
      ScansAt(g, lines[..|lines| - 1], k);
    }
  }

  /** Scanning two match lists one after the other is scanning their
      concatenation. */
  lemma {:induction false} AddVekillerAppend(vs: seq<Vekil>, a: seq<Capture>, b: seq<Capture>, line: string, baglam: string, tip: string, lineNum: nat)
    ensures AddVekiller(AddVekiller(vs, a, line, baglam, tip, lineNum), b, line, baglam, tip, lineNum)
         == AddVekiller(vs, a + b, line, baglam, tip, lineNum)
    decreases |b|
  {
    if b == [] {
      assert a + b == a;
    } else {
      assert (a + b)[..|a + b| - 1] == a + b[..|b| - 1];
      AddVekillerAppend(vs, a, b[..|b| - 1], line, baglam, tip, lineNum);
    }
  }

  lemma {:induction false} AddTaleplerAppend(ts: seq<Talep>, a: seq<Capture>, b: seq<Capture>, line: string, baglam: string, tip: string, lineNum: nat)
    ensures AddTalepler(AddTalepler(ts, a, line, baglam, tip, lineNum), b, line, baglam, tip, lineNum)
         == AddTalepler(ts, a + b, line, baglam, tip, lineNum)
    decreases |b|
  {
    if b == [] {
      assert a + b == a;
    } else {
      assert (a + b)[..|a + b| - 1] == a + b[..|b| - 1];
      AddTaleplerAppend(ts, a, b[..|b| - 1], line, baglam, tip, lineNum);
    }
  }

  /** `target.find(p => p.isim && p.isim.toLowerCase() === name.toLowerCase())` */
  method ContainsParty(ps: seq<Party>, name: string) returns (found: bool)
    ensures found <==> HasParty(ps, name)
  {
    var k := 0;
    while k < |ps|
      invariant 0 <= k <= |ps|
      invariant forall j :: 0 <= j < k ==> !SameParty(ps[j], name)
    {
      if ps[k].isim != "" && ToLower(ps[k].isim) == ToLower(name) {
        return true;
      }
      k := k + 1;
    }
    return false;
  }

  /** The representative find callback: same name ignoring case and same role. */
  method ContainsVekil(vs: seq<Vekil>, name: string, tip: string) returns (found: bool)
    ensures found <==> HasVekil(vs, name, tip)
  {
    var k := 0;
    while k < |vs|
      invariant 0 <= k <= |vs|
      invariant forall j :: 0 <= j < k ==> !SameVekil(vs[j], name, tip)
    {
      if vs[k].isim != "" && ToLower(vs[k].isim) == ToLower(name) && vs[k].tip == tip {
        return true;
      }
      k := k + 1;
    }
    return false;
  }

  /** The claim find callback: same text ignoring case. */
  method ContainsTalep(ts: seq<Talep>, icerik: string) returns (found: bool)
    ensures found <==> HasTalep(ts, icerik)
  {
    var k := 0;
    while k < |ts|
      invariant 0 <= k <= |ts|
      invariant forall j :: 0 <= j < k ==> !SameTalep(ts[j], icerik)
    {
      if ts[k].icerik != "" && ToLower(ts[k].icerik) == ToLower(icerik) {
        return true;
      }
      k := k + 1;
    }
    return false;
  }

  /** `extract(text)`: every line, trimmed and numbered from 1, through the
      four extractors; then the empty lists become null. */
  method Extract(g: Grammar, text: string) returns (r: PartyResult)
    ensures r == ExtractSpec(g, text)
  {
    var lines := Split(text, '\n');
    ghost var scans := Scans(g, lines);
    var c := new Collector();
    var i := 0;
    while i < |lines|
      invariant 0 <= i <= |lines|
      invariant c.davacilar == PartiesFrom(scans, Davaci, i) && c.davalilar == PartiesFrom(scans, Davali, i)
      invariant c.vekiller == VekillerFrom(scans, i) && c.talepler == TaleplerFrom(scans, i)
    {
      ScansAt(g, lines, i);
      c.ExtractLine(g, lines[i], i + 1);
      i := i + 1;
    }
    r := PartyResult(NullIfEmpty(c.davacilar), NullIfEmpty(c.davalilar), NullIfEmpty(c.vekiller), NullIfEmpty(c.talepler));
  }
}
