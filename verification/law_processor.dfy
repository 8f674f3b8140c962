/**
 * Statute-citation extraction from a court decision: each line is matched
 * against three full citation forms in priority order ("NNNN S. NAME
 * [ Madde n ]", "NNNN S. NAME Madde n", "NNNN S. NAME"), falling back to
 * short codes ("TCK m.124"); every citation is merged into a per-law entry
 * whose identity is its repeal (mülga) status together with its number or
 * its case-insensitive name, and whose article numbers are kept unique.
 */
module LawProcessor {
  import opened Base
  import opened Text

  // ---------------------------------------------------------------------
  // Data

  /** One cited article of a law, with the line that cited it first. */
  datatype Article = Article(no: string, baglam: string, satirNo: nat, satirIcerigi: string)

  /** One law entry. `isMulga`/`mulgaInfo` record the repealed form. */
  datatype Law = Law(
    lawNo: Option<string>,
    lawName: Option<string>,
    isMulga: bool,
    mulgaInfo: Option<string>,
    maddeler: seq<Article>)

  /** What a full citation form captured on a line: the law number, the raw
      law name, the `MÜLGA` marker as written (None when absent) and the
      article number (None when the form has none). */
  datatype FullMatch = FullMatch(
    kanunNo: string, kanunAdi: string, mulga: Option<string>, maddeNo: Option<string>)

  /** One hit of the short-code scan: the code as written and the article number. */
  datatype ShortRef = ShortRef(code: string, maddeNo: string)

  /** The four line recognisers. `bracket`, `normal` and `noMadde` stand for
      the anchored full-line citation forms; `shortRefs` yields every hit of
      the global short-code pattern, left to right. */
  datatype Grammar = Grammar(
    bracket: string -> Option<FullMatch>,
    normal: string -> Option<FullMatch>,
    noMadde: string -> Option<FullMatch>,
    shortRefs: string -> seq<ShortRef>)

  /** Length of the stored context excerpt. */
  const ContextLength: nat := 120

  // ---------------------------------------------------------------------
  // Identity of an entry

  /** A law counts as repealed when either repeal field says so. */
  predicate LawIsMulga(l: Law) {
    l.isMulga || l.mulgaInfo.Some?
  }

  /** What decides whether two citations denote the same entry. */
  datatype Key = Key(no: Option<string>, name: Option<string>, mulga: bool)

  function KeyOf(l: Law): Key {
    Key(l.lawNo, l.lawName, LawIsMulga(l))
  }

  /** Same repeal status, and the same non-empty number or the same
      non-empty name ignoring case. */
  predicate SameIdentity(a: Key, b: Key) {
    a.mulga == b.mulga
    && ((Truthy(a.no) && a.no == b.no)
        || (Truthy(a.name) && Truthy(b.name) && SameIgnoringCase(a.name.value, b.name.value)))
  }

  /** The `list.find` callback of addLaw: a number match decides on its own
      (by status); only otherwise is the name compared. */
  predicate Matches(l: Law, no: Option<string>, cleanName: Option<string>, isMulga: bool) {
    if Truthy(no) && l.lawNo == no then LawIsMulga(l) == isMulga
    else if Truthy(cleanName) && Truthy(l.lawName)
            && SameIgnoringCase(l.lawName.value, cleanName.value) then LawIsMulga(l) == isMulga
    else false
  }

  /** The find callback accepts an entry exactly when the entry and the
      citation have the same identity. */
  lemma MatchesIffSameIdentity(l: Law, no: Option<string>, cleanName: Option<string>, isMulga: bool)
    ensures Matches(l, no, cleanName, isMulga) <==> SameIdentity(KeyOf(l), Key(no, cleanName, isMulga))
  {
  }

  predicate HasArticle(ms: seq<Article>, no: string) {
    exists k :: 0 <= k < |ms| && ms[k].no == no
  }

  predicate ArticlesUnique(ms: seq<Article>) {
    forall i, j :: 0 <= i < j < |ms| ==> ms[i].no != ms[j].no
  }

  predicate LawWellFormed(l: Law) {
    l.isMulga == l.mulgaInfo.Some? && ArticlesUnique(l.maddeler)
  }

  /** The invariant every list built by addLaw keeps: each entry's repeal
      flag agrees with its marker, article numbers are unique per entry, and
      no two entries have the same identity. */
  ghost predicate WellFormed(laws: seq<Law>) {
    (forall i :: EntryWellFormed(laws, i)) && (forall i, j :: DistinctEntries(laws, i, j))
  }

  predicate EntryWellFormed(laws: seq<Law>, i: int) {
    0 <= i < |laws| ==> LawWellFormed(laws[i])
  }

  predicate DistinctEntries(laws: seq<Law>, i: int, j: int) {
    0 <= i < j < |laws| ==> !SameIdentity(KeyOf(laws[i]), KeyOf(laws[j]))
  }

  // ---------------------------------------------------------------------
  // addLaw, as a function of the list

  /** `name.trim().replace(/\.$/, '')`, or None for a missing or empty name:
      at most one final dot is removed. */
  function CleanName(name: Option<string>): (r: Option<string>)
    ensures r.None? <==> !Truthy(name)
    ensures r.Some? ==>
      var t := Trim(name.value);
      |t| - 1 <= |r.value| <= |t| && r.value == t[..|r.value|]
      && (|r.value| < |t| <==> (t != "" && t[|t| - 1] == '.'))
  {
    if !Truthy(name) then None
    else
      var t := Trim(name.value);
      Some(if |t| > 0 && t[|t| - 1] == '.' then t[..|t| - 1] else t)
  }

  /** Index of the first entry the find callback accepts. */
  function FindLaw(laws: seq<Law>, no: Option<string>, cleanName: Option<string>, isMulga: bool): (r: Option<nat>)
    ensures r.Some? ==> r.value < |laws|
  {
    if |laws| == 0 then None
    else if Matches(laws[0], no, cleanName, isMulga) then Some(0)
    else match FindLaw(laws[1..], no, cleanName, isMulga)
      case None => None
      case Some(i) => Some(i + 1)
  }

  /** FindLaw yields the first accepted entry, and None only when no entry
      is accepted. */
  lemma {:induction false} FindLawFirst(laws: seq<Law>, no: Option<string>, cleanName: Option<string>, isMulga: bool)
    ensures var r := FindLaw(laws, no, cleanName, isMulga);
      (r.Some? ==> r.value < |laws| && Matches(laws[r.value], no, cleanName, isMulga)
                   && forall k :: 0 <= k < r.value ==> !Matches(laws[k], no, cleanName, isMulga))
      && (r.None? ==> forall k :: 0 <= k < |laws| ==> !Matches(laws[k], no, cleanName, isMulga))
  {
    if |laws| > 0 && !Matches(laws[0], no, cleanName, isMulga) {
      FindLawFirst(laws[1..], no, cleanName, isMulga);
      forall k | 1 <= k < |laws| ensures laws[k] == laws[1..][k - 1] { }
    }
  }

  /** The article object addLaw stores. */
  function MakeArticle(no: string, line: string, lineNum: nat): (a: Article)
    ensures a.no == no && a.satirNo == lineNum && a.satirIcerigi == Trim(line)
    ensures |a.satirIcerigi| <= ContextLength ==> a.baglam == a.satirIcerigi
    ensures |a.satirIcerigi| > ContextLength ==>
      a.baglam == a.satirIcerigi[..ContextLength] + "..."
  {
    var t := Trim(line);
    var b := Excerpt(t, ContextLength);
    assert |t| > ContextLength ==> b == t[..ContextLength] + "..." by {
      if |t| > ContextLength {
        assert b[..ContextLength] == t[..ContextLength] && b[ContextLength..] == "...";
        assert b == b[..ContextLength] + b[ContextLength..];
      }
    }
    Article(no, b, lineNum, t)
  }

  function NewLaw(no: Option<string>, cleanName: Option<string>, mulgaInfo: Option<string>): Law {
    Law(no, cleanName, mulgaInfo.Some?, mulgaInfo, [])
  }

  /** Record the repeal marker when the entry has none yet. */
  function UpdateMulga(l: Law, mulgaInfo: Option<string>): Law {
    if Truthy(mulgaInfo) && !Truthy(l.mulgaInfo) then l.(isMulga := true, mulgaInfo := mulgaInfo) else l
  }

  /** Append the article unless the entry already has that number. */
  function AddArticle(l: Law, madde: Option<string>, line: string, lineNum: nat): Law {
    if Truthy(madde) && !HasArticle(l.maddeler, madde.value)
    then l.(maddeler := l.maddeler + [MakeArticle(madde.value, line, lineNum)])
    else l
  }

  /** The articles a call adds to its entry. */
  function NewArticles(ms: seq<Article>, madde: Option<string>, line: string, lineNum: nat): seq<Article> {
    if Truthy(madde) && !HasArticle(ms, madde.value) then [MakeArticle(madde.value, line, lineNum)] else []
  }

  /** The index of the entry a call updates: the first accepted one, or a new
      entry at the end. */
  function Target(laws: seq<Law>, no: Option<string>, name: Option<string>, mulgaInfo: Option<string>): nat {
    match FindLaw(laws, no, CleanName(name), mulgaInfo.Some?)
    case Some(i) => i
    case None => |laws|
  }

  /** `addLaw(list, no, name, madde, lineContent, lineNum, mulgaInfo)`. */
  function AddLawSpec(laws: seq<Law>, no: Option<string>, name: Option<string>, madde: Option<string>,
                      line: string, lineNum: nat, mulgaInfo: Option<string>): seq<Law>
  {
    var cleanName := CleanName(name);
    match FindLaw(laws, no, cleanName, mulgaInfo.Some?)
    case Some(i) => laws[i := AddArticle(UpdateMulga(laws[i], mulgaInfo), madde, line, lineNum)]
    case None => laws + [AddArticle(NewLaw(no, cleanName, mulgaInfo), madde, line, lineNum)]
  }

  // ---------------------------------------------------------------------
  // Properties of addLaw

  /** A citation is merged into an existing entry (the list keeps its
      length) exactly when some entry has the same identity; otherwise one
      entry is appended and every earlier entry is left as it was. */
  lemma AddLawMergeIff(laws: seq<Law>, no: Option<string>, name: Option<string>, madde: Option<string>,
                       line: string, lineNum: nat, mulgaInfo: Option<string>)
    ensures var r := AddLawSpec(laws, no, name, madde, line, lineNum, mulgaInfo);
      var probe := Key(no, CleanName(name), mulgaInfo.Some?);
      (|r| == |laws| <==> exists j :: 0 <= j < |laws| && SameIdentity(KeyOf(laws[j]), probe))
      && (|r| == |laws| || (|r| == |laws| + 1 && r[..|laws|] == laws))
  {
    var cleanName := CleanName(name);
    var probe := Key(no, cleanName, mulgaInfo.Some?);
    var r := AddLawSpec(laws, no, name, madde, line, lineNum, mulgaInfo);
    FindLawFirst(laws, no, cleanName, mulgaInfo.Some?);
    match FindLaw(laws, no, cleanName, mulgaInfo.Some?)
    case Some(i) =>
      MatchesIffSameIdentity(laws[i], no, cleanName, mulgaInfo.Some?);
    case None =>
      forall j | 0 <= j < |laws| ensures !SameIdentity(KeyOf(laws[j]), probe) {
        MatchesIffSameIdentity(laws[j], no, cleanName, mulgaInfo.Some?);
      }
  }

  /** The entry a citation lands in: it has the citation's repeal status,
      its number and name are those it had (or those of the citation, for a
      new entry), its articles are the old ones followed by the cited article
      when that number is new, and every other entry is unchanged. */
  lemma AddLawTarget(laws: seq<Law>, no: Option<string>, name: Option<string>, madde: Option<string>,
                     line: string, lineNum: nat, mulgaInfo: Option<string>)
    ensures var r := AddLawSpec(laws, no, name, madde, line, lineNum, mulgaInfo);
      var t := Target(laws, no, name, mulgaInfo);
      var old_ := if t < |laws| then laws[t] else NewLaw(no, CleanName(name), mulgaInfo);
      t < |r|
      && LawIsMulga(r[t]) == mulgaInfo.Some?
      && r[t].lawNo == old_.lawNo && r[t].lawName == old_.lawName
      && r[t].maddeler == old_.maddeler + NewArticles(old_.maddeler, madde, line, lineNum)
      && (Truthy(madde) ==> HasArticle(r[t].maddeler, madde.value))
      && (forall j :: 0 <= j < |laws| && j != t ==> r[j] == laws[j])
  {
    var r := AddLawSpec(laws, no, name, madde, line, lineNum, mulgaInfo);
    var t := Target(laws, no, name, mulgaInfo);
    var old_ := if t < |laws| then laws[t] else NewLaw(no, CleanName(name), mulgaInfo);
    FindLawFirst(laws, no, CleanName(name), mulgaInfo.Some?);
    if Truthy(madde) && HasArticle(old_.maddeler, madde.value) {
      var k :| 0 <= k < |old_.maddeler| && old_.maddeler[k].no == madde.value;
      assert r[t].maddeler[k].no == madde.value;
    } else if Truthy(madde) {
      assert r[t].maddeler[|old_.maddeler|].no == madde.value;
    }
  }

  /** Repealed and in-force forms never merge: a call leaves every entry of
      the other repeal status untouched. */
  lemma RepealedNeverMerges(laws: seq<Law>, no: Option<string>, name: Option<string>, madde: Option<string>,
                            line: string, lineNum: nat, mulgaInfo: Option<string>)
    ensures var r := AddLawSpec(laws, no, name, madde, line, lineNum, mulgaInfo);
      forall j :: 0 <= j < |laws| && LawIsMulga(laws[j]) != mulgaInfo.Some? ==> r[j] == laws[j]
  {
    AddLawTarget(laws, no, name, madde, line, lineNum, mulgaInfo);
    FindLawFirst(laws, no, CleanName(name), mulgaInfo.Some?);
  }

  lemma UpdatedEntryWellFormed(l: Law, madde: Option<string>, line: string, lineNum: nat, mulgaInfo: Option<string>)
    requires LawWellFormed(l) && LawIsMulga(l) == mulgaInfo.Some?
    ensures var u := AddArticle(UpdateMulga(l, mulgaInfo), madde, line, lineNum);
      LawWellFormed(u) && KeyOf(u) == KeyOf(l)
  {
    var m := UpdateMulga(l, mulgaInfo);
    var u := AddArticle(m, madde, line, lineNum);
    if Truthy(madde) && !HasArticle(m.maddeler, madde.value) {
      forall i | 0 <= i < |m.maddeler| ensures u.maddeler[i].no != madde.value {
      }
    }
  }

  /** addLaw keeps the list well formed. */
  lemma AddLawPreservesWellFormed(laws: seq<Law>, no: Option<string>, name: Option<string>, madde: Option<string>,
                                  line: string, lineNum: nat, mulgaInfo: Option<string>)
    requires WellFormed(laws)
    ensures WellFormed(AddLawSpec(laws, no, name, madde, line, lineNum, mulgaInfo))
  {
    var cleanName := CleanName(name);
    var isMulga := mulgaInfo.Some?;
    var r := AddLawSpec(laws, no, name, madde, line, lineNum, mulgaInfo);
    FindLawFirst(laws, no, cleanName, isMulga);
    match FindLaw(laws, no, cleanName, isMulga)
    case Some(i) =>
      assert EntryWellFormed(laws, i);
      UpdatedEntryWellFormed(laws[i], madde, line, lineNum, mulgaInfo);
      forall j ensures EntryWellFormed(r, j) {
        assert EntryWellFormed(laws, j);
      }
      forall j, k ensures DistinctEntries(r, j, k) {
        assert DistinctEntries(laws, j, k);
      }
    case None =>
      var n := NewLaw(no, cleanName, mulgaInfo);
      UpdatedEntryWellFormed(n, madde, line, lineNum, mulgaInfo);
      forall j ensures EntryWellFormed(r, j) {
        assert EntryWellFormed(laws, j);
      }
      forall j, k ensures DistinctEntries(r, j, k) {
        assert DistinctEntries(laws, j, k);
        if 0 <= j < k == |laws| {
          MatchesIffSameIdentity(laws[j], no, cleanName, isMulga);
        }
      }
  }

  // ---------------------------------------------------------------------
  // parse, as a function of the lines

  /** A full form contributes only when its trimmed name is longer than one
      character. */
  predicate Applies(m: Option<FullMatch>) {
    m.Some? && |Trim(m.value.kanunAdi)| > 1
  }

  function AddFull(laws: seq<Law>, m: FullMatch, madde: Option<string>, line: string, lineNum: nat): seq<Law> {
    AddLawSpec(laws, Some(m.kanunNo), Some(Trim(m.kanunAdi)), madde, line, lineNum, m.mulga)
  }

  function AddShortRef(laws: seq<Law>, h: ShortRef, line: string, lineNum: nat): seq<Law> {
    AddLawSpec(laws, None, Some(h.code), Some(h.maddeNo), line, lineNum, None)
  }

  /** The short-code hits of a line, added in order. */
  function AddShortRefs(laws: seq<Law>, hits: seq<ShortRef>, line: string, lineNum: nat): seq<Law>
    decreases |hits|
  {
    if hits == [] then laws
    else AddShortRef(AddShortRefs(laws, hits[..|hits| - 1], line, lineNum), hits[|hits| - 1], line, lineNum)
  }

  /** One line: the first full form that applies, else every short code. */
  function LineStep(g: Grammar, laws: seq<Law>, line: string, lineNum: nat): seq<Law> {
    if Applies(g.bracket(line)) then AddFull(laws, g.bracket(line).value, g.bracket(line).value.maddeNo, line, lineNum)
    else if Applies(g.normal(line)) then AddFull(laws, g.normal(line).value, g.normal(line).value.maddeNo, line, lineNum)
    else if Applies(g.noMadde(line)) then AddFull(laws, g.noMadde(line).value, None, line, lineNum)
    else AddShortRefs(laws, g.shortRefs(line), line, lineNum)
  }

  /** The list after the first `n` lines. */
  function ParseFrom(g: Grammar, lines: seq<string>, n: nat): seq<Law>
    requires n <= |lines|
  {
    if n == 0 then [] else LineStep(g, ParseFrom(g, lines, n - 1), lines[n - 1], n)
  }

  /** Whatever the lines, no two entries of the list share an identity and
      no entry repeats an article number. */
  lemma {:induction false} ParseWellFormed(g: Grammar, lines: seq<string>, n: nat)
    requires n <= |lines|
    ensures WellFormed(ParseFrom(g, lines, n))
  {
    if n > 0 {
      ParseWellFormed(g, lines, n - 1);
      LineStepPreservesWellFormed(g, ParseFrom(g, lines, n - 1), lines[n - 1], n);
    }
  }

  function ParseSpec(g: Grammar, text: string): seq<Law> {
    var lines := Split(text, '\n');
    ParseFrom(g, lines, |lines|)
  }

  // ---------------------------------------------------------------------
  // Properties of parse

  /** The per-line cascade: a form is used only when every form before it
      failed to apply; the short codes are scanned only when no full form
      applied, and then the full forms play no part. */
  lemma LineCascade(g: Grammar, laws: seq<Law>, line: string, lineNum: nat)
    ensures Applies(g.bracket(line)) ==>
      LineStep(g, laws, line, lineNum) == AddFull(laws, g.bracket(line).value, g.bracket(line).value.maddeNo, line, lineNum)
    ensures !Applies(g.bracket(line)) && Applies(g.normal(line)) ==>
      LineStep(g, laws, line, lineNum) == AddFull(laws, g.normal(line).value, g.normal(line).value.maddeNo, line, lineNum)
    ensures !Applies(g.bracket(line)) && !Applies(g.normal(line)) && Applies(g.noMadde(line)) ==>
      LineStep(g, laws, line, lineNum) == AddFull(laws, g.noMadde(line).value, None, line, lineNum)
    ensures !Applies(g.bracket(line)) && !Applies(g.normal(line)) && !Applies(g.noMadde(line)) ==>
      LineStep(g, laws, line, lineNum) == AddShortRefs(laws, g.shortRefs(line), line, lineNum)
  {
  }

  /** A line on which no form applies and no short code occurs changes nothing. */
  lemma QuietLine(g: Grammar, laws: seq<Law>, line: string, lineNum: nat)
    requires !Applies(g.bracket(line)) && !Applies(g.normal(line)) && !Applies(g.noMadde(line))
    requires g.shortRefs(line) == []
    ensures LineStep(g, laws, line, lineNum) == laws
  {
  }

  /** Empty text gives no laws, for recognisers that find nothing in an
      empty line (as the citation patterns, which all need a digit). */
  lemma ParseEmpty(g: Grammar)
    requires g.bracket("") == None && g.normal("") == None && g.noMadde("") == None
    requires g.shortRefs("") == []
    ensures ParseSpec(g, "") == []
  {
    assert Split("", '\n') == [""];
    assert ParseFrom(g, [""], 1) == LineStep(g, [], "", 1);
    assert AddShortRefs([], [], "", 1) == [];
  }

  lemma {:induction false} ShortRefsPreserveWellFormed(laws: seq<Law>, hits: seq<ShortRef>, line: string, lineNum: nat)
    requires WellFormed(laws)
    ensures WellFormed(AddShortRefs(laws, hits, line, lineNum))
    decreases |hits|
  {
    if hits != [] {
      var h := hits[|hits| - 1];
      ShortRefsPreserveWellFormed(laws, hits[..|hits| - 1], line, lineNum);
      AddLawPreservesWellFormed(AddShortRefs(laws, hits[..|hits| - 1], line, lineNum),
                                None, Some(h.code), Some(h.maddeNo), line, lineNum, None);
    }
  }

  lemma LineStepPreservesWellFormed(g: Grammar, laws: seq<Law>, line: string, lineNum: nat)
    requires WellFormed(laws)
    ensures WellFormed(LineStep(g, laws, line, lineNum))
  {
    var b, n, z := g.bracket(line), g.normal(line), g.noMadde(line);
    if Applies(b) {
      AddLawPreservesWellFormed(laws, Some(b.value.kanunNo), Some(Trim(b.value.kanunAdi)), b.value.maddeNo, line, lineNum, b.value.mulga);
    } else if Applies(n) {
      AddLawPreservesWellFormed(laws, Some(n.value.kanunNo), Some(Trim(n.value.kanunAdi)), n.value.maddeNo, line, lineNum, n.value.mulga);
    } else if Applies(z) {
      AddLawPreservesWellFormed(laws, Some(z.value.kanunNo), Some(Trim(z.value.kanunAdi)), None, line, lineNum, z.value.mulga);
    } else {
      ShortRefsPreserveWellFormed(laws, g.shortRefs(line), line, lineNum);
    }
  }

  /** Every article anywhere in the list. */
  ghost function AllArticles(laws: seq<Law>): set<Article> {
    set i, k | 0 <= i < |laws| && 0 <= k < |laws[i].maddeler| :: laws[i].maddeler[k]
  }

  /** An article stored for one of the first `n` lines: its 1-based line
      number, that line trimmed, and the excerpt of it. */
  predicate ArticleOfLine(a: Article, lines: seq<string>, n: nat) {
    1 <= a.satirNo <= n && a.satirNo <= |lines|
    && a.satirIcerigi == Trim(lines[a.satirNo - 1])
    && a.baglam == Excerpt(a.satirIcerigi, ContextLength)
  }

  ghost predicate ArticlesOfLines(laws: seq<Law>, lines: seq<string>, n: nat) {
    forall a :: a in AllArticles(laws) ==> ArticleOfLine(a, lines, n)
  }

  lemma ArticlesOfLinesGrow(laws: seq<Law>, lines: seq<string>, n: nat)
    requires ArticlesOfLines(laws, lines, n)
    ensures ArticlesOfLines(laws, lines, n + 1)
  {
  }

  /** addLaw adds no article except the one for its own line. */
  lemma AddLawArticles(laws: seq<Law>, no: Option<string>, name: Option<string>, madde: Option<string>,
                       line: string, lineNum: nat, mulgaInfo: Option<string>)
    ensures forall a :: a in AllArticles(AddLawSpec(laws, no, name, madde, line, lineNum, mulgaInfo)) ==>
      a in AllArticles(laws) || (Truthy(madde) && a == MakeArticle(madde.value, line, lineNum))
  {
    var r := AddLawSpec(laws, no, name, madde, line, lineNum, mulgaInfo);
    var t := Target(laws, no, name, mulgaInfo);
    AddLawTarget(laws, no, name, madde, line, lineNum, mulgaInfo);
    AddLawMergeIff(laws, no, name, madde, line, lineNum, mulgaInfo);
    forall a | a in AllArticles(r)
      ensures a in AllArticles(laws) || (Truthy(madde) && a == MakeArticle(madde.value, line, lineNum))
    {
      var i, k :| 0 <= i < |r| && 0 <= k < |r[i].maddeler| && r[i].maddeler[k] == a;
      if i != t {
        assert r[i] == laws[i];
      } else if t < |laws| && k < |laws[t].maddeler| {
        assert a == laws[t].maddeler[k];
      }
    }
  }

  /** The same, for a call made while processing line `lineNum` of `lines`. */
  lemma AddLawArticlesOfLines(laws: seq<Law>, no: Option<string>, name: Option<string>, madde: Option<string>,
                              lines: seq<string>, lineNum: nat, mulgaInfo: Option<string>)
    requires 1 <= lineNum <= |lines| && ArticlesOfLines(laws, lines, lineNum)
    ensures ArticlesOfLines(AddLawSpec(laws, no, name, madde, lines[lineNum - 1], lineNum, mulgaInfo), lines, lineNum)
  {
    var line := lines[lineNum - 1];
    AddLawArticles(laws, no, name, madde, line, lineNum, mulgaInfo);
    if Truthy(madde) {
      var a := MakeArticle(madde.value, line, lineNum);
      assert ArticleOfLine(a, lines, lineNum);
    }
  }

  lemma {:induction false} ShortRefsArticles(laws: seq<Law>, hits: seq<ShortRef>, lines: seq<string>, lineNum: nat)
    requires 1 <= lineNum <= |lines| && ArticlesOfLines(laws, lines, lineNum)
    ensures ArticlesOfLines(AddShortRefs(laws, hits, lines[lineNum - 1], lineNum), lines, lineNum)
    decreases |hits|
  {
    if hits != [] {
      var h := hits[|hits| - 1];
      var line := lines[lineNum - 1];
      var prev := AddShortRefs(laws, hits[..|hits| - 1], line, lineNum);
      ShortRefsArticles(laws, hits[..|hits| - 1], lines, lineNum);
      AddLawArticlesOfLines(prev, None, Some(h.code), Some(h.maddeNo), lines, lineNum, None);
    }
  }

  lemma LineStepArticles(g: Grammar, laws: seq<Law>, lines: seq<string>, lineNum: nat)
    requires 1 <= lineNum <= |lines| && ArticlesOfLines(laws, lines, lineNum)
    ensures ArticlesOfLines(LineStep(g, laws, lines[lineNum - 1], lineNum), lines, lineNum)
  {
    var line := lines[lineNum - 1];
    var b, n, z := g.bracket(line), g.normal(line), g.noMadde(line);
    if Applies(b) {
      AddLawArticlesOfLines(laws, Some(b.value.kanunNo), Some(Trim(b.value.kanunAdi)), b.value.maddeNo, lines, lineNum, b.value.mulga);
    } else if Applies(n) {
      AddLawArticlesOfLines(laws, Some(n.value.kanunNo), Some(Trim(n.value.kanunAdi)), n.value.maddeNo, lines, lineNum, n.value.mulga);
    } else if Applies(z) {
      AddLawArticlesOfLines(laws, Some(z.value.kanunNo), Some(Trim(z.value.kanunAdi)), None, lines, lineNum, z.value.mulga);
    } else {
      ShortRefsArticles(laws, g.shortRefs(line), lines, lineNum);
    }
  }

  lemma GrowThenStep(g: Grammar, laws: seq<Law>, lines: seq<string>, n: nat)
    requires 1 <= n <= |lines| && ArticlesOfLines(laws, lines, n - 1)
    ensures ArticlesOfLines(LineStep(g, laws, lines[n - 1], n), lines, n)
  {
    ArticlesOfLinesGrow(laws, lines, n - 1);
    LineStepArticles(g, laws, lines, n);
  }

  /** Every stored article carries the 1-based number of a line among the
      first `n`, that line trimmed, and the excerpt of it. */
  lemma {:induction false} ParseArticles(g: Grammar, lines: seq<string>, n: nat)
    requires n <= |lines|
    ensures ArticlesOfLines(ParseFrom(g, lines, n), lines, n)
  {
    if n > 0 {
      ParseArticles(g, lines, n - 1);
      GrowThenStep(g, ParseFrom(g, lines, n - 1), lines, n);
    }
  }

  // ---------------------------------------------------------------------
  // The imperative code

  /** The `laws` array that parse fills and addLaw updates in place. */
  class LawList {
    var items: seq<Law>

    constructor ()
      ensures items == []
    {
      items := [];
    }

    /** `addLaw`: find or create the entry, record the repeal marker, add
        the article unless already present. */
    method AddLaw(no: Option<string>, name: Option<string>, madde: Option<string>,
                  lineContent: string, lineNum: nat, mulgaInfo: Option<string>)
      modifies this
      ensures items == AddLawSpec(old(items), no, name, madde, lineContent, lineNum, mulgaInfo)
    {
      var cleanName := CleanName(name);
      var isMulga := mulgaInfo.Some?;
      var found := FindIndex(items, no, cleanName, isMulga);
      var law := if found.Some? then items[found.value] else NewLaw(no, cleanName, mulgaInfo);
      if Truthy(mulgaInfo) && !Truthy(law.mulgaInfo) {
        law := law.(isMulga := true, mulgaInfo := mulgaInfo);
      }
      if Truthy(madde) {
        var present := ContainsArticle(law.maddeler, madde.value);
        if !present {
          law := law.(maddeler := law.maddeler + [MakeArticle(madde.value, lineContent, lineNum)]);
        }
      }
      if found.Some? {
        items := items[found.value := law];
      } else {
        items := items + [law];
      }
    }
  }

  /** `list.find(...)` with addLaw's callback, as an index. */
  method FindIndex(laws: seq<Law>, no: Option<string>, cleanName: Option<string>, isMulga: bool)
    returns (found: Option<nat>)
    ensures found == FindLaw(laws, no, cleanName, isMulga)
  {
    FindLawFirst(laws, no, cleanName, isMulga);
    var k := 0;
    while k < |laws|
      invariant 0 <= k <= |laws|
      invariant forall j :: 0 <= j < k ==> !Matches(laws[j], no, cleanName, isMulga)
    {
      if Matches(laws[k], no, cleanName, isMulga) {
        return Some(k);
      }
      k := k + 1;
    }
    return None;
  }

  /** `law.maddeler.find(item => item.no === madde)`, as a boolean. */
  method ContainsArticle(ms: seq<Article>, no: string) returns (present: bool)
    ensures present <==> HasArticle(ms, no)
  {
    present := false;
    var i := 0;
    while i < |ms| && !present
      invariant 0 <= i <= |ms|
      invariant present <==> HasArticle(ms[..i], no)
    {
      present := ms[i].no == no;
      assert ms[..i + 1] == ms[..i] + [ms[i]];
      i := i + 1;
    }
    assert !present ==> ms[..i] == ms;
    assert present ==> HasArticle(ms, no) by {
      if present {
        var k :| 0 <= k < i && ms[..i][k].no == no;
        assert ms[k].no == no;
      }
    }
  }

  /** One full-form block of the callback: the citation is added only when
      the form matched and its trimmed name is longer than one character. */
  method TryFullForm(list: LawList, m: Option<FullMatch>, withArticle: bool, line: string, lineNum: nat)
    returns (processed: bool)
    modifies list
    ensures processed == Applies(m)
    ensures processed ==>
      list.items == AddFull(old(list.items), m.value, if withArticle then m.value.maddeNo else None, line, lineNum)
    ensures !processed ==> list.items == old(list.items)
  {
    processed := false;
    if m.Some? {
      var lawName := Trim(m.value.kanunAdi);
      if |lawName| > 1 {
        list.AddLaw(Some(m.value.kanunNo), Some(lawName), if withArticle then m.value.maddeNo else None,
                    line, lineNum, m.value.mulga);
        processed := true;
      }
    }
  }

  /** One pass of the `lines.forEach` callback. */
  method ProcessLine(list: LawList, g: Grammar, line: string, lineNum: nat)
    modifies list
    ensures list.items == LineStep(g, old(list.items), line, lineNum)
  {
    var isProcessed := TryFullForm(list, g.bracket(line), true, line, lineNum);
    if !isProcessed {
      isProcessed := TryFullForm(list, g.normal(line), true, line, lineNum);
    }
    if !isProcessed {
      isProcessed := TryFullForm(list, g.noMadde(line), false, line, lineNum);
    }
    if !isProcessed {
      var hits := g.shortRefs(line);
      var k := 0;
      while k < |hits|
        invariant 0 <= k <= |hits|
        invariant list.items == AddShortRefs(old(list.items), hits[..k], line, lineNum)
      {
        list.AddLaw(None, Some(hits[k].code), Some(hits[k].maddeNo), line, lineNum, None);
        assert hits[..k + 1][..k] == hits[..k];
        k := k + 1;
      }
      assert hits[..k] == hits;
    }
  }

  /** `parse(text)`: split into lines and process each with its 1-based
      number. The result is well formed whatever the text. */
  method Parse(g: Grammar, text: string) returns (laws: seq<Law>)
    ensures laws == ParseSpec(g, text)
    ensures WellFormed(laws)
  {
    var list := new LawList();
    var lines := Split(text, '\n');
    var i := 0;
    while i < |lines|
      invariant 0 <= i <= |lines|
      invariant list.items == ParseFrom(g, lines, i)
    {
      ProcessLine(list, g, lines[i], i + 1);
      i := i + 1;
    }
    laws := list.items;
    ParseWellFormed(g, lines, |lines|);
  }
}
