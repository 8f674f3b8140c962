# İçtihat parser — a Dafny model

This project models the analysis core of *ictihat-programi-parser*. The
program reads the plain text of a Turkish court decision (içtihat) or of a
statute and produces structured records:

- **Law citations** (`mevzuat`). Each line is tried against three full
  citation forms and then a short-code scan. Citations are merged by a
  repeal-aware identity, and the articles of a law are deduplicated.
- **The statute tree.** The text becomes kitap / bölüm / kısım / madde /
  fıkra / bent / alt bent. This is a state machine that opens default
  containers, appends continuation lines to the innermost open node, and
  ends with a cleanup pass. It is driven by small line recognisers
  (`detectKitap`, `detectMadde`, `extractTarih`, …).
- **Parties, representatives and claims.** These are collected line by
  line, with case-insensitive deduplication. A representative gets a role
  and a claim gets a type.
- **Outcome flags.** Each of ten outcome flags (bozma, onama, red, HAGB, …)
  comes with the first line that shows it.
- **Decision identity** (`kimlik`): court, chamber, case and decision
  numbers (with their base and suffix), date, subject and crime names, each
  with its sentinel default.
- **Concepts, tone and statistics.** The dictionary concepts found in the
  text, the tone and style scores, and the text statistics.
- **The orchestrator.** It returns `null` for a blank text and otherwise
  builds one record from all the extractors.
- **The dictionary store** that the concept and tone analyses read.

## How the model is built

Each JavaScript module is one Dafny module.

- **Imperative code is modelled imperatively.** The list that `addLaw`
  updates is a class with a `seq` field. The result arrays of the party
  extractor are the fields of a `Collector` class. The dictionary store is
  a class with one field. Loops are `while` loops.
- **Most methods are proved equal to a specification function.** The
  properties are then proved as lemmas about those functions. This holds
  for `LawText.Parse`, `LawProcessor.Parse`, `Parties.Extract`,
  `Keywords.Extract`, `Sentiment.Analyze`, `Meta.ExtractSucAdlari`,
  `LegalLogic.FindPattern` and their loop helpers. `LegalLogic.RunCheck`,
  `LegalLogic.Analyze` and `Analyzer.Analyze` are specified field by
  field instead: each flag and detail, and each record field, is stated
  in terms of the specification function of its own extractor.
- **Pure code is modelled as functions.**

Regular expressions are handled in two ways:

- **Simple recognisers are written out as scanners over `seq<char>`.**
  These cover the statute-structure recognisers, the crime-name line
  filter and the header-marker search. The scanners follow JavaScript's
  rules:
  - greedy and lazy quantifiers, with backtracking where it changes the
    result;
  - `^`/`$` anchoring;
  - `\s` as JavaScript's whitespace class;
  - non-unicode `/i` case folding, approximated as described below.
- **Complex patterns are left abstract**, as function-valued parameters of
  a grammar record. These are the citation forms, the party-name captures,
  the court-name pattern, and the patterns built at run time from
  dictionary words. The model then proves what the surrounding code does
  with whatever such a pattern returns.

The model keeps these behaviours of the source as they are:

- `detectMadde`'s case-sensitive "Madde n" pattern can never decide.
  `LawStructure.MaddeTitleCaseUnreachable` proves it.
- `detectAltBent`'s numeric form never reaches the statute parser, because
  `detectFikra` is tried first. `LawStructure.AltBentNumericShadowed`
  proves it.
- The crime-name filter's `/Mahkemesi/i` does not match the capital `İ`
  under non-unicode case folding. So a line such as "ASLİYE CEZA
  MAHKEMESİ" passes as a crime name. For the same reason, "İÇTİHAT METNİ"
  does not end the header.
- The sentiment analysis tests only `!indicators`, so an empty indicator
  object gives the tone "Nötr" with the style "Operasyonel".

## Model

| member | source | states |
|---|---|---|
| Config.DictionaryStore.constructor | js/config.js:4 | The initial dictionary is the empty word list with an empty indicator object. |
| Config.DictionaryStore.SetLegalDictionary | js/config.js:6-8 | The whole stored value is replaced by the argument; nothing of the previous value survives. |
| Config.DictionaryStore.GetLegalDictionary | js/config.js:10-12 | Returns exactly the stored value and changes nothing. |
| Config.SetThenGet | js/config.js:6-12 | A get right after a set returns the value that was set, whatever was stored before, and a second get returns it again. |
| LawProcessor.MatchesIffSameIdentity | js/law-processor.js:95-111 | The find callback accepts an entry exactly when the repeal status is equal and either the given non-empty number equals the entry's, or the names are equal ignoring case. |
| LawProcessor.CleanName | js/law-processor.js:90 | A missing or empty name gives null. Otherwise the result is the trimmed name with one trailing '.' removed. |
| LawProcessor.FindLawFirst | js/law-processor.js:95-111 | The search yields the first entry the callback accepts, and null exactly when no entry is accepted. |
| LawProcessor.MakeArticle | js/law-processor.js:134-139 | A stored article holds its number, the line number, the trimmed line, and that line's first 120 characters (with "..." when longer). |
| LawProcessor.AddLawMergeIff | js/law-processor.js:95-122 | A citation is merged into an existing entry (the list length stays) exactly when some entry has the same identity. Otherwise one new entry is appended at the end. |
| LawProcessor.AddLawTarget | js/law-processor.js:113-141 | The entry a citation lands in has the citation's repeal status and contains its article when one is given. Every other entry is unchanged. |
| LawProcessor.RepealedNeverMerges | js/law-processor.js:94-111 | An entry whose repeal status differs from the citation's is never changed by the call. |
| LawProcessor.UpdatedEntryWellFormed | js/law-processor.js:124-141 | Recording the repeal marker and adding an article keep an entry's article numbers unique and its two repeal fields consistent. |
| LawProcessor.AddLawPreservesWellFormed | js/law-processor.js:88-142 | addLaw keeps the list well formed: no two entries share an identity, and each entry's article numbers are unique. |
| LawProcessor.ShortRefsPreserveWellFormed | js/law-processor.js:77-82 | The short-code loop keeps the list well formed. |
| LawProcessor.LineStepPreservesWellFormed | js/law-processor.js:24-83 | Processing one line keeps the list well formed. |
| LawProcessor.ParseWellFormed | js/law-processor.js:6-86 | Whatever the text and the patterns, the parsed list is well formed. |
| LawProcessor.LineCascade | js/law-processor.js:28-82 | On each line the bracket form, then the plain form, then the no-article form are tried. The first one that applies (trimmed name longer than one character) is the only one used. The short-code scan runs only when none applied. |
| LawProcessor.QuietLine | js/law-processor.js:24-83 | A line on which no form applies and no short code occurs leaves the list unchanged. |
| LawProcessor.ParseEmpty | js/law-processor.js:6-86 | The empty text gives no laws. |
| LawProcessor.AddLawArticles | js/law-processor.js:130-141 | addLaw adds no article except the one built from its own line and article number. |
| LawProcessor.AddLawArticlesOfLines | js/law-processor.js:130-141 | An addLaw call made for line n keeps every stored article tied to its own line among the first n. |
| LawProcessor.ShortRefsArticles | js/law-processor.js:77-82 | The short-code loop keeps every stored article tied to its own line. |
| LawProcessor.LineStepArticles | js/law-processor.js:24-83 | One line's processing keeps every stored article tied to its own line. |
| LawProcessor.ParseArticles | js/law-processor.js:24-85 | Every stored article carries the 1-based number of a line of the text, that line trimmed, and that line's excerpt. |
| LawProcessor.LawList.constructor | js/law-processor.js:7 | The list starts empty. |
| LawProcessor.LawList.AddLaw | js/law-processor.js:88-142 | The list after the call is the addLaw specification applied to the list before it. |
| LawProcessor.FindIndex | js/law-processor.js:95-111 | The loop returns the index of the first accepted entry, or null. |
| LawProcessor.ContainsArticle | js/law-processor.js:132 | True exactly when the entry already has an article with that number. |
| LawProcessor.TryFullForm | js/law-processor.js:29-41 | A full form is used exactly when it matched and its trimmed name is longer than one character. The list then gets that citation; otherwise it is unchanged. |
| LawProcessor.ProcessLine | js/law-processor.js:24-83 | The list after a line is the per-line specification (the cascade, then the short codes in order). |
| LawProcessor.Parse | js/law-processor.js:6-86 | The result is the specification of parse over the '\n'-separated lines, numbered from 1. It is well formed. |
| LawStructure.OrdinalAt | js/law-structure-parser.js:52 | A match of an ordinal heading starts with that ordinal (ignoring case) and captures it as written. |
| LawStructure.FirstOrdinal | js/law-structure-parser.js:52 | The alternation captures one of the listed ordinals, as written at the start of the line. |
| LawStructure.RomanAt | js/law-structure-parser.js:63 | A Roman heading captures a non-empty run of I, V and X. |
| LawStructure.LetterAt | js/law-structure-parser.js:140 | A letter heading captures one ASCII letter. |
| LawStructure.SimpleAt | js/law-structure-parser.js:107 | A bare heading's title is non-empty. |
| LawStructure.DetectorsIgnorePadding | js/law-structure-parser.js:11-306 | Every detector trims its line first, so whitespace around a line never changes what it recognises. |
| LawStructure.UpperOfMatch | js/law-structure-parser.js:57 | Upper-casing the text that matched an all-capital word under /i gives back the word. |
| LawStructure.OrdinalsCapital | js/law-structure-parser.js:52 | The kitap and bölüm ordinals are written in capitals only. |
| LawStructure.UpperRoman | js/law-structure-parser.js:68 | Upper-casing a matched Roman numeral gives an upper-case Roman numeral. |
| LawStructure.KitapForms | js/law-structure-parser.js:48-74 | A kitap heading's baslik is an ordinal of the list followed by " KİTAP", or "KİTAP " with an upper-case Roman numeral, whatever the case of the line. Its title is trimmed, or null. |
| LawStructure.BolumForms | js/law-structure-parser.js:81-118 | A bölüm heading's baslik is an ordinal followed by " BÖLÜM", or "BÖLÜM " with an upper-case Roman numeral, or the bare "BÖLÜM", which always comes with a title. |
| LawStructure.KisimForms | js/law-structure-parser.js:125-162 | A kısım heading's baslik is the ordinal as written followed by " Kısım", or "KISIM " with one upper-case ASCII letter, or the bare "KISIM" with a title. |
| LawStructure.MaddeUpper | js/law-structure-parser.js:173 | The /i "MADDE n" pattern reports a non-empty digit string and a trimmed title or null. |
| LawStructure.MaddeTitleCase | js/law-structure-parser.js:184 | The case-sensitive "Madde n" pattern reports a non-empty digit string and a trimmed title or null. |
| LawStructure.MaddeNumbered | js/law-structure-parser.js:195 | The "n. Madde" pattern reports a non-empty digit string and a trimmed title or null. |
| LawStructure.DetectMadde | js/law-structure-parser.js:169-206 | Every article heading found has a non-empty digit string as its number and a trimmed title or null. |
| LawStructure.MaddeBareUpper | js/law-structure-parser.js:173-181 | "MADDE n" is matched by the /i pattern, numbered n, without a title. |
| LawStructure.MaddeTitledUpper | js/law-structure-parser.js:173-181 | "MADDE n - x" is matched by the /i pattern, numbered n, with title x. |
| LawStructure.MaddeBare | js/law-structure-parser.js:169-206 | "MADDE n" is an article heading numbered n without a title. |
| LawStructure.MaddeTitled | js/law-structure-parser.js:169-206 | "MADDE n - title" is an article heading numbered n with that title. |
| LawStructure.MaddeTitleCaseUnreachable | js/law-structure-parser.js:183-192 | Every line the case-sensitive "Madde n" pattern matches was already matched, with the same result, by the /i pattern tried before it. |
| LawStructure.ParenNumber | js/law-structure-parser.js:217 | The "(n) text" form captures a non-empty digit string. |
| LawStructure.DotNumber | js/law-structure-parser.js:228 | The "n. text" form captures a non-empty digit string. |
| LawStructure.FikraParenForm | js/law-structure-parser.js:213-225 | "(n) text" is fıkra n, for every n, n being the value of the digits. |
| LawStructure.FikraDotForm | js/law-structure-parser.js:227-236 | "n. text" is fıkra n exactly when n is at most 50. |
| LawStructure.AltBentNumericForm | js/law-structure-parser.js:293-303 | "(n) text" is an alt bent, numbered with the digits as written, exactly when n is above 10. |
| LawStructure.AltBentNumericShadowed | js/law-structure-parser.js:279-306 | When detectAltBent accepts a line that detectFikra rejects, it was through the two-letter form. |
| LawStructure.LetterParen | js/law-structure-parser.js:250 | The "c) text" form captures one letter of the bent class. |
| LawStructure.LetterDot | js/law-structure-parser.js:261 | The "c. text" form captures one letter of the bent class. |
| LawStructure.DetectBent | js/law-structure-parser.js:246-272 | A bent found has a one-letter lower-case number and a trimmed text. |
| LawStructure.BentParenForm | js/law-structure-parser.js:249-258 | "c) text" is bent c, lower-cased, for every letter c of the class. |
| LawStructure.BentDotForm | js/law-structure-parser.js:260-269 | "c. text" is bent c, lower-cased, for every letter c of the class. |
| LawStructure.DoubleLetterParen | js/law-structure-parser.js:283 | The "cd) text" form captures two letters of the bent class. |
| LawStructure.AltBentLettersForm | js/law-structure-parser.js:282-291 | "cd) text" is alt bent cd, lower-cased. |
| LawStructure.SayiliAt | js/law-structure-parser.js:315 | An "NNNN sayılı" match captures four digits. |
| LawStructure.NumarasiAt | js/law-structure-parser.js:320 | A "Kanun Numarası: n" match captures a non-empty digit string. |
| LawStructure.ExtractKanunNoSayili | js/law-structure-parser.js:313-317 | Whenever there is an "NNNN sayılı", the leftmost one's number is reported. |
| LawStructure.ExtractKanunNoNumarasi | js/law-structure-parser.js:319-322 | Without any "NNNN sayılı", the leftmost "Kanun Numarası: n" number is reported. |
| LawStructure.ExtractKanunNoNone | js/law-structure-parser.js:313-325 | Null is reported exactly when neither pattern occurs. |
| LawStructure.ExtractKanunNoDigits | js/law-structure-parser.js:313-325 | A reported law number is a non-empty string of digits. |
| LawStructure.DateAt | js/law-structure-parser.js:335 | A date capture is d.m.yyyy with one or two digits for day and month and '.' or '/' as separators. |
| LawStructure.KabulAt | js/law-structure-parser.js:335 | An acceptance-date match captures a date of that shape. |
| LawStructure.YururlukAt | js/law-structure-parser.js:336 | An effective-date match captures a date of that shape. |
| LawStructure.ExtractKabulLeftmost | js/law-structure-parser.js:333-343 | extractTarih(text, 'kabul') reports the leftmost acceptance date. |
| LawStructure.ExtractYururlukLeftmost | js/law-structure-parser.js:333-343 | extractTarih(text, 'yürürlük') reports the leftmost effective date. |
| LawStructure.ExtractTarihDate | js/law-structure-parser.js:333-344 | Whatever extractTarih reports is a date of that shape. In the model a type other than 'kabul' or 'yürürlük' reports null; the callers pass only those two. |
| LawStructure.ExtractTarihNone | js/law-structure-parser.js:333-344 | A known type reports null only when its pattern occurs nowhere. |
| LawStructure.KanunuBefore | js/law-structure-parser.js:15 | Backtracking of the greedy capital run: the result is the largest start in [2, top] at which "KANUNU" occurs, and None exactly when "KANUNU" starts nowhere in that range. |
| LawStructure.FullTitle | js/law-structure-parser.js:15 | A full title starts with a capital. |
| LawStructure.NumberedTitle | js/law-structure-parser.js:28 | The captured number is the line's own first four characters, all digits. |
| LawStructure.LazyTitleEnd | js/law-structure-parser.js:28 | The lazy `.+?` ends at the least position from e on where the optional " Kanunu" and the end of the line follow, with no line terminator before it. None only when a line terminator stops the capture. |
| LawStructure.FullTitleShape | js/law-structure-parser.js:14-25 | The full form yields a heading that starts with a capital and ends in "KANUNU". Its number is four digits or a digit string, and its dates are well formed. |
| LawStructure.KanunBaslikShape | js/law-structure-parser.js:11-41 | What detectKanunBaslik reports has one of its two shapes. The full form is used whenever it matches. Otherwise a numbered match reports the trimmed line's first four digits as the law number. |
| LawStructure.NumberedTitleOfParts | js/law-structure-parser.js:27-38 | "NNNN sayılı <title> Kanunu" (title trimmed, non-empty, on one line) is reported with number NNNN, exactly that title and no dates. |
| LawStructure.LazyTitleBeforeKanunu | js/law-structure-parser.js:28 | When the line ends in " Kanunu" after a trimmed title, the lazy capture stops right before that " Kanunu". |
| LawStructure.NumberedTitleAt | js/law-structure-parser.js:28 | The numbered pattern on a line laid out as number, "sayılı", title and "Kanunu" captures that number and title. |
| LawStructure.DetectNumbered | js/law-structure-parser.js:11-38 | A trimmed line that starts with a digit and matches the numbered pattern is reported with its number and trimmed title and no dates. |
| LawText.LinesNormalised | js/law-text-parser.js:20-27 | The normalised lines are the trimmed pieces of the text split at \r\n, \r and \n. Each is trimmed and free of line breaks. |
| LawText.KabulTarihiAt | js/law-text-parser.js:73 | "Kabul Tarihi: x" captures a non-empty run of digits and '/'. |
| LawText.HeaderSpan | js/law-text-parser.js:51 | The header loop covers the first min(20, number of lines) lines. |
| LawText.OnKitap | js/law-text-parser.js:90-104 | A book heading appends a new book and closes every lower level. |
| LawText.OnBolum | js/law-text-parser.js:107-131 | A chapter heading goes into the current book, or into the statute's own list when no book was seen. |
| LawText.EnsureBolum | js/law-text-parser.js:137-148 | A default 'GENEL BÖLÜM' chapter is opened when none is open. |
| LawText.EnsureKisim | js/law-text-parser.js:166-186 | A default 'GENEL KISIM' part is opened (inside a default chapter if needed) when none is open. |
| LawText.OnKisim | js/law-text-parser.js:134-160 | A part heading is added to the open chapter or to a default one. |
| LawText.OnMadde | js/law-text-parser.js:163-203 | An article line opens a new article in the open part or a default one. The article's text is its title. |
| LawText.OnFikra | js/law-text-parser.js:206-217 | Handling a paragraph line keeps the context invariant (every open level has its node). |
| LawText.OnBent | js/law-text-parser.js:220-243 | Handling a clause line keeps the context invariant. |
| LawText.OnAltBent | js/law-text-parser.js:246-255 | Handling a sub-clause line keeps the context invariant. |
| LawText.OnText | js/law-text-parser.js:257-283 | Any other line inside an article is appended to the innermost open node, or becomes a new paragraph 1. |
| LawText.Kinds | js/law-text-parser.js:81-87 | Every line is classified once, in order. |
| LawText.FilterMap | js/law-text-parser.js:322-371 | Filtering keeps the kept elements, each cleaned, in their original order. |
| LawText.CleanBolumler | js/law-text-parser.js:317-376 | cleanupBolumler keeps every chapter and part and cleans their articles. |
| LawText.CleanKanun | js/law-text-parser.js:297-311 | cleanupStructure cleans the chapters of every book and the top-level chapters. |
| LawText.ScanHeader | js/law-text-parser.js:51-78 | The header loop's result is the header specification over the first twenty lines. |
| LawText.WalkLines | js/law-text-parser.js:81-285 | The line loop's state is the state machine run over all the classified lines. |
| LawText.Parse | js/law-text-parser.js:14-291 | parse returns or throws exactly what its specification says. |
| LawText.ParseRejectsBlank | js/law-text-parser.js:15-40 | parse throws 'Boş metin işlenemez' exactly for a text of whitespace only. Otherwise the result carries the given time and the source name, or null for a missing or empty one. |
| LawText.BlankLines | js/law-text-parser.js:85-87 | Exactly the lines of whitespace only are skipped. |
| LawText.HeaderScanAgree | js/law-text-parser.js:51-78 | The header depends only on what is found in the first lines it scans. |
| LawText.StepKeepsHeader | js/law-text-parser.js:81-285 | No line of the main loop changes the header. |
| LawText.ParseHeaderFromFirstLines | js/law-text-parser.js:51-78 | The statute's header fields are those found in the first twenty lines, and nothing later changes them. |
| LawText.ParseHeaderWellFormed | js/law-text-parser.js:51-78 | Every header field reported is well formed. Number and dates are non-empty, and a title line's number and dates have their shapes. |
| LawText.HeaderFillsOnly | js/law-text-parser.js:63-77 | Between title lines the header only fills in. A number or acceptance date, once found, is kept. |
| LawText.TitleLineResets | js/law-text-parser.js:55-61 | A title line overwrites all four header fields with the heading's, whatever the lines before it held. |
| LawText.BolumPlacement | js/law-text-parser.js:107-131 | A chapter goes at the end of the current book's list or of the statute's list. No other list changes, and only the chapter is open. |
| LawText.MaddePlacement | js/law-text-parser.js:163-203 | An article outside any part first opens a default part (inside a default chapter when none is open). Inside an open part, it is appended to that part. |
| LawText.KitapResets | js/law-text-parser.js:90-104 | A book heading appends a new book and closes every lower level. |
| LawText.KisimPlacement | js/law-text-parser.js:134-160 | A part heading goes into the open chapter, or into a default 'GENEL BÖLÜM' chapter when none is open. |
| LawText.BodyOutsideArticle | js/law-text-parser.js:205-206 | Outside an article, a line that is no heading changes nothing. |
| LawText.FikraPlacement | js/law-text-parser.js:206-217 | A paragraph line in an article appends a new paragraph with its number and text to that article, even when it also looks like a clause. The other articles and the article's own fields are unchanged. A paragraph is open afterwards, and no clause is. |
| LawText.BentPlacement | js/law-text-parser.js:220-243 | A clause line appends a new clause to the open paragraph, leaving the earlier paragraphs as they were. With no paragraph yet, the article gets exactly a paragraph 1 without text holding that clause. Both the paragraph and the clause are open afterwards. |
| LawText.AltBentPlacement | js/law-text-parser.js:246-255 | A sub-clause line while a clause is open appends a sub-clause to that clause. The clause keeps its number and text, the earlier clauses are unchanged, and nothing is opened or closed. |
| LawText.ContinuationAppends | js/law-text-parser.js:257-283 | A plain line inside an article joins the innermost open node with one space. With no paragraph yet, it becomes paragraph 1. |
| LawText.FilterMapMembers | js/law-text-parser.js:322-371 | What survives the filter is exactly the cleaned kept elements. |
| LawText.CleanBolumlerTidy | js/law-text-parser.js:317-376 | Cleanup keeps exactly the articles that have a text or a paragraph, and leaves every article, paragraph and clause text trimmed. |
| LawText.ParseTidy | js/law-text-parser.js:287-291 | After parse, every article in the tree is tidy. |
| Parties.ExtractNullIffEmpty | js/party-processor.js:32-38 | Each of the four fields is null exactly when its list is empty, and otherwise is the list. |
| Parties.VekilTipPriority | js/party-processor.js:92-95 | A representative's role is "Davacı Vekili", "Davalı Vekili", "Müdafi" or "Vekil", by the priority of the line tests. |
| Parties.TalepTipPriority | js/party-processor.js:128-131 | A claim's type is "İddia", "Dilekçe", "Başvuru" or "Talep", by the priority of the line tests. |
| Parties.PartiesFromOk | js/party-processor.js:41-73 | Every stored plaintiff or defendant comes from an accepted match on its own line, with that line's excerpt. No two names are equal ignoring case. |
| Parties.VekillerFromOk | js/party-processor.js:75-112 | Every stored representative comes from an accepted match on its line and carries that line's role. No two share both name (ignoring case) and role. |
| Parties.TaleplerFromOk | js/party-processor.js:114-148 | Every stored claim comes from an accepted match on its line and carries that line's type. No two texts are equal ignoring case. |
| Parties.AddPartiesKeepsFirst | js/party-processor.js:59-71 | Earlier parties are never changed or removed, and every accepted match has an entry of its name (the first is kept). |
| Parties.AddVekillerKeepsFirst | js/party-processor.js:97-109 | Earlier representatives stay, and every accepted match has an entry with its name and role. |
| Parties.AddTaleplerKeepsFirst | js/party-processor.js:133-145 | Earlier claims stay, and every accepted match has an entry of its text. |
| Parties.PartiesFromFinds | js/party-processor.js:15-30 | No accepted party match is lost once its line has been read. |
| Parties.VekillerFromFinds | js/party-processor.js:15-30 | No accepted representative match is lost. |
| Parties.TaleplerFromFinds | js/party-processor.js:15-30 | No accepted claim match is lost. |
| Parties.PartyOfText | js/party-processor.js:41-73 | A stored plaintiff or defendant has a 1-based line number and holds its trimmed line and that line's excerpt. Its name is an accepted, trimmed match on that line. |
| Parties.PartyFromText | js/party-processor.js:6-73 | Every accepted trimmed match of a side's pattern on any line has an entry of that name in the side's list. |
| Parties.VekilOfText | js/party-processor.js:75-112 | A stored representative holds its line, that line's excerpt and role, and an accepted match of one of the three patterns there. |
| Parties.VekilFromText | js/party-processor.js:6-112 | Every accepted representative match has an entry of that name with its line's role. |
| Parties.TalepOfText | js/party-processor.js:114-148 | A stored claim holds its line, that line's excerpt and type, and an accepted match of one of the two patterns there. |
| Parties.TalepFromText | js/party-processor.js:6-148 | Every accepted claim match has an entry of that text. |
| Parties.Collector.constructor | js/party-processor.js:8-13 | The four result arrays start empty. |
| Parties.Collector.ExtractParties | js/party-processor.js:41-73 | The side's list after the call is the match loop's specification applied to it. The other lists are unchanged. |
| Parties.Collector.ExtractVekiller | js/party-processor.js:75-112 | The representatives after the call are the three patterns' loops in order. The other lists are unchanged. |
| Parties.Collector.ExtractTalepler | js/party-processor.js:114-148 | The claims after the call are the two patterns' loops in order. The other lists are unchanged. |
| Parties.Collector.ExtractLine | js/party-processor.js:15-30 | One line runs the four extractors on the trimmed line. |
| Parties.ScanParties | js/party-processor.js:49-72 | The match loop appends each accepted name not yet present, ignoring case. |
| Parties.ScanVekiller | js/party-processor.js:85-110 | The match loop appends each accepted name not yet present with that role. |
| Parties.ScanTalepler | js/party-processor.js:122-146 | The match loop appends each accepted claim not yet present, ignoring case. |
| Parties.ContainsParty | js/party-processor.js:60-62 | True exactly when a party with that name, ignoring case, is present. |
| Parties.ContainsVekil | js/party-processor.js:97-99 | True exactly when a representative with that name (ignoring case) and role is present. |
| Parties.ContainsTalep | js/party-processor.js:133-135 | True exactly when a claim with that text, ignoring case, is present. |
| Parties.Extract | js/party-processor.js:6-39 | extract returns its specification: every line trimmed and numbered from 1, then the empty lists nulled. |
| LegalLogic.FirstMatchIsFirst | js/legal-logic-processor.js:122-135 | The search finds the lowest-index line that some pattern matches, and nothing exactly when no line matches. |
| LegalLogic.FirstMatchSkip | js/legal-logic-processor.js:122-135 | Skipping lines that do not match does not change the first hit. |
| LegalLogic.FindSpecReports | js/legal-logic-processor.js:121-143 | A hit reports found, the 1-based number of the first matching line, its trimmed text and the 150-character excerpt. A miss reports null for all three. The type is always the check's id. |
| LegalLogic.FindPattern | js/legal-logic-processor.js:121-143 | The nested loop with early return computes the search's specification. |
| LegalLogic.RunCheck | js/legal-logic-processor.js:17-19 | One check stores its detail and its flag (the detail's found) under its key, and leaves the other keys as they were. |
| LegalLogic.Analyze | js/legal-logic-processor.js:6-119 | The result has all ten keys. Each flag is its detail's found, and each detail is the search of that check's own patterns over the lines. |
| Meta.CourtName | js/meta-processor.js:9 | The court name begins with the trimmed captured name followed by a space. |
| Meta.CourtNameOfPieces | js/meta-processor.js:9 | The court name is the trimmed captured name, a space, and the last two pieces of the whole match split at runs of whitespace, joined by a space. |
| Meta.CourtNameOfWords | js/meta-processor.js:9 | When the match is words separated by single spaces, the court name is the trimmed captured name, a space, and the match's last two words joined by a space. |
| Meta.MahkemeSentinel | js/meta-processor.js:8-9 | The court is "Belirlenemedi" exactly when the court pattern does not match. |
| Meta.Numbers | js/meta-processor.js:15-19 | The number fields: the list is null exactly when there are no matches, and otherwise it is the captures. The number is the first capture, or "Bulunamadı". Base and suffix are null when nothing was found, and a suffix comes only with a base. |
| Meta.SplitFirst | js/meta-processor.js:18 | The first piece of split is the text up to the first separator. The remaining pieces are the split of what follows. |
| Meta.DashParts | js/meta-processor.js:18-19 | The base has no '-' and is the whole number when there is no '-'. Otherwise it is followed by the first '-', and the suffix is the text after it up to the next '-'. |
| Meta.NumberParts | js/meta-processor.js:17-19 | A found number's base is its part before the first '-', and its suffix the part after, up to any further '-'. Without '-' there is no suffix. |
| Meta.Konu | js/meta-processor.js:43 | When the capture is present and not blank after trimming, the subject is the trimmed capture. Otherwise it is "Genel Hukuki Uyuşmazlık". |
| Meta.FirstAtLeftmost | js/meta-processor.js:50 | The header-marker search finds the leftmost marker, and nothing only when no marker occurs. |
| Meta.HeaderText | js/meta-processor.js:50-51 | The header is a prefix of the text. |
| Meta.HeaderCut | js/meta-processor.js:50-51 | The header ends right before the first marker and holds no marker. It is the whole text exactly when there is no marker or the text starts with one. |
| Meta.CrimeNameFilters | js/meta-processor.js:60-65 | A line passes exactly when it has at least three characters, all capitals or whitespace, and no court word. A capitals-only line has no digit, so the other three filters never reject it. |
| Meta.CrimeNamesAppend | js/meta-processor.js:57-68 | The filter keeps line order: the names of two blocks of lines are the names of the first followed by those of the second. |
| Meta.CrimeNamesMember | js/meta-processor.js:57-68 | A text is among the names exactly when it is a crime name and the trimmed form of some header line. |
| Meta.SucAdlari | js/meta-processor.js:48-71 | The crime names are null or a non-empty list. |
| Meta.ExtractSucAdlari | js/meta-processor.js:48-71 | The loop computes the crime names of the header lines, or null when there are none. |
| Meta.Extract | js/meta-processor.js:6-46 | The record's crime names are those of extractSuçAdları. |
| Meta.ExtractFields | js/meta-processor.js:31-45 | The court is undetermined exactly when its pattern fails. The numbers are the first of their lists, which are null exactly when nothing matched, and a suffix comes only with a base. The date is the captured date when it is non-empty, and "Yok" otherwise. The subject is the trimmed capture when that is not blank, and "Genel Hukuki Uyuşmazlık" otherwise. |
| Meta.EmptyTextDefaults | js/meta-processor.js:31-45 | On an empty text every field takes its sentinel. |
| Keywords.Found | js/keyword-processor.js:14-22 | The set holds at most as many words as the dictionary. |
| Keywords.Extract | js/keyword-processor.js:8-23 | extract returns [] when the dictionary is missing or not an array, the thrown SyntaxError when a word is not a valid pattern, and otherwise the words found. |
| Keywords.FoundMembers | js/keyword-processor.js:16-21 | A word is reported exactly when it is in the dictionary and its pattern matches the text. |
| Keywords.FoundDistinct | js/keyword-processor.js:14-22 | No word is reported twice. |
| Keywords.FoundInOrder | js/keyword-processor.js:16-22 | The reported words are in dictionary order. |
| Keywords.NothingFound | js/keyword-processor.js:8-23 | Without a dictionary, or when no word matches, the result is []. |
| Sentiment.LookupAdd | js/sentiment-processor.js:20 | `scores[key] += count` changes the value under key and no other. |
| Sentiment.AddKeepsKeys | js/sentiment-processor.js:20 | `scores[key] += count` keeps the keys already present, in place. |
| Sentiment.ScoreWordsLookup | js/sentiment-processor.js:16-22 | Counting a category's words adds their occurrences to its score and leaves the other scores alone. |
| Sentiment.ScoreAllLookup | js/sentiment-processor.js:15-23 | A score that starts as a number ends as that number plus the occurrences of its category's words. |
| Sentiment.ScoreWordsForeign | js/sentiment-processor.js:20 | A score under a key other than the four initial ones is never a number (undefined + count is NaN). |
| Sentiment.ScoreAllForeign | js/sentiment-processor.js:15-23 | A category outside the four initial keys never holds a number. |
| Sentiment.DominantIsLastMaximum | js/sentiment-processor.js:26 | With numbers only, the dominant key has the highest score, and ties go to the later key. |
| Sentiment.Capitalize | js/sentiment-processor.js:29 | The first character is upper-cased and the rest is unchanged. |
| Sentiment.Analyze | js/sentiment-processor.js:8-33 | analyze returns the no-data result without indicators. Otherwise it returns the tone, scores and style of the counted occurrences. |
| Sentiment.ScoresOfKnownCategories | js/sentiment-processor.js:10-23 | The scores begin with teknik, sert, aciklayici and kesin, in that order, each holding its words' occurrences. |
| Sentiment.StyleThreshold | js/sentiment-processor.js:31 | The style is "Akademik/Teknik" exactly when the technical words occur more than five times. |
| Sentiment.ToneIsDominant | js/sentiment-processor.js:26-29 | With numbers only, the tone is the capitalised name of the last key with the highest score, or "Nötr" when every score is 0. |
| Sentiment.ScoreAllKnown | js/sentiment-processor.js:15-23 | When every indicator category is one of the four, the scores are exactly those four, in order, each a number. |
| Sentiment.KnownTones | js/sentiment-processor.js:29 | When only the four categories score, a positive tone is "Teknik", "Sert", "Aciklayici" or "Kesin". |
| Stats.WordCountIsWords | js/stats-processor.js:7-8 | The word count is 0 exactly for a blank text. Otherwise it is the number of pieces of the trimmed text, each non-empty and free of whitespace. |
| Stats.WordCountPadding | js/stats-processor.js:7-8 | Leading and trailing whitespace never changes the word count. |
| Text.SplitJoinWords | js/stats-processor.js:8 | Splitting words joined by single spaces at whitespace gives the words back. |
| Stats.WordCountOfJoin | js/stats-processor.js:7-8 | Words joined by single spaces count as that many words. |
| Stats.HundredthsNearest | js/stats-processor.js:9 | The density in hundredths is within half a hundredth of keywordCount / words × 100, and a half rounds up. |
| Stats.Fixed2RoundTrip | js/stats-processor.js:9 | The two-decimal text is a digit run, a point and two digits, and reading it back gives the value. |
| Stats.Density | js/stats-processor.js:9-12 | The density text is '%' and a two-decimal number, and "%0.00" when there are no words. |
| Stats.DensityOfNothing | js/stats-processor.js:9 | With no concepts the density is "%0.00", the same as for an empty text. |
| Stats.ReadingMinutesIsCeiling | js/stats-processor.js:13 | The reading time is the least whole number of minutes that covers the words at 150 words per minute. |
| Stats.Calculate | js/stats-processor.js:6-16 | The count is 0 exactly for a blank text. The reading time is the minutes followed by " dk". The complexity is "Yüksek" exactly when there are more than 500 words, and "Orta" otherwise. |
| Stats.BlankText | js/stats-processor.js:6-16 | A blank text gives 0 words, "%0.00", "0 dk" and "Orta". |
| Stats.FourWords | js/stats-processor.js:8-9 | Four words separated by single spaces count as 4, and two concepts among them give "%50.00". |
| Text.TrimEmptyIff | js/legal-analyzer.js:14 | `text.trim()` is empty exactly when the text is whitespace only. |
| Text.Split | js/law-processor.js:9 | `split('\n')` gives at least one piece, and no piece contains the separator. |
| Text.Excerpt | js/law-processor.js:136 | A text up to the limit is kept whole. A longer one becomes its first n characters followed by "...". |
| LegalLogic.FirstMatchBound | js/legal-logic-processor.js:122-135 | The line search started at a line never reports an earlier line or one past the end. |
| LawText.WalkKeepsHeader | js/law-text-parser.js:81-285 | The whole line loop leaves the header as the header scan set it. |
| Meta.EmptyTextHasNoCrimeNames | js/meta-processor.js:48-71 | An empty text has no crime names, so the field is null. |
| Analyzer.Analyze | js/legal-analyzer.js:13-25 | Gives null exactly for a text that trims to nothing. A keyword failure propagates. Otherwise each field is its extractor's result on the same text, the statistics use the number of concepts found, and the date is the given clock reading. |

## Left out

- **Concurrency, the network and the browser.** `js/ui-renderer.js` (DOM rendering, clipboard, alerts), `js/pdf-handler.js` (PDF reading through a third-party library), `js/dictionary-loader.js` (`fetch` and status updates) and `js/main.js` (event wiring) are not part of this model.
- **Wall-clock time.** `islemTarihi` and `analizTarihi` are parameters of `LawText.Parse` and `Analyzer.Analyze`; the time format is not modelled.
- **Complex regular expressions** are function-valued parameters:
  - the citation forms and the short-code scan (`LawProcessor.Grammar`);
  - the party, representative and claim patterns (`Parties.Grammar`);
  - the court, chamber, number, date and subject patterns (`Meta.MetaGrammar`);
  - the ten outcome checks (`LegalLogic.LogicPatterns`);
  - the `\bword\b` and `new RegExp(word, 'g')` patterns built from dictionary words (`Keywords.WordPattern`, `Sentiment.Counter`).

  What such a pattern matches, including JavaScript's ASCII-only `\b` and the lazy bounded captures, is not modelled.
- **Regular-expression object state** (`lastIndex`) is not modelled. Each pattern is rebuilt per call, and every search stops at its first hit.
- **Case mapping** (`toUpperCase`, `toLowerCase` and the non-unicode `/i` folding) covers ASCII and the Turkish letters ç, ğ, ı, İ, ö, ş and ü only. Every other character is left unchanged, including â, î and û.
- LawStructure.DetectFikra: a paragraph number is the exact natural value of its digits (`ParseNat`), and the `<= 50` test is made on that value. The source's `parseInt` gives an IEEE double, which loses precision for digit runs above 2^53.
- LawStructure.DetectAltBent: the `> 10` test is made on the exact natural value of the digits, where the source compares a double that loses precision above 2^53.
- Text.Excerpt: lengths, cuts and first characters count Unicode scalar values, where JavaScript's `length`, `substring` and `charAt` count UTF-16 code units. The two differ only for characters outside the Basic Multilingual Plane. The same holds for the other places that use a length or a cut:
  - the 120-character citation excerpt (`LawProcessor.MakeArticle`);
  - the 150-character party, representative, claim and outcome excerpts (`Parties.PartyOfText`, `LegalLogic.FindSpecReports`);
  - the name bounds 2–50 and the claim bounds 10–300 (`Parties.AcceptsPartyName`, `Parties.AcceptsVekilName`, `Parties.AcceptsTalep`);
  - the `length > 1` test on a citation name (`LawProcessor.Applies`) and the crime-name `length >= 3` (`Meta.CrimeNameFilters`);
  - the first character that `Sentiment.Capitalize` upper-cases.
  For example, "𝐀" has length 2 in JavaScript, so the minimum name length of 2 lets it through there; it has length 1 in the model, which rejects it.
- Stats.Density: rounds the exact ratio to the nearest hundredth, halves up. JavaScript's `toFixed(2)` rounds the double-precision product `keywordCount / words * 100`, which can differ on exact ties that the double does not represent.
- **Object key order.** The score object of the sentiment analysis is a list of entries in insertion order. JavaScript's ordering of integer-like keys before the others is not modelled. Indicator values that are not arrays are not modelled either.
- Meta.NumberParts: requires a found number. The not-found case (base and suffix null) is stated by `Meta.Numbers`.
- **Line classification order.** The statute parser classifies every line with the pure recognisers before the state pass, and the party extractor precomputes each line's captures. Both are equivalent to the source's single loop, because the recognisers have no state.
