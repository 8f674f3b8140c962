/**
 * Outcome flags of a decision (HAGB, bozma, onama, red, kabul, beraat,
 * zamanaşımı, yetkisizlik, görevsizlik, derdestlik). Each flag is decided
 * by searching the lines for the first one that any of the flag's patterns
 * matches; the hit is reported with its line.
 */
module LegalLogic {
  import opened Base
  import opened Text

  /** `{found, context, lineNo, satirIcerigi, type}`; `kind` is the `type`
      field, the id of the check. */
  datatype Detail = Detail(
    found: bool,
    context: Option<string>,
    lineNo: Option<nat>,
    satirIcerigi: Option<string>,
    kind: string)

  /** Length of the reported context excerpt. */
  const ContextLength: nat := 150

  /** One pattern's `test` on a line (the regex is left abstract). */
  type LineTest = string -> bool

  /** Some pattern of `tests` matches `line`. */
  predicate LineMatches(tests: seq<LineTest>, line: string) {
    exists j :: 0 <= j < |tests| && tests[j](line)
  }

  /** The index of the first line, from `from` on, that some pattern matches. */
  function FirstMatch(lines: seq<string>, tests: seq<LineTest>, from: nat): (r: Option<nat>)
    requires from <= |lines|
    decreases |lines| - from
  {
    if from == |lines| then None
    else if LineMatches(tests, lines[from]) then Some(from)
    else FirstMatch(lines, tests, from + 1)
  }

  /** The detail reported for a search whose first hit is `hit`. */
  function Report(lines: seq<string>, kind: string, hit: Option<nat>): Detail
    requires hit.Some? ==> hit.value < |lines|
  {
    match hit
    case None => Detail(false, None, None, None, kind)
    case Some(i) =>
      var line := Trim(lines[i]);
      Detail(true, Some(Excerpt(line, ContextLength)), Some(i + 1), Some(line), kind)
  }

  /** `findPattern(lines, patterns, type)` as a value. */
  function FindSpec(lines: seq<string>, tests: seq<LineTest>, kind: string): Detail {
    FirstMatchBound(lines, tests, 0);
    Report(lines, kind, FirstMatch(lines, tests, 0))
  }

  lemma {:induction false} FirstMatchBound(lines: seq<string>, tests: seq<LineTest>, from: nat)
    requires from <= |lines|
    ensures var r := FirstMatch(lines, tests, from); r.Some? ==> from <= r.value < |lines|
    decreases |lines| - from
  {
    if from < |lines| && !LineMatches(tests, lines[from]) {
      FirstMatchBound(lines, tests, from + 1);
    }
  }

  /** The search finds the lowest-index matching line from `from` on, and
      finds nothing exactly when no line from there matches. */
  lemma {:induction false} FirstMatchIsFirst(lines: seq<string>, tests: seq<LineTest>, from: nat)
    requires from <= |lines|
    ensures var r := FirstMatch(lines, tests, from);
      && (r.Some? ==> from <= r.value < |lines| && LineMatches(tests, lines[r.value])
                      && forall k :: from <= k < r.value ==> !LineMatches(tests, lines[k]))
      && (r.None? <==> forall k :: from <= k < |lines| ==> !LineMatches(tests, lines[k]))
    decreases |lines| - from
  {
    if from < |lines| && !LineMatches(tests, lines[from]) {
      FirstMatchIsFirst(lines, tests, from + 1);
    }
  }

  /** Skipping lines that do not match does not change the first hit. */
  lemma {:induction false} FirstMatchSkip(lines: seq<string>, tests: seq<LineTest>, from: nat)
    requires from <= |lines|
    requires forall k :: 0 <= k < from ==> !LineMatches(tests, lines[k])
    ensures FirstMatch(lines, tests, 0) == FirstMatch(lines, tests, from)
    decreases from
  {
    if from > 0 {
      FirstMatchSkip(lines, tests, from - 1);
    }
  }

  /** What a search reports: a hit carries the 1-based number of the first
      matching line, its trimmed text and that text's excerpt; a miss has
      every field null but the id. */
  lemma FindSpecReports(lines: seq<string>, tests: seq<LineTest>, kind: string)
    ensures var d := FindSpec(lines, tests, kind);
      && d.kind == kind
      && (d.found <==> exists k :: 0 <= k < |lines| && LineMatches(tests, lines[k]))
      && (d.found ==> d.lineNo.Some? && 1 <= d.lineNo.value <= |lines|
                      && LineMatches(tests, lines[d.lineNo.value - 1])
                      && (forall k :: 0 <= k < d.lineNo.value - 1 ==> !LineMatches(tests, lines[k]))
                      && d.satirIcerigi == Some(Trim(lines[d.lineNo.value - 1]))
                      && d.context == Some(Excerpt(d.satirIcerigi.value, ContextLength)))
      && (!d.found ==> d.context.None? && d.lineNo.None? && d.satirIcerigi.None?)
  {
    FirstMatchIsFirst(lines, tests, 0);
  }

  /** `findPattern`: lines in order, each line's patterns in order, return
      at the first hit. */
  method FindPattern(lines: seq<string>, tests: seq<LineTest>, kind: string) returns (d: Detail)
    ensures d == FindSpec(lines, tests, kind)
  {
    var i := 0;
    while i < |lines|
      invariant 0 <= i <= |lines|
      invariant forall k :: 0 <= k < i ==> !LineMatches(tests, lines[k])
    {
      var j := 0;
      while j < |tests|
        invariant 0 <= j <= |tests|
        invariant forall m :: 0 <= m < j ==> !tests[m](lines[i])
      {
        if tests[j](lines[i]) {
          FirstMatchSkip(lines, tests, i);
          var line := Trim(lines[i]);
          return Detail(true, Some(Excerpt(line, ContextLength)), Some(i + 1), Some(line), kind);
        }
        j := j + 1;
      }
      i := i + 1;
    }
    FirstMatchSkip(lines, tests, i);
    return Detail(false, None, None, None, kind);
  }

  /** The pattern lists of the ten checks, in the order `analyze` runs
      them; each has as many tests as the source has regexes (3, 5, 5, 5,
      4, 3, 3, 3, 3 and 3). */
  datatype LogicPatterns = LogicPatterns(
    hagb: seq<LineTest>,
    bozma: seq<LineTest>,
    onama: seq<LineTest>,
    red: seq<LineTest>,
    kabul: seq<LineTest>,
    beraat: seq<LineTest>,
    zamanasimi: seq<LineTest>,
    yetkisizlik: seq<LineTest>,
    gorevsizlik: seq<LineTest>,
    derdestlik: seq<LineTest>)

  /** The keys of `flags` and `details`; `KeyName` is the property name. */
  datatype FlagKey =
    | ContainsHgab | IsBozma | IsOnama | IsRed | IsKabul | IsBeraat
    | Zamanasimi | Yetkisizlik | Gorevsizlik | Derdestlik

  function KeyName(k: FlagKey): string {
    match k
    case ContainsHgab => "contains_hgab"
    case IsBozma => "is_bozma"
    case IsOnama => "is_onama"
    case IsRed => "is_red"
    case IsKabul => "is_kabul"
    case IsBeraat => "is_beraat"
    case Zamanasimi => "zamanaşımı"
    case Yetkisizlik => "yetkisizlik"
    case Gorevsizlik => "görevsizlik"
    case Derdestlik => "derdestlik"
  }

  /** The patterns of a check. */
  function PatternsOf(p: LogicPatterns, k: FlagKey): seq<LineTest> {
    match k
    case ContainsHgab => p.hagb
    case IsBozma => p.bozma
    case IsOnama => p.onama
    case IsRed => p.red
    case IsKabul => p.kabul
    case IsBeraat => p.beraat
    case Zamanasimi => p.zamanasimi
    case Yetkisizlik => p.yetkisizlik
    case Gorevsizlik => p.gorevsizlik
    case Derdestlik => p.derdestlik
  }

  /** What `analyze` keeps true after every check: each key recorded so far
      has its flag and its detail, the flag is the detail's `found`, and the
      detail is the search of that key's own patterns over the lines. */
  ghost predicate Recorded(lines: seq<string>, p: LogicPatterns,
                           flags: map<FlagKey, bool>, details: map<FlagKey, Detail>)
  {
    && flags.Keys == details.Keys
    && forall k :: k in details ==>
         details[k] == FindSpec(lines, PatternsOf(p, k), KeyName(k)) && flags[k] == details[k].found
  }

  /** One check: its detail under its key, and its flag; the other keys are
      left as they were. */
  method RunCheck(lines: seq<string>, p: LogicPatterns, k: FlagKey,
                  flags: map<FlagKey, bool>, details: map<FlagKey, Detail>)
    returns (flags': map<FlagKey, bool>, details': map<FlagKey, Detail>)
    requires Recorded(lines, p, flags, details)
    ensures Recorded(lines, p, flags', details')
    ensures details'.Keys == details.Keys + {k}
    ensures k in details' && details'[k] == FindSpec(lines, PatternsOf(p, k), KeyName(k))
    ensures forall j :: j in details && j != k ==> details'[j] == details[j] && flags'[j] == flags[j]
  {
    var r := FindPattern(lines, PatternsOf(p, k), KeyName(k));
    flags', details' := flags[k := r.found], details[k := r];
  }

  /** `analyze(text)`: the ten checks one after the other, each writing its
      flag and its detail under its key. The result has exactly the ten
      keys; every flag is its detail's `found`, and every detail is the
      search of the check's own patterns over the same lines, so the flags
      are independent of each other. */
  method Analyze(p: LogicPatterns, text: string)
    returns (flags: map<FlagKey, bool>, details: map<FlagKey, Detail>)
    ensures forall k: FlagKey :: k in flags && k in details
    ensures Recorded(Split(text, '\n'), p, flags, details)
  {
    var lines := Split(text, '\n');
    flags, details := map[], map[];
    flags, details := RunCheck(lines, p, ContainsHgab, flags, details);
    flags, details := RunCheck(lines, p, IsBozma, flags, details);
    flags, details := RunCheck(lines, p, IsOnama, flags, details);
    flags, details := RunCheck(lines, p, IsRed, flags, details);
    flags, details := RunCheck(lines, p, IsKabul, flags, details);
    flags, details := RunCheck(lines, p, IsBeraat, flags, details);
    flags, details := RunCheck(lines, p, Zamanasimi, flags, details);
    flags, details := RunCheck(lines, p, Yetkisizlik, flags, details);
    flags, details := RunCheck(lines, p, Gorevsizlik, flags, details);
    flags, details := RunCheck(lines, p, Derdestlik, flags, details);
    forall k: FlagKey ensures k in details {
      match k
      case ContainsHgab =>
      case IsBozma =>
      case IsOnama =>
      case IsRed =>
      case IsKabul =>
      case IsBeraat =>
      case Zamanasimi =>
      case Yetkisizlik =>
      case Gorevsizlik =>
      case Derdestlik =>
    }
  }
}
