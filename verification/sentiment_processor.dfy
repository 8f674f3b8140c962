/**
 * Tone of a decision: every indicator word of a category adds the number
 * of its occurrences in the lower-cased text to the category's score; the
 * tone is the highest-scoring category and the style depends on the
 * technical score alone.
 */
module Sentiment {
  import opened Base
  import opened Text
  import opened Config

  /** A score: a count, or `NaN` once `undefined + count` was stored under
      a key that is not one of the four initial ones. */
  datatype Score = Num(n: nat) | NaN

  /** One property of the `scores` object, in the object's key order. */
  datatype Entry = Entry(key: string, score: Score)

  /** `{ teknik: 0, sert: 0, aciklayici: 0, kesin: 0 }` */
  const InitialScores: seq<Entry> :=
    [Entry("teknik", Num(0)), Entry("sert", Num(0)), Entry("aciklayici", Num(0)), Entry("kesin", Num(0))]

  /** `(lowerText.match(new RegExp(word, 'g')) || []).length` for a word and
      the lower-cased text, left abstract: None when the word is not a valid
      pattern (the `catch` then skips the word). */
  type Counter = (string, string) -> Option<nat>

  /** The result object. */
  datatype SentimentResult = SentimentResult(ton: string, puanlar: seq<Entry>, stil: string)

  /** `{ ton: "Veri Yok", puanlar: {}, stil: "Bilinmiyor" }` */
  const NoData := SentimentResult("Veri Yok", [], "Bilinmiyor")

  // ---------------------------------------------------------------------
  // The scores object

  /** `scores[key]`, or None when the object has no such key. */
  function Lookup(scores: seq<Entry>, key: string): Option<Score> {
    if scores == [] then None
    else if scores[0].key == key then Some(scores[0].score)
    else Lookup(scores[1..], key)
  }

  /** `x + count` for a stored value. */
  function Plus(s: Score, count: nat): Score {
    match s
    case Num(n) => Num(n + count)
    case NaN => NaN
  }

  /** `scores[key] += count`: an existing key is updated where it is; a new
      key is appended holding `undefined + count`, that is NaN. */
  function Add(scores: seq<Entry>, key: string, count: nat): (r: seq<Entry>)
    ensures |r| >= |scores|
  {
    if scores == [] then [Entry(key, NaN)]
    else if scores[0].key == key then [Entry(key, Plus(scores[0].score, count))] + scores[1..]
    else [scores[0]] + Add(scores[1..], key, count)
  }

  /** `scores[key] += count` changes the value under `key` and no other. */
  lemma {:induction false} LookupAdd(scores: seq<Entry>, key: string, count: nat, k: string)
    ensures Lookup(Add(scores, key, count), k) ==
      if k != key then Lookup(scores, k)
      else if Lookup(scores, k).Some? then Some(Plus(Lookup(scores, k).value, count))
      else Some(NaN)
    decreases |scores|
  {
    if scores != [] && scores[0].key != key {
      LookupAdd(scores[1..], key, count, k);
      assert Add(scores, key, count)[1..] == Add(scores[1..], key, count);
    }
  }

  /** `scores[key] += count` keeps the keys already there, in place. */
  lemma {:induction false} AddKeepsKeys(scores: seq<Entry>, key: string, count: nat)
    ensures forall i :: 0 <= i < |scores| ==> Add(scores, key, count)[i].key == scores[i].key
    decreases |scores|
  {
    if scores != [] && scores[0].key != key {
      AddKeepsKeys(scores[1..], key, count);
      assert Add(scores, key, count) == [scores[0]] + Add(scores[1..], key, count);
    }
  }

  // ---------------------------------------------------------------------
  // Accumulation

  /** The scores after the words `words` of category `key` were counted. */
  function ScoreWords(scores: seq<Entry>, key: string, words: seq<string>, lower: string, count: Counter): (r: seq<Entry>)
    ensures |r| >= |scores|
    decreases |words|
  {
    if words == [] then scores
    else
      var acc := ScoreWords(scores, key, words[..|words| - 1], lower, count);
      match count(words[|words| - 1], lower)
      case None => acc
      case Some(c) => Add(acc, key, c)
  }

  /** The scores after the categories `cats` were counted, in key order. */
  function ScoreAll(scores: seq<Entry>, cats: seq<IndicatorCategory>, lower: string, count: Counter): (r: seq<Entry>)
    ensures |r| >= |scores|
    decreases |cats|
  {
    if cats == [] then scores
    else
      var c := cats[|cats| - 1];
      ScoreWords(ScoreAll(scores, cats[..|cats| - 1], lower, count), c.key, c.words, lower, count)
  }

  /** The occurrences of the words `words`; a word that is not a valid
      pattern counts nothing. */
  function WordsTotal(words: seq<string>, lower: string, count: Counter): nat
    decreases |words|
  {
    if words == [] then 0
    else
      WordsTotal(words[..|words| - 1], lower, count)
      + match count(words[|words| - 1], lower) case None => 0 case Some(c) => c
  }

  /** The occurrences of the words of every category named `key`. */
  function CategoryTotal(cats: seq<IndicatorCategory>, key: string, lower: string, count: Counter): nat
    decreases |cats|
  {
    if cats == [] then 0
    else
      var c := cats[|cats| - 1];
      CategoryTotal(cats[..|cats| - 1], key, lower, count)
      + if c.key == key then WordsTotal(c.words, lower, count) else 0
  }

  /** Counting a category's words adds their occurrences to its own score
      and leaves the other scores alone. */
  lemma {:induction false} ScoreWordsLookup(scores: seq<Entry>, key: string, words: seq<string>,
                                            lower: string, count: Counter, k: string, n: nat)
    requires Lookup(scores, k) == Some(Num(n))
    ensures Lookup(ScoreWords(scores, key, words, lower, count), k) ==
      Some(Num(n + if k == key then WordsTotal(words, lower, count) else 0))
    decreases |words|
  {
    if words != [] {
      var init := words[..|words| - 1];
      ScoreWordsLookup(scores, key, init, lower, count, k, n);
      var acc := ScoreWords(scores, key, init, lower, count);
      match count(words[|words| - 1], lower)
      case None =>
      case Some(c) => LookupAdd(acc, key, c, k);
    }
  }

  /** A score that starts as a number ends as that number plus the
      occurrences of the words of its category. */
  lemma {:induction false} ScoreAllLookup(scores: seq<Entry>, cats: seq<IndicatorCategory>,
                                          lower: string, count: Counter, k: string, n: nat)
    requires Lookup(scores, k) == Some(Num(n))
    ensures Lookup(ScoreAll(scores, cats, lower, count), k) == Some(Num(n + CategoryTotal(cats, k, lower, count)))
    decreases |cats|
  {
    if cats != [] {
      var init := cats[..|cats| - 1];
      var c := cats[|cats| - 1];
      ScoreAllLookup(scores, init, lower, count, k, n);
      ScoreWordsLookup(ScoreAll(scores, init, lower, count), c.key, c.words, lower, count,
                       k, n + CategoryTotal(init, k, lower, count));
    }
  }

  /** Counting a category's words keeps the keys already there. */
  lemma {:induction false} ScoreWordsKeys(scores: seq<Entry>, key: string, words: seq<string>, lower: string, count: Counter)
    ensures var r := ScoreWords(scores, key, words, lower, count);
      forall i :: 0 <= i < |scores| ==> r[i].key == scores[i].key
    decreases |words|
  {
    if words != [] {
      var init := words[..|words| - 1];
      ScoreWordsKeys(scores, key, init, lower, count);
      match count(words[|words| - 1], lower)
      case None =>
      case Some(c) => AddKeepsKeys(ScoreWords(scores, key, init, lower, count), key, c);
    }
  }

  /** A score under a key that is not one of the four initial ones is never
      a number: storing into it gives NaN. */
  lemma {:induction false} ScoreWordsForeign(scores: seq<Entry>, key: string, words: seq<string>,
                                             lower: string, count: Counter, k: string)
    requires Lookup(scores, k) == None || Lookup(scores, k) == Some(NaN)
    ensures var r := Lookup(ScoreWords(scores, key, words, lower, count), k); r == None || r == Some(NaN)
    decreases |words|
  {
    if words != [] {
      var init := words[..|words| - 1];
      ScoreWordsForeign(scores, key, init, lower, count, k);
      match count(words[|words| - 1], lower)
      case None =>
      case Some(c) => LookupAdd(ScoreWords(scores, key, init, lower, count), key, c, k);
    }
  }

  lemma {:induction false} ScoreAllForeign(cats: seq<IndicatorCategory>, lower: string, count: Counter, k: string)
    requires Lookup(InitialScores, k) == None
    ensures var r := Lookup(ScoreAll(InitialScores, cats, lower, count), k); r == None || r == Some(NaN)
    decreases |cats|
  {
    if cats != [] {
      var c := cats[|cats| - 1];
      ScoreAllForeign(cats[..|cats| - 1], lower, count, k);
      ScoreWordsForeign(ScoreAll(InitialScores, cats[..|cats| - 1], lower, count), c.key, c.words, lower, count, k);
    }
  }

  // ---------------------------------------------------------------------
  // The dominant category

  /** `scores[a] > scores[b]`: false whenever a NaN is involved. */
  predicate Greater(a: Score, b: Score) {
    a.Num? && b.Num? && a.n > b.n
  }

  /** `Object.keys(scores).reduce((a, b) => scores[a] > scores[b] ? a : b)`,
      as the index of the key it returns. */
  function Dominant(scores: seq<Entry>): (d: nat)
    requires |scores| > 0
    ensures d < |scores|
    decreases |scores|
  {
    if |scores| == 1 then 0
    else
      var a := Dominant(scores[..|scores| - 1]);
      if Greater(scores[a].score, scores[|scores| - 1].score) then a else |scores| - 1
  }

  /** Every score is a number. */
  predicate AllNumbers(scores: seq<Entry>) {
    forall i :: 0 <= i < |scores| ==> scores[i].score.Num?
  }

  /** With numbers only, the dominant category has the highest score, and
      it is the last category with that score: ties go to the later key. */
  lemma {:induction false} DominantIsLastMaximum(scores: seq<Entry>)
    requires |scores| > 0 && AllNumbers(scores)
    ensures var d := Dominant(scores);
      && (forall j :: 0 <= j < d ==> scores[j].score.n <= scores[d].score.n)
      && (forall j :: d < j < |scores| ==> scores[j].score.n < scores[d].score.n)
    decreases |scores|
  {
    if |scores| > 1 {
      var init := scores[..|scores| - 1];
      DominantIsLastMaximum(init);
      var a := Dominant(init);
      assert init[a] == scores[a];
      assert forall j :: 0 <= j < |init| ==> init[j] == scores[j];
    }
  }

  // ---------------------------------------------------------------------
  // The result

  /** `key.charAt(0).toUpperCase() + key.slice(1)` */
  function Capitalize(key: string): (r: string)
    ensures |r| == |key|
    ensures r != "" ==> r[0] == UpperChar(key[0]) && r[1..] == key[1..]
  {
    if key == "" then "" else ToUpper(key[..1]) + key[1..]
  }

  /** `scores[dominant] > 0`: a positive number (NaN is not). */
  predicate Positive(s: Score) {
    s.Num? && s.n > 0
  }

  /** `scores.teknik > 5` */
  predicate Technical(scores: seq<Entry>) {
    var t := Lookup(scores, "teknik");
    t.Some? && t.value.Num? && t.value.n > 5
  }

  /** `scores[dominant] > 0 ? capitalised dominant : "Nötr"` */
  function Tone(scores: seq<Entry>): string
    requires |scores| > 0
  {
    var d := Dominant(scores);
    if Positive(scores[d].score) then Capitalize(scores[d].key) else "Nötr"
  }

  /** `analyze(text)` as a value. */
  function SentimentOf(indicators: Option<seq<IndicatorCategory>>, count: Counter, text: string): SentimentResult {
    if indicators.None? then NoData
    else
      var scores := ScoreAll(InitialScores, indicators.value, ToLower(text), count);
      SentimentResult(
        Tone(scores),
        scores,
        if Technical(scores) then "Akademik/Teknik" else "Operasyonel")
  }

  /** `analyze(text)`: read the indicators from the store, count every word
      of every category into the scores, then pick the tone and style. */
  method Analyze(store: DictionaryStore, count: Counter, text: string) returns (r: SentimentResult)
    ensures r == SentimentOf(store.legalDictionary.sentimentIndicators, count, text)
  {
    var dict := store.GetLegalDictionary();
    var scores := InitialScores;
    var lower := ToLower(text);
    if dict.sentimentIndicators.None? {
      return NoData;
    }
    var cats := dict.sentimentIndicators.value;
    var i := 0;
    while i < |cats|
      invariant 0 <= i <= |cats|
      invariant scores == ScoreAll(InitialScores, cats[..i], lower, count)
    {
      var key := cats[i].key;
      var words := cats[i].words;
      ghost var before := scores;
      var j := 0;
      while j < |words|
        invariant 0 <= j <= |words|
        invariant scores == ScoreWords(before, key, words[..j], lower, count)
      {
        var c := count(words[j], lower);
        if c.Some? {
          scores := Add(scores, key, c.value);
        }
        assert words[..j + 1][..j] == words[..j];
        j := j + 1;
      }
      assert words[..j] == words;
      assert cats[..i + 1][..i] == cats[..i];
      i := i + 1;
    }
    assert cats[..i] == cats;
    var d := Dominant(scores);
    var ton := if Positive(scores[d].score) then Capitalize(scores[d].key) else "Nötr";
    var stil := if Technical(scores) then "Akademik/Teknik" else "Operasyonel";
    return SentimentResult(ton, scores, stil);
  }

  /** The scores begin with the four categories, in their order, each
      holding the occurrences of its words. */
  lemma {:induction false} ScoresOfKnownCategories(cats: seq<IndicatorCategory>, lower: string, count: Counter)
    ensures var s := ScoreAll(InitialScores, cats, lower, count);
      && Lookup(s, "teknik") == Some(Num(CategoryTotal(cats, "teknik", lower, count)))
      && Lookup(s, "sert") == Some(Num(CategoryTotal(cats, "sert", lower, count)))
      && Lookup(s, "aciklayici") == Some(Num(CategoryTotal(cats, "aciklayici", lower, count)))
      && Lookup(s, "kesin") == Some(Num(CategoryTotal(cats, "kesin", lower, count)))
  {
    ScoreAllLookup(InitialScores, cats, lower, count, "teknik", 0);
    ScoreAllLookup(InitialScores, cats, lower, count, "sert", 0);
    ScoreAllLookup(InitialScores, cats, lower, count, "aciklayici", 0);
    ScoreAllLookup(InitialScores, cats, lower, count, "kesin", 0);
  }

  /** The style is technical exactly when the technical words occur more
      than five times. */
  lemma StyleThreshold(cats: seq<IndicatorCategory>, count: Counter, text: string)
    ensures SentimentOf(Some(cats), count, text).stil == "Akademik/Teknik"
      <==> CategoryTotal(cats, "teknik", ToLower(text), count) > 5
    ensures SentimentOf(Some(cats), count, text).stil in {"Akademik/Teknik", "Operasyonel"}
  {
    ScoresOfKnownCategories(cats, ToLower(text), count);
  }

  /** With numbers only, the tone is the capitalised name of the last
      category with the highest score, or "Nötr" when every score is 0. */
  lemma ToneIsDominant(scores: seq<Entry>)
    requires |scores| > 0 && AllNumbers(scores)
    ensures (forall j :: 0 <= j < |scores| ==> scores[j].score.n == 0) ==> Tone(scores) == "Nötr"
    ensures (exists j :: 0 <= j < |scores| && scores[j].score.n > 0) ==>
      exists d :: 0 <= d < |scores| && Tone(scores) == Capitalize(scores[d].key)
        && (forall j :: 0 <= j < d ==> scores[j].score.n <= scores[d].score.n)
        && (forall j :: d < j < |scores| ==> scores[j].score.n < scores[d].score.n)
  {
    DominantIsLastMaximum(scores);
    var d := Dominant(scores);
    if exists j :: 0 <= j < |scores| && scores[j].score.n > 0 {
      var j :| 0 <= j < |scores| && scores[j].score.n > 0;
      assert scores[d].score.n > 0;
    } else {
      assert scores[d].score.n == 0;
    }
  }

  /** `scores[key]` is found for every key the object holds. */
  lemma {:induction false} LookupPresent(scores: seq<Entry>, i: nat)
    requires i < |scores|
    ensures Lookup(scores, scores[i].key).Some?
    decreases i
  {
    if i > 0 && scores[0].key != scores[i].key {
      LookupPresent(scores[1..], i - 1);
    }
  }

  /** Adding to an existing key keeps the object's size, and keeps every
      score a number. */
  lemma {:induction false} AddExisting(scores: seq<Entry>, key: string, count: nat)
    requires Lookup(scores, key).Some?
    ensures |Add(scores, key, count)| == |scores|
    ensures AllNumbers(scores) ==> AllNumbers(Add(scores, key, count))
    decreases |scores|
  {
    var r := Add(scores, key, count);
    if scores[0].key != key {
      var t := Add(scores[1..], key, count);
      AddExisting(scores[1..], key, count);
      assert r == [scores[0]] + t;
      if AllNumbers(scores) {
        forall i | 0 <= i < |scores| - 1 ensures scores[1..][i].score.Num? {
          assert scores[1..][i] == scores[i + 1];
        }
        forall i | 0 <= i < |r| ensures r[i].score.Num? {
          if i > 0 {
            assert r[i] == t[i - 1];
          }
        }
      }
    } else if AllNumbers(scores) {
      forall i | 0 <= i < |r| ensures r[i].score.Num? {
        if i > 0 {
          assert r[i] == scores[i];
        }
      }
    }
  }

  /** One of the four initial categories. */
  predicate KnownKey(k: string) {
    k == "teknik" || k == "sert" || k == "aciklayici" || k == "kesin"
  }

  /** The object still has exactly the four initial keys, in their order,
      each holding a number. */
  predicate OnlyKnown(scores: seq<Entry>) {
    && |scores| == |InitialScores|
    && AllNumbers(scores)
    && forall i :: 0 <= i < |scores| ==> scores[i].key == InitialScores[i].key
  }

  lemma AddKnown(scores: seq<Entry>, key: string, count: nat)
    requires OnlyKnown(scores) && KnownKey(key)
    ensures OnlyKnown(Add(scores, key, count))
  {
    var i: nat := if key == "teknik" then 0 else if key == "sert" then 1 else if key == "aciklayici" then 2 else 3;
    assert scores[i].key == key;
    LookupPresent(scores, i);
    AddExisting(scores, key, count);
    AddKeepsKeys(scores, key, count);
  }

  lemma {:induction false} ScoreWordsKnown(scores: seq<Entry>, key: string, words: seq<string>, lower: string, count: Counter)
    requires OnlyKnown(scores) && KnownKey(key)
    ensures OnlyKnown(ScoreWords(scores, key, words, lower, count))
    decreases |words|
  {
    if words != [] {
      var init := words[..|words| - 1];
      ScoreWordsKnown(scores, key, init, lower, count);
      match count(words[|words| - 1], lower)
      case None =>
      case Some(c) => AddKnown(ScoreWords(scores, key, init, lower, count), key, c);
    }
  }

  /** When every indicator category is one of the four, the scores are
      exactly the four categories, in their order, each a number. */
  lemma {:induction false} ScoreAllKnown(cats: seq<IndicatorCategory>, lower: string, count: Counter)
    requires forall i :: 0 <= i < |cats| ==> KnownKey(cats[i].key)
    ensures OnlyKnown(ScoreAll(InitialScores, cats, lower, count))
    decreases |cats|
  {
    if cats != [] {
      var c := cats[|cats| - 1];
      ScoreAllKnown(cats[..|cats| - 1], lower, count);
      ScoreWordsKnown(ScoreAll(InitialScores, cats[..|cats| - 1], lower, count), c.key, c.words, lower, count);
    }
  }

  /** The four categories keep their names, so a positive tone is one of
      "Teknik", "Sert", "Aciklayici" and "Kesin" when only they score. */
  lemma KnownTones()
    ensures Capitalize("teknik") == "Teknik" && Capitalize("sert") == "Sert"
    ensures Capitalize("aciklayici") == "Aciklayici" && Capitalize("kesin") == "Kesin"
  {
    assert ToUpper("t") == "T";
    assert ToUpper("s") == "S";
    assert ToUpper("a") == "A";
    assert ToUpper("k") == "K";
  }
}
