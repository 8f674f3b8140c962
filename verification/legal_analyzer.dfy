/**
 * The analysis of one decision text: a null guard for blank input, then
 * one record built from the extractors, all applied to the same text.
 * Only the statistics depend on another extractor's output: they are
 * computed with the number of concepts found.
 */
module Analyzer {
  import opened Base
  import opened Text
  import Config
  import Meta
  import Sentiment
  import LawProcessor
  import LegalLogic
  import Keywords
  import Stats

  /** The patterns the extractors use, left abstract. */
  datatype Patterns = Patterns(
    meta: Meta.MetaGrammar,
    sentiment: Sentiment.Counter,
    laws: LawProcessor.Grammar,
    logic: LegalLogic.LogicPatterns,
    keywords: Keywords.WordPattern)

  /** `{flags, details}` of the outcome analysis. */
  datatype Outcome = Outcome(
    flags: map<LegalLogic.FlagKey, bool>,
    details: map<LegalLogic.FlagKey, LegalLogic.Detail>)

  /** The analysis record: exactly these seven fields, no party data. */
  datatype Analysis = Analysis(
    kimlik: Meta.MetaRecord,
    duyguAnalizi: Sentiment.SentimentResult,
    mevzuat: seq<LawProcessor.Law>,
    hukukiMantik: Outcome,
    kavramlar: seq<string>,
    istatistikler: Stats.TextStats,
    analizTarihi: string)

  /** `analyze(text)`: `null` (Ok(None)) for a text that trims to nothing;
      otherwise the concepts are extracted first, and a failure there (an
      invalid dictionary word) propagates before anything else runs.
      Every other field is its extractor's result on the same text, the
      statistics use the number of concepts, and `analizTarihi` is the
      clock reading `now`. */
  method Analyze(store: Config.DictionaryStore, p: Patterns, text: string, now: string)
    returns (r: Result<Option<Analysis>>)
    ensures r == Ok(None) <==> Trim(text) == ""
    ensures r == Ok(None) <==> IsAllWhitespace(text)
    ensures Trim(text) != "" ==>
      (r.Err? <==> Keywords.KeywordsOf(p.keywords, store.legalDictionary.dictionary, text).Err?)
    ensures r.Err? ==> Keywords.KeywordsOf(p.keywords, store.legalDictionary.dictionary, text) == Err(r.message)
    ensures r.Ok? && r.value.Some? ==>
      var a := r.value.value;
      && Keywords.KeywordsOf(p.keywords, store.legalDictionary.dictionary, text) == Ok(a.kavramlar)
      && a.istatistikler == Stats.Calculate(text, |a.kavramlar|)
      && a.istatistikler.kelime > 0
      && a.kimlik == Meta.Extract(p.meta, text)
      && a.duyguAnalizi == Sentiment.SentimentOf(store.legalDictionary.sentimentIndicators, p.sentiment, text)
      && a.mevzuat == LawProcessor.ParseSpec(p.laws, text)
      && (forall k: LegalLogic.FlagKey :: k in a.hukukiMantik.flags && k in a.hukukiMantik.details)
      && LegalLogic.Recorded(Split(text, '\n'), p.logic, a.hukukiMantik.flags, a.hukukiMantik.details)
      && a.analizTarihi == now
  {
    TrimEmptyIff(text);
    if Trim(text) == "" {
      return Ok(None);
    }
    var keywords := Keywords.Extract(store, p.keywords, text);
    if keywords.Err? {
      return Err(keywords.message);
    }
    var kimlik := Meta.Extract(p.meta, text);
    var duygu := Sentiment.Analyze(store, p.sentiment, text);
    var mevzuat := LawProcessor.Parse(p.laws, text);
    var flags, details := LegalLogic.Analyze(p.logic, text);
    var stats := Stats.Calculate(text, |keywords.value|);
    return Ok(Some(Analysis(kimlik, duygu, mevzuat, Outcome(flags, details), keywords.value, stats, now)));
  }
}
