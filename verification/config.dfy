/**
 * The process-wide legal dictionary: one replaceable cell holding the
 * concept list and the sentiment-indicator word lists.
 */
module Config {
  import opened Base

  /** One entry of `sentiment_indicators`: a category key and its words, in
      the object's key order. */
  datatype IndicatorCategory = IndicatorCategory(key: string, words: seq<string>)

  /** The dictionary object. `dictionary` is None when the field is missing
      or is not an array; `sentimentIndicators` is None when the field is
      `null` or missing. */
  datatype LegalDictionary = LegalDictionary(
    dictionary: Option<seq<string>>,
    sentimentIndicators: Option<seq<IndicatorCategory>>)

  /** `{ dictionary: [], sentiment_indicators: {} }` */
  const InitialDictionary := LegalDictionary(Some([]), Some([]))

  /** The module-level `LEGAL_DICTIONARY` binding. */
  class DictionaryStore {
    var legalDictionary: LegalDictionary

    constructor ()
      ensures legalDictionary == InitialDictionary
    {
      legalDictionary := InitialDictionary;
    }

    /** `setLegalDictionary(dict)`: the whole value is replaced. */
    method SetLegalDictionary(dict: LegalDictionary)
      modifies this
      ensures legalDictionary == dict
    {
      legalDictionary := dict;
    }

    /** `getLegalDictionary()`: reads the cell and changes nothing. */
    method GetLegalDictionary() returns (dict: LegalDictionary)
      ensures dict == legalDictionary
    {
      dict := legalDictionary;
    }
  }

  /** A caller's view: whatever was stored before, a get right after a set
      returns exactly the value that was set, and a second get returns it
      again. */
  method SetThenGet(store: DictionaryStore, dict: LegalDictionary)
    returns (first: LegalDictionary, second: LegalDictionary)
    modifies store
    ensures first == dict && second == dict
    ensures store.legalDictionary == dict
  {
    store.SetLegalDictionary(dict);
    first := store.GetLegalDictionary();
    second := store.GetLegalDictionary();
  }
}
