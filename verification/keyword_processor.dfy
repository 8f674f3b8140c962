/**
 * Legal concepts of a decision: the words of the loaded dictionary that
 * occur in the text as whole words, ignoring case, each once, in
 * dictionary order.
 */
module Keywords {
  import opened Base
  import opened Config

  /** The pattern `\b<word>\b` with flags `gi`, built from the word as it
      is (not escaped), left abstract: whether it compiles, and whether it
      matches the text. */
  datatype WordPattern = WordPattern(
    compiles: string -> bool,
    test: (string, string) -> bool)

  /** `set.add(w)` on a set kept in insertion order. */
  function SetAdd(s: seq<string>, w: string): (r: seq<string>)
    ensures w in r
    ensures w in s ==> r == s
    ensures w !in s ==> r == s + [w]
  {
    if w in s then s else s + [w]
  }

  /** The set after the words `words` were tried, as `Array.from` lists it. */
  function Found(p: WordPattern, words: seq<string>, text: string): (r: seq<string>)
    ensures |r| <= |words|
    decreases |words|
  {
    if words == [] then []
    else
      var acc := Found(p, words[..|words| - 1], text);
      var w := words[|words| - 1];
      if p.test(w, text) then SetAdd(acc, w) else acc
  }

  /** Every word of the dictionary yields a valid pattern. */
  predicate AllCompile(p: WordPattern, words: seq<string>) {
    forall k :: 0 <= k < |words| ==> p.compiles(words[k])
  }

  /** `extract(text)` as a value: [] without a dictionary (`None` stands
      for a field that is missing or not an array), the thrown
      `SyntaxError` when a word is not a valid pattern, and the found words
      otherwise. */
  function KeywordsOf(p: WordPattern, dictionary: Option<seq<string>>, text: string): Result<seq<string>> {
    if dictionary.None? then Ok([])
    else if !AllCompile(p, dictionary.value) then Err("SyntaxError")
    else Ok(Found(p, dictionary.value, text))
  }

  /** `extract(text)`: read the dictionary from the store, then try its
      words one by one, adding each that matches to the set. */
  method Extract(store: DictionaryStore, p: WordPattern, text: string) returns (r: Result<seq<string>>)
    ensures r == KeywordsOf(p, store.legalDictionary.dictionary, text)
  {
    var dict := store.GetLegalDictionary();
    if dict.dictionary.None? {
      return Ok([]);
    }
    var words := dict.dictionary.value;
    var found: seq<string> := [];
    var i := 0;
    while i < |words|
      invariant 0 <= i <= |words|
      invariant AllCompile(p, words[..i])
      invariant found == Found(p, words[..i], text)
    {
      var w := words[i];
      if !p.compiles(w) {
        assert !p.compiles(words[i]);
        return Err("SyntaxError");
      }
      if p.test(w, text) {
        found := SetAdd(found, w);
      }
      assert words[..i + 1][..i] == words[..i];
      i := i + 1;
    }
    assert words[..i] == words;
    return Ok(found);
  }

  /** A word is found exactly when it is in the dictionary and its pattern
      matches the text. */
  lemma {:induction false} FoundMembers(p: WordPattern, words: seq<string>, text: string, w: string)
    ensures w in Found(p, words, text) <==> w in words && p.test(w, text)
    decreases |words|
  {
    if words != [] {
      var init := words[..|words| - 1];
      FoundMembers(p, init, text, w);
      assert words == init + [words[|words| - 1]];
    }
  }

  /** No element occurs twice. */
  predicate Distinct(s: seq<string>) {
    forall i, j :: 0 <= i < j < |s| ==> s[i] != s[j]
  }

  /** No word is listed twice. */
  lemma {:induction false} FoundDistinct(p: WordPattern, words: seq<string>, text: string)
    ensures Distinct(Found(p, words, text))
    decreases |words|
  {
    if words != [] {
      var acc := Found(p, words[..|words| - 1], text);
      var w := words[|words| - 1];
      FoundDistinct(p, words[..|words| - 1], text);
      if p.test(w, text) && w !in acc {
        var r := acc + [w];
        assert Found(p, words, text) == r;
        assert forall i :: 0 <= i < |acc| ==> r[i] == acc[i] != w;
      } else {
        assert Found(p, words, text) == acc;
      }
    }
  }

  /** The index of the first occurrence of `w`. */
  function Position(ws: seq<string>, w: string): (k: nat)
    requires w in ws
    ensures k < |ws| && ws[k] == w && w !in ws[..k]
  {
    if ws[0] == w then 0 else 1 + Position(ws[1..], w)
  }

  /** Appending does not move a first occurrence. */
  lemma PositionAppend(ws: seq<string>, x: string, w: string)
    requires w in ws
    ensures Position(ws + [x], w) == Position(ws, w)
  {
    var k := Position(ws, w);
    var k' := Position(ws + [x], w);
    assert (ws + [x])[k] == w;
  }

  /** The words are listed in dictionary order: of two listed words, the one
      listed first occurs first in the dictionary. */
  lemma {:induction false} FoundInOrder(p: WordPattern, words: seq<string>, text: string)
    ensures var r := Found(p, words, text);
      forall i, j :: 0 <= i < j < |r| ==> r[i] in words && r[j] in words && Position(words, r[i]) < Position(words, r[j])
    decreases |words|
  {
    if words != [] {
      var init := words[..|words| - 1];
      var x := words[|words| - 1];
      var acc := Found(p, init, text);
      FoundInOrder(p, init, text);
      assert words == init + [x];
      forall i | 0 <= i < |acc|
        ensures acc[i] in init && Position(words, acc[i]) == Position(init, acc[i]) < |init|
      {
        FoundMembers(p, init, text, acc[i]);
        PositionAppend(init, x, acc[i]);
      }
      if p.test(x, text) && x !in acc {
        FoundMembers(p, init, text, x);
        assert x !in init;
        assert words[..|init|] == init;
        assert Position(words, x) == |init|;
      }
    }
  }

  /** Without a dictionary the result is []; with one whose words all match
      nothing, it is [] as well. */
  lemma NothingFound(p: WordPattern, dictionary: Option<seq<string>>, text: string)
    requires dictionary.Some? ==> AllCompile(p, dictionary.value)
    requires dictionary.Some? ==> forall k :: 0 <= k < |dictionary.value| ==> !p.test(dictionary.value[k], text)
    ensures KeywordsOf(p, dictionary, text) == Ok([])
  {
    if dictionary.Some? {
      var r := Found(p, dictionary.value, text);
      if r != [] {
        FoundMembers(p, dictionary.value, text, r[0]);
      }
    }
  }
}
