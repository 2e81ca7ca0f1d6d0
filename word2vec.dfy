/**
 * The text preparation of `W2VModel` in Models/Word2Vec/API/Word2VecModel.py:
 * `process_corpora` lower-cases every token, drops those found in the
 * stop-word file's text and joins the rest with spaces, one string per
 * document; `w2v_match` keeps the lower-cased query tokens of the word2vec
 * vocabulary.  Its `standarlization` is the guarded `Vectors.MinMax`.
 */
module Word2VecText {

  /** `str.lower()` on the ASCII letters. */
  function LowerChar(c: char): (r: char)
    ensures ('A' <= c <= 'Z') ==> 'a' <= r <= 'z'
    ensures !('A' <= c <= 'Z') ==> r == c
  {
    if 'A' <= c <= 'Z' then (c as int - 'A' as int + 'a' as int) as char else c
  }

  function Lower(s: string): (r: string)
    ensures |r| == |s|
    ensures forall i :: 0 <= i < |s| ==> r[i] == LowerChar(s[i])
  {
    if s == [] then [] else Lower(s[..|s| - 1]) + [LowerChar(s[|s| - 1])]
  }

  /** Lower-casing twice is lower-casing once: every kept token stays as it is. */
  lemma LowerIdempotent(s: string)
    ensures Lower(Lower(s)) == Lower(s)
  {
    var once := Lower(s);
    assert forall i :: 0 <= i < |s| ==> LowerChar(once[i]) == once[i];
  }

  /** `needle in hay` on two strings: `needle` occurs somewhere in `hay`. */
  predicate Contains(hay: string, needle: string)
  {
    exists i :: 0 <= i <= |hay| && needle <= hay[i..]
  }

  /** The empty string occurs in every text, so an empty token is always a stop word. */
  lemma ContainsEmpty(hay: string)
    ensures Contains(hay, "")
  {
    assert "" <= hay[0..];
  }

  // ---------------------------------------------------------------------
  // process_corpora

  /** The lower-cased tokens of `text` that do not occur in `stopwords`, in order. */
  function Kept(text: seq<string>, stopwords: string): (r: seq<string>)
    ensures |r| <= |text|
  {
    if text == [] then []
    else
      var word := Lower(text[|text| - 1]);
      Kept(text[..|text| - 1], stopwords) + (if Contains(stopwords, word) then [] else [word])
  }

  /** `' '.join(words)`. */
  function Join(words: seq<string>): string
  {
    if words == [] then ""
    else if |words| == 1 then words[0]
    else words[0] + " " + Join(words[1..])
  }

  /**
   * `process_corpora` with the stop-word file already read into
   * `stopwords`: one joined string per document.
   */
  method ProcessCorpora(corporaList: seq<seq<string>>, stopwords: string) returns (corpora: seq<string>)
    ensures |corpora| == |corporaList|
    ensures forall k :: 0 <= k < |corporaList| ==> corpora[k] == Join(Kept(corporaList[k], stopwords))
  {
    corpora := [];
    for d := 0 to |corporaList|
      invariant |corpora| == d
      invariant forall k :: 0 <= k < d ==> corpora[k] == Join(Kept(corporaList[k], stopwords))
    {
      var text := corporaList[d];
      var textP: seq<string> := [];
      for w := 0 to |text|
        invariant textP == Kept(text[..w], stopwords)
      {
        assert text[..w + 1][..w] == text[..w];
        var word := Lower(text[w]);
        if Contains(stopwords, word) {
          continue;
        }
        textP := textP + [word];
      }
      assert text[..|text|] == text;
      corpora := corpora + [Join(textP)];
    }
  }

  /**
   * A token is kept exactly when its lower-cased form is not in the
   * stop-word text; what is kept is lower-case and never empty.
   */
  lemma KeptMembers(text: seq<string>, stopwords: string)
    ensures forall w :: w in Kept(text, stopwords) ==> Lower(w) == w && !Contains(stopwords, w) && w != []
    ensures forall i :: 0 <= i < |text| && !Contains(stopwords, Lower(text[i])) ==> Lower(text[i]) in Kept(text, stopwords)
    ensures forall w :: w in Kept(text, stopwords) ==> exists i :: 0 <= i < |text| && w == Lower(text[i])
  {
    KeptLowerNotStop(text, stopwords);
    KeptComplete(text, stopwords);
    KeptFromText(text, stopwords);
  }

  lemma {:induction false} KeptLowerNotStop(text: seq<string>, stopwords: string)
    ensures forall w :: w in Kept(text, stopwords) ==> Lower(w) == w && !Contains(stopwords, w) && w != []
    decreases |text|
  {
    ContainsEmpty(stopwords);
    if text != [] {
      var init, last := text[..|text| - 1], text[|text| - 1];
      KeptLowerNotStop(init, stopwords);
      KeptLast(text, stopwords);
      LowerIdempotent(last);
    }
  }

  lemma {:induction false} KeptComplete(text: seq<string>, stopwords: string)
    ensures forall i :: 0 <= i < |text| && !Contains(stopwords, Lower(text[i])) ==> Lower(text[i]) in Kept(text, stopwords)
    decreases |text|
  {
    if text != [] {
      var init, last := text[..|text| - 1], text[|text| - 1];
      KeptComplete(init, stopwords);
      KeptLast(text, stopwords);
      forall i | 0 <= i < |text| && !Contains(stopwords, Lower(text[i]))
        ensures Lower(text[i]) in Kept(text, stopwords)
      {
        if i < |init| {
          assert text[i] == init[i];
        }
      }
    }
  }

  lemma {:induction false} KeptFromText(text: seq<string>, stopwords: string)
    ensures forall w :: w in Kept(text, stopwords) ==> exists i :: 0 <= i < |text| && w == Lower(text[i])
    decreases |text|
  {
    if text != [] {
      var init, last := text[..|text| - 1], text[|text| - 1];
      KeptFromText(init, stopwords);
      KeptLast(text, stopwords);
      forall w | w in Kept(text, stopwords)
        ensures exists i :: 0 <= i < |text| && w == Lower(text[i])
      {
        if w in Kept(init, stopwords) {
          var i :| 0 <= i < |init| && w == Lower(init[i]);
          assert text[i] == init[i];
        } else {
          assert w == Lower(last);
        }
      }
    }
  }

  /** The last token adds its lower-cased form, unless that is a stop word. */
  lemma KeptLast(text: seq<string>, stopwords: string)
    requires text != []
    ensures var init, word := text[..|text| - 1], Lower(text[|text| - 1]);
      forall w :: w in Kept(text, stopwords) <==> w in Kept(init, stopwords) || (w == word && !Contains(stopwords, word))
  {
  }

  /** `s.split(' ')`: the pieces between the spaces of `s`. */
  function Split(s: string): (r: seq<string>)
    ensures r != []
    decreases |s|
  {
    if ' ' !in s then [s]
    else
      var k := FirstSpace(s);
      [s[..k]] + Split(s[k + 1..])
  }

  function FirstSpace(s: string): (k: nat)
    requires ' ' in s
    ensures k < |s| && s[k] == ' ' && ' ' !in s[..k]
  {
    if s[0] == ' ' then 0 else 1 + FirstSpace(s[1..])
  }

  lemma FirstSpaceAfter(w: string, rest: string)
    requires ' ' !in w
    ensures ' ' in w + " " + rest && FirstSpace(w + " " + rest) == |w|
    decreases |w|
  {
    var s := w + " " + rest;
    assert s[|w|] == ' ';
    if w != [] {
      assert s[1..] == w[1..] + " " + rest;
      FirstSpaceAfter(w[1..], rest);
    }
  }

  /**
   * The joined document splits back into the kept tokens when none of
   * them holds a space: joining loses nothing.
   */
  lemma {:induction false} SplitJoin(words: seq<string>)
    requires words != [] && forall w :: w in words ==> ' ' !in w
    ensures Split(Join(words)) == words
    decreases |words|
  {
    if |words| > 1 {
      var rest := Join(words[1..]);
      assert Join(words) == words[0] + " " + rest;
      SplitAfterWord(words[0], rest);
      SplitJoin(words[1..]);
      assert words == [words[0]] + words[1..];
    }
  }

  /** A word without a space, then a space: the word is the first piece. */
  lemma SplitAfterWord(w: string, rest: string)
    requires ' ' !in w
    ensures Split(w + " " + rest) == [w] + Split(rest)
  {
    var s := w + " " + rest;
    FirstSpaceAfter(w, rest);
    assert s[..|w|] == w;
    assert s[|w| + 1..] == rest;
  }

  // ---------------------------------------------------------------------
  // w2v_match

  /** The lower-cased query tokens that are in the vocabulary, in order. */
  function InVocabulary(queryTokens: seq<string>, vocab: set<string>): (r: seq<string>)
    ensures |r| <= |queryTokens|
  {
    if queryTokens == [] then []
    else
      var word := Lower(queryTokens[|queryTokens| - 1]);
      InVocabulary(queryTokens[..|queryTokens| - 1], vocab) + (if word in vocab then [word] else [])
  }

  /**
   * The loop of `w2v_match` that builds `process_token` and joins it; the
   * vectorising and the cosine distances that follow are not part of
   * this model.
   */
  method ProcessQuery(queryTokens: seq<string>, vocab: set<string>) returns (processToken: string)
    ensures processToken == Join(InVocabulary(queryTokens, vocab))
  {
    var kept: seq<string> := [];
    for w := 0 to |queryTokens|
      invariant kept == InVocabulary(queryTokens[..w], vocab)
    {
      assert queryTokens[..w + 1][..w] == queryTokens[..w];
      var word := Lower(queryTokens[w]);
      if word !in vocab {
        continue;
      }
      kept := kept + [word];
    }
    assert queryTokens[..|queryTokens|] == queryTokens;
    processToken := Join(kept);
  }

  /** A query token survives exactly when its lower-cased form is in the vocabulary. */
  lemma {:induction false} InVocabularyMembers(queryTokens: seq<string>, vocab: set<string>)
    ensures forall w :: w in InVocabulary(queryTokens, vocab) <==>
                          w in vocab && exists i :: 0 <= i < |queryTokens| && w == Lower(queryTokens[i])
    decreases |queryTokens|
  {
    if queryTokens != [] {
      var init := queryTokens[..|queryTokens| - 1];
      InVocabularyMembers(init, vocab);
      forall w | w in vocab && exists i :: 0 <= i < |queryTokens| && w == Lower(queryTokens[i])
        ensures w in InVocabulary(queryTokens, vocab)
      {
        var i :| 0 <= i < |queryTokens| && w == Lower(queryTokens[i]);
        if i < |init| {
          assert init[i] == queryTokens[i];
        }
      }
      forall w | w in InVocabulary(queryTokens, vocab)
        ensures exists i :: 0 <= i < |queryTokens| && w == Lower(queryTokens[i])
      {
        if w in InVocabulary(init, vocab) {
          var i :| 0 <= i < |init| && w == Lower(init[i]);
          assert init[i] == queryTokens[i];
        } else {
          assert w == Lower(queryTokens[|queryTokens| - 1]);
        }
      }
    }
  }
}
