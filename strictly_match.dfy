/**
 * `StrictlyMatchModel` of Models/StrictlyMatch/API/strictlyMatch.py: for
 * every tokenised sentence of the corpus, the keywords of a query list that
 * occur in it as whole tokens, gathered in a dict keyed by the sentence.
 */
module StrictlyMatch {
  import opened Multisets

  /** The keywords that occur in `sentence`, in `keywordList` order and with its repeats. */
  function Matched(sentence: seq<string>, keywordList: seq<string>): (r: seq<string>)
    ensures |r| <= |keywordList|
  {
    if keywordList == [] then []
    else
      var keyword := keywordList[|keywordList| - 1];
      Matched(sentence, keywordList[..|keywordList| - 1]) + (if keyword in sentence then [keyword] else [])
  }

  /** `match_corpus[s]`, or nothing yet. */
  function Found(m: map<seq<string>, seq<string>>, s: seq<string>): seq<string>
  {
    if s in m then m[s] else []
  }

  /** `found` appended under `s`; the key appears only once something is found. */
  function AddFound(m: map<seq<string>, seq<string>>, s: seq<string>, found: seq<string>): map<seq<string>, seq<string>>
  {
    if found == [] then m else m[s := Found(m, s) + found]
  }

  /** The dict `retrieve` builds over `corpora`, sentence by sentence. */
  function Retrieved(corpora: seq<seq<string>>, keywordList: seq<string>): map<seq<string>, seq<string>>
  {
    if corpora == [] then map[]
    else
      var sentence := corpora[|corpora| - 1];
      AddFound(Retrieved(corpora[..|corpora| - 1], keywordList), sentence, Matched(sentence, keywordList))
  }

  /** Appending one more keyword under `s`, as the inner loop does. */
  lemma AddFoundStep(m: map<seq<string>, seq<string>>, s: seq<string>, found: seq<string>, keyword: string)
    ensures var before := AddFound(m, s, found);
      AddFound(m, s, found + [keyword]) == before[s := Found(before, s) + [keyword]]
  {
    if found == [] {
      assert found + [keyword] == [keyword];
    } else {
      assert Found(m, s) + found + [keyword] == Found(m, s) + (found + [keyword]);
    }
  }

  class StrictlyMatchModel {
    const corpora: seq<seq<string>>

    constructor (corpora: seq<seq<string>>)
      ensures this.corpora == corpora
    {
      this.corpora := corpora;
    }

    /** `retrieve`: the nested loop that fills `match_corpus`. */
    method Retrieve(keywordList: seq<string>) returns (matchCorpus: map<seq<string>, seq<string>>)
      ensures matchCorpus == Retrieved(corpora, keywordList)
    {
      matchCorpus := map[];
      for d := 0 to |corpora|
        invariant matchCorpus == Retrieved(corpora[..d], keywordList)
      {
        assert corpora[..d + 1][..d] == corpora[..d];
        var sentence := corpora[d];
        ghost var before := matchCorpus;
        for k := 0 to |keywordList|
          invariant matchCorpus == AddFound(before, sentence, Matched(sentence, keywordList[..k]))
        {
          assert keywordList[..k + 1][..k] == keywordList[..k];
          var keyword := keywordList[k];
          ghost var found := Matched(sentence, keywordList[..k]);
          if keyword in sentence {
            assert Matched(sentence, keywordList[..k + 1]) == found + [keyword];
            AddFoundStep(before, sentence, found, keyword);
            if sentence in matchCorpus {
              matchCorpus := matchCorpus[sentence := matchCorpus[sentence] + [keyword]];
            } else {
              assert Found(matchCorpus, sentence) + [keyword] == [keyword];
              matchCorpus := matchCorpus[sentence := [keyword]];
            }
          } else {
            assert Matched(sentence, keywordList[..k + 1]) == found + [];
            assert found + [] == found;
          }
        }
        assert keywordList[..|keywordList|] == keywordList;
      }
      assert corpora[..|corpora|] == corpora;
    }
  }

  /** A keyword is listed for a sentence exactly when the query lists it and the sentence holds it. */
  lemma {:induction false} MatchedMembers(sentence: seq<string>, keywordList: seq<string>)
    ensures forall k :: k in Matched(sentence, keywordList) <==> k in keywordList && k in sentence
    decreases |keywordList|
  {
    if keywordList != [] {
      var init := keywordList[..|keywordList| - 1];
      MatchedMembers(sentence, init);
      assert keywordList == init + [keywordList[|keywordList| - 1]];
    }
  }

  /** `s` repeated `n` times, end to end. */
  function RepeatSeq(s: seq<string>, n: nat): (r: seq<string>)
    ensures |r| == n * |s|
  {
    if n == 0 then [] else RepeatSeq(s, n - 1) + s
  }

  /** A sentence is a key exactly when it is in the corpus and holds some keyword. */
  lemma {:induction false} RetrievedKeys(corpora: seq<seq<string>>, keywordList: seq<string>, s: seq<string>)
    ensures s in Retrieved(corpora, keywordList) <==> s in corpora && Matched(s, keywordList) != []
    decreases |corpora|
  {
    if corpora != [] {
      var init := corpora[..|corpora| - 1];
      var last := corpora[|corpora| - 1];
      RetrievedKeys(init, keywordList, s);
      assert corpora == init + [last];
      assert s in corpora <==> s in init || s == last;
    }
  }

  /** The value of a sentence lists its keywords once per occurrence of the sentence in the corpus. */
  lemma {:induction false} RetrievedValues(corpora: seq<seq<string>>, keywordList: seq<string>, s: seq<string>)
    ensures Found(Retrieved(corpora, keywordList), s) == RepeatSeq(Matched(s, keywordList), multiset(corpora)[s])
    decreases |corpora|
  {
    if corpora != [] {
      var init := corpora[..|corpora| - 1];
      var last := corpora[|corpora| - 1];
      RetrievedValues(init, keywordList, s);
      CountLast(corpora, s);
      var found := Matched(last, keywordList);
      var m := Retrieved(init, keywordList);
      FoundAfterAdd(m, last, found, s);
      if s == last {
        assert Found(m, s) + found == RepeatSeq(found, multiset(init)[s] + 1);
      }
    }
  }

  /** Adding `found` under `last` appends it to the value of `last` and leaves every other sentence's value. */
  lemma FoundAfterAdd(m: map<seq<string>, seq<string>>, last: seq<string>, found: seq<string>, s: seq<string>)
    ensures Found(AddFound(m, last, found), s) == if s == last then Found(m, s) + found else Found(m, s)
  {
    if found == [] {
      assert Found(m, s) + found == Found(m, s);
    }
  }

  lemma {:induction false} MatchedNone(sentence: seq<string>, keywordList: seq<string>)
    requires forall k :: 0 <= k < |keywordList| ==> keywordList[k] !in sentence
    ensures Matched(sentence, keywordList) == []
    decreases |keywordList|
  {
    if keywordList != [] {
      MatchedNone(sentence, keywordList[..|keywordList| - 1]);
    }
  }

  /** No sentence holds a keyword: the result is the empty dict. */
  lemma {:induction false} NoMatchEmpty(corpora: seq<seq<string>>, keywordList: seq<string>)
    requires forall i, k :: 0 <= i < |corpora| && 0 <= k < |keywordList| ==> keywordList[k] !in corpora[i]
    ensures Retrieved(corpora, keywordList) == map[]
    decreases |corpora|
  {
    if corpora != [] {
      NoMatchEmpty(corpora[..|corpora| - 1], keywordList);
      MatchedNone(corpora[|corpora| - 1], keywordList);
    }
  }
}
