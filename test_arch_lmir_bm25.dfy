/**
 * The class `archLmirBm25Model` of TestModel/archLmirBm25Model.py, the
 * variant the test server uses: its `standardization` leaves a constant
 * array as it is, and `searchWords` first splits each query string's
 * weight over the tokens cut so far (`cut_words`).
 */
module TestArchLmirBm25Search {
  import opened Wrappers
  import opened FreqFeature
  import opened LmirBm25
  import opened Vectors
  import opened ArchDataset
  import opened Ranking
  import opened LmirBm25Fusion
  import opened ArchLmirBm25Search

  // ---------------------------------------------------------------------
  // cut_words

  /**
   * `cut_words`: the tokens of every query string, and for string `i` the
   * weight `weights[i] / len(cutWords)` repeated `len(cutWords)` times,
   * where `cutWords` holds the tokens of strings `0..i` together.  Reading
   * `weights[i]` raises IndexError before the division can raise
   * ZeroDivisionError, and after the first string the divisor is never 0.
   */
  function CutWordsOf(listWords: seq<string>, weights: seq<real>, tokenize: string -> seq<string>)
    : (r: Result<(seq<string>, seq<real>)>)
    ensures r.Ok? <==> |listWords| <= |weights| && (listWords != [] ==> tokenize(listWords[0]) != [])
    ensures r.Err? ==> r.error == (if weights == [] || tokenize(listWords[0]) != [] then IndexError else ZeroDivisionError)
    ensures r.Ok? ==> r.value.0 == Tokens(listWords, tokenize)
    ensures r.Ok? ==> |r.value.1| >= |r.value.0|
    ensures r.Ok? && |listWords| >= 2 ==> |r.value.1| > |r.value.0|
  {
    if listWords == [] then Ok(([], []))
    else
      var i := |listWords| - 1;
      match CutWordsOf(listWords[..i], weights, tokenize)
      case Err(e) => Err(e)
      case Ok((cutWords, newWeight)) =>
        var cut := cutWords + tokenize(listWords[i]);
        if i >= |weights| then Err(IndexError)
        else if |cut| == 0 then Err(ZeroDivisionError)
        else Ok((cut, newWeight + Repeat(weights[i] / |cut| as real, |cut|)))
  }

  method CutWords(listWords: seq<string>, weights: seq<real>, tokenize: string -> seq<string>)
    returns (r: Result<(seq<string>, seq<real>)>)
    ensures r == CutWordsOf(listWords, weights, tokenize)
  {
    var cutWords: seq<string> := [];
    var newWeight: seq<real> := [];
    for i := 0 to |listWords|
      invariant CutWordsOf(listWords[..i], weights, tokenize) == Ok((cutWords, newWeight))
    {
      assert listWords[..i + 1][..i] == listWords[..i];
      cutWords := cutWords + tokenize(listWords[i]);
      if i >= |weights| {
        return Err(IndexError);
      }
      if |cutWords| == 0 {
        return Err(ZeroDivisionError);
      }
      var weight := weights[i] / |cutWords| as real;
      newWeight := newWeight + Repeat(weight, |cutWords|);
    }
    assert listWords[..|listWords|] == listWords;
    r := Ok((cutWords, newWeight));
  }

  /** One more query string, when its weight exists and the words so far are not empty. */
  lemma CutWordsStep(listWords: seq<string>, s: string, weights: seq<real>, tokenize: string -> seq<string>,
                     cutWords: seq<string>, newWeight: seq<real>)
    requires CutWordsOf(listWords, weights, tokenize) == Ok((cutWords, newWeight))
    requires |listWords| < |weights| && cutWords + tokenize(s) != []
    ensures var cut := cutWords + tokenize(s);
      CutWordsOf(listWords + [s], weights, tokenize)
        == Ok((cut, newWeight + Repeat(weights[|listWords|] / |cut| as real, |cut|)))
  {
    assert (listWords + [s])[..|listWords|] == listWords;
  }

  /** The docstring's example: "中国红花" cut into two words with weight 1 gives each word 0.5. */
  lemma CutWordsSplitsOneString(tokenize: string -> seq<string>)
    requires tokenize("中国红花") == ["中国", "红花"]
    ensures CutWordsOf(["中国红花"], [1.0], tokenize) == Ok((["中国", "红花"], [0.5, 0.5]))
  {
    CutWordsStep([], "中国红花", [1.0], tokenize, [], []);
    assert [] + ["中国红花"] == ["中国红花"];
    var c := CutWordsOf(["中国红花"], [1.0], tokenize);
    assert c == Ok(([] + tokenize("中国红花"), [] + Repeat(1.0 / 2 as real, 2)));
    assert [] + tokenize("中国红花") == ["中国", "红花"];
    assert c.value.0 == ["中国", "红花"];
    assert Repeat(0.5, 2) == [0.5, 0.5];
    assert c.value.1 == [0.5, 0.5];
  }

  /**
   * The words of the first string share its weight evenly; a later
   * string's weight is divided by the number of tokens of all strings so
   * far.  Two strings of two words and one word with weight 1 each give the
   * third word 1/3, and `forwardWords` reads only the first three weights.
   */
  lemma CutWordsLaterStrings(tokenize: string -> seq<string>)
    requires tokenize("a") == ["x", "y"] && tokenize("b") == ["z"]
    ensures CutWordsOf(["a", "b"], [1.0, 1.0], tokenize)
              == Ok((["x", "y", "z"], [0.5, 0.5, 1.0 / 3.0, 1.0 / 3.0, 1.0 / 3.0]))
  {
    var weights := [1.0, 1.0];
    CutWordsFirstOfTwo(tokenize);
    CutWordsStep(["a"], "b", weights, tokenize, ["x", "y"], [0.5, 0.5]);
    assert ["a"] + ["b"] == ["a", "b"];
    assert ["x", "y"] + tokenize("b") == ["x", "y", "z"];
    assert [0.5, 0.5] + Repeat(1.0 / 3 as real, 3) == [0.5, 0.5, 1.0 / 3.0, 1.0 / 3.0, 1.0 / 3.0] by {
      assert Repeat(1.0 / 3.0, 3) == [1.0 / 3.0, 1.0 / 3.0, 1.0 / 3.0];
    }
  }

  lemma CutWordsFirstOfTwo(tokenize: string -> seq<string>)
    requires tokenize("a") == ["x", "y"]
    ensures CutWordsOf(["a"], [1.0, 1.0], tokenize) == Ok((["x", "y"], [0.5, 0.5]))
  {
    var none: seq<string> := [];
    CutWordsStep(none, "a", [1.0, 1.0], tokenize, [], []);
    assert none + ["a"] == ["a"];
    assert [] + tokenize("a") == ["x", "y"];
    assert [] + Repeat(1.0 / 2 as real, 2) == [0.5, 0.5] by {
      assert Repeat(0.5, 2) == [0.5, 0.5];
    }
  }

  /** Every word of the first query string carries that string's weight divided by its word count. */
  lemma {:induction false} CutWordsFirstString(listWords: seq<string>, weights: seq<real>, tokenize: string -> seq<string>)
    requires CutWordsOf(listWords, weights, tokenize).Ok? && listWords != []
    ensures var c := |tokenize(listWords[0])|;
      var newWeight := CutWordsOf(listWords, weights, tokenize).value.1;
      c <= |newWeight| && forall j :: 0 <= j < c ==> newWeight[j] == weights[0] / c as real
    decreases |listWords|
  {
    if |listWords| > 1 {
      var init := listWords[..|listWords| - 1];
      assert init[0] == listWords[0];
      CutWordsFirstString(init, weights, tokenize);
    } else {
      assert listWords[..0] == [];
    }
  }

  // ---------------------------------------------------------------------
  // archLmirBm25Model

  class TestArchLmirBm25Model {
    const archDataset: Arch
    const lists: AnnLists
    const modelWeight: seq<real>
    const model: LmirBm25Model

    constructor (archDataset: Arch, lists: AnnLists, modelWeight: seq<real>, model: LmirBm25Model)
      ensures this.archDataset == archDataset && this.lists == lists
      ensures this.modelWeight == modelWeight && this.model == model
    {
      this.archDataset, this.lists, this.modelWeight, this.model := archDataset, lists, modelWeight, model;
    }

    /** The state `__init__` leaves, as for the model without the guard. */
    ghost predicate Valid()
      reads this, archDataset
    {
      && lists.AlignedWith(archDataset.anns)
      && model.model.BuiltFrom(lists.corporaList)
      && model.modelWeight == modelWeight
    }

    lemma ValidShape()
      requires Valid()
      ensures Count(model.model.n) == |lists.annIdList| > 0 && lists.AlignedWith(archDataset.anns)
    {
      BuiltModelHasDocuments(model.model, lists.corporaList);
    }

    /**
     * `searchSentence`: as without the guard, except that the ranked scores
     * of a constant array come back unchanged.
     */
    method SearchSentence(listWords: seq<string>, tokenize: string -> seq<string>)
      returns (r: Result<SearchResult<seq<real>>>)
      ensures var f := model.Forward(Tokens(listWords, tokenize));
        && (f.Err? ==> r == Err(f.error))
        && (r.Ok? ==> && f.Ok? && f.value.all != []
                      && IsDescendingRanking(r.value.index, f.value.all)
                      && r.value.sortedResult == MinMax(Along(f.value.all, r.value.index)).value
                      && MappedPrefix(r.value.index, |f.value.all|, lists, archDataset.anns)
                         == Ok(Mapped(r.value.copora, r.value.annoId, r.value.imageId)))
        && (Valid() && f.Ok? ==> r.Ok?)
    {
      var toSearch := CutAll(listWords, tokenize);
      var result := model.Forward(toSearch);
      if result.Err? {
        return Err(result.error);
      }
      if Valid() {
        ValidShape();
      }
      r := RankGuarded(result.value.all, lists, archDataset.anns);
    }

    /**
     * `searchWords`: the words and weights of `cut_words` go to
     * `forwardWords`; an exception of either propagates, and no words at
     * all end in IndexError.
     */
    method SearchWords(listWords: seq<string>, weights: seq<real>, tokenize: string -> seq<string>)
      returns (r: Result<SearchResult<seq<real>>>)
      ensures var c := CutWordsOf(listWords, weights, tokenize);
        && (c.Err? ==> r == Err(c.error))
        && (c.Ok? ==>
              var f := model.ForwardWordsOf(c.value.0, c.value.1);
              && (f.Err? ==> r == Err(f.error))
              && (f.Ok? && f.value.NoWords? ==> r == Err(IndexError))
              && (r.Ok? ==> && f.Ok? && f.value.PerModel? && f.value.fused.all != []
                            && IsDescendingRanking(r.value.index, f.value.fused.all)
                            && r.value.sortedResult == MinMax(Along(f.value.fused.all, r.value.index)).value
                            && MappedPrefix(r.value.index, |f.value.fused.all|, lists, archDataset.anns)
                               == Ok(Mapped(r.value.copora, r.value.annoId, r.value.imageId)))
              && (Valid() && f.Ok? && f.value.PerModel? ==> r.Ok?))
    {
      var cut := CutWords(listWords, weights, tokenize);
      if cut.Err? {
        return Err(cut.error);
      }
      var result := model.ForwardWords(cut.value.0, cut.value.1);
      if result.Err? {
        return Err(result.error);
      }
      if result.value.NoWords? {
        return Err(IndexError);
      }
      if Valid() {
        ValidShape();
      }
      r := RankGuarded(result.value.fused.all, lists, archDataset.anns);
    }
  }

  /** `archLmirBm25Model(archPath, model_weight)` of the test server, over a loaded dataset. */
  method NewTestArchLmirBm25Model(arch: Arch, modelWeight: seq<real>, ln: real -> real, sqrt: real -> real)
    returns (r: Result<TestArchLmirBm25Model>)
    requires arch.Valid()
    ensures r.Ok? <==> !NoTokens(arch)
    ensures r.Err? ==> r.error == ZeroDivisionError
    ensures r.Ok? ==> && fresh(r.value) && r.value.Valid()
                      && r.value.archDataset == arch && r.value.lists.annIdList == arch.annOrder
                      && r.value.modelWeight == modelWeight
                      && r.value.model.model.k1 == DEFAULT_K1 && r.value.model.model.b == DEFAULT_B
                      && r.value.model.model.lamb == DEFAULT_LAMB && r.value.model.model.mu == DEFAULT_MU
                      && r.value.model.model.delta == DEFAULT_DELTA && r.value.model.model.epsilon == DEFAULT_EPSILON
  {
    var lists := BuildLists(arch);
    ListsHaveToken(arch, lists);
    var model := NewLmirBm25Model(lists.corporaList, modelWeight, DEFAULT_K1, DEFAULT_B, DEFAULT_LAMB,
                                  DEFAULT_MU, DEFAULT_DELTA, DEFAULT_EPSILON, ln, sqrt);
    if model.Err? {
      return Err(model.error);
    }
    var m := new TestArchLmirBm25Model(arch, lists, modelWeight, model.value);
    r := Ok(m);
  }
}
