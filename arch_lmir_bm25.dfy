/**
 * The class `archLmirBm25Model` of Models/Bm25LMIR/archLmirBm25Model.py: an
 * `Arch` dataset, the three lists of its annotations in the dict's order,
 * and an `lmirBm25Model` over the cut texts.  A search cuts the query
 * strings, scores every annotation, ranks them from the highest fused score
 * down, normalises the ranked scores without guarding against a zero spread,
 * and looks each ranked position up.
 */
module ArchLmirBm25Search {
  import opened Wrappers
  import opened FreqFeature
  import opened CorpusFeatures
  import opened LmirBm25
  import opened Vectors
  import opened ArchDataset
  import opened Ranking
  import opened LmirBm25Fusion

  class ArchLmirBm25Model {
    const archDataset: Arch
    const lists: AnnLists
    const modelWeight: seq<real>
    const model: LmirBm25Model

    constructor (archDataset: Arch, lists: AnnLists, modelWeight: seq<real>, model: LmirBm25Model)
      ensures this.archDataset == archDataset && this.lists == lists
      ensures this.modelWeight == modelWeight && this.model == model
    {
      this.archDataset, this.lists, this.modelWeight, this.model := archDataset, lists, modelWeight, model;
    }

    /**
     * The state `__init__` leaves: the lists describe the dataset's
     * annotations, and the model was built from the cut texts with the
     * given weights.
     */
    ghost predicate Valid()
      reads this, archDataset
    {
      && lists.AlignedWith(archDataset.anns)
      && model.model.BuiltFrom(lists.corporaList)
      && model.modelWeight == modelWeight
    }

    /** On a valid model every annotation has one fused score. */
    lemma ValidShape()
      requires Valid()
      ensures Count(model.model.n) == |lists.annIdList| > 0 && lists.AlignedWith(archDataset.anns)
    {
      BuiltModelHasDocuments(model.model, lists.corporaList);
    }

    /**
     * `searchSentence`: an exception of `forward` propagates; otherwise the
     * annotations come ranked by their fused score, with the ranked scores
     * normalised, and on a valid model every lookup succeeds.
     */
    method SearchSentence(listWords: seq<string>, tokenize: string -> seq<string>)
      returns (r: Result<SearchResult<Normalized>>)
      ensures var f := model.Forward(Tokens(listWords, tokenize));
        && (f.Err? ==> r == Err(f.error))
        && (r.Ok? ==> && f.Ok? && f.value.all != []
                      && IsDescendingRanking(r.value.index, f.value.all)
                      && r.value.sortedResult == MinMaxUnguarded(Along(f.value.all, r.value.index)).value
                      && MappedPrefix(r.value.index, |f.value.all|, lists, archDataset.anns)
                         == Ok(Mapped(r.value.copora, r.value.annoId, r.value.imageId)))
        && (Valid() && f.Ok? ==> r.Ok?)
    {
      var toSearch := CutAll(listWords, tokenize);
      var result := model.Forward(toSearch);
      if result.Err? {
        return Err(result.error);
      }
      if Valid() {
        ValidShape();
      }
      r := RankUnguarded(result.value.all, lists, archDataset.anns);
    }

    /**
     * `searchWords`: the tokens of all query strings go to `forwardWords`
     * with the caller's weights as they are.  With no token at all the
     * fused score is numpy's scalar zero, and reversing its zero-dimensional
     * `argsort` raises IndexError.
     */
    method SearchWords(listWords: seq<string>, weights: seq<real>, tokenize: string -> seq<string>)
      returns (r: Result<SearchResult<Normalized>>)
      ensures var f := model.ForwardWordsOf(Tokens(listWords, tokenize), weights);
        && (f.Err? ==> r == Err(f.error))
        && (f.Ok? && f.value.NoWords? ==> r == Err(IndexError))
        && (r.Ok? ==> && f.Ok? && f.value.PerModel? && f.value.fused.all != []
                      && IsDescendingRanking(r.value.index, f.value.fused.all)
                      && r.value.sortedResult == MinMaxUnguarded(Along(f.value.fused.all, r.value.index)).value
                      && MappedPrefix(r.value.index, |f.value.fused.all|, lists, archDataset.anns)
                         == Ok(Mapped(r.value.copora, r.value.annoId, r.value.imageId)))
        && (Valid() && f.Ok? && f.value.PerModel? ==> r.Ok?)
    {
      var toSearch := CutAll(listWords, tokenize);
      var result := model.ForwardWords(toSearch, weights);
      if result.Err? {
        return Err(result.error);
      }
      if result.value.NoWords? {
        return Err(IndexError);
      }
      if Valid() {
        ValidShape();
      }
      r := RankUnguarded(result.value.fused.all, lists, archDataset.anns);
    }
  }

  /** No annotation of the dataset has a token in its cut text. */
  ghost predicate NoTokens(arch: Arch)
    reads arch
  {
    forall id :: id in arch.anns ==> arch.anns[id].cutConcateText == []
  }

  lemma ListsHaveToken(arch: Arch, lists: AnnLists)
    requires lists.AlignedWith(arch.anns)
    requires forall id :: id in arch.anns <==> id in lists.annIdList
    ensures HasToken(lists.corporaList) <==> !NoTokens(arch)
  {
    if !NoTokens(arch) {
      var id :| id in arch.anns && arch.anns[id].cutConcateText != [];
      var i :| 0 <= i < |lists.annIdList| && lists.annIdList[i] == id;
      assert lists.corporaList[i] != [];
    }
    if HasToken(lists.corporaList) {
      var i :| 0 <= i < |lists.corporaList| && lists.corporaList[i] != [];
      var id := lists.annIdList[i];
      assert id in arch.anns && arch.anns[id].cutConcateText != [];
      assert !NoTokens(arch);
    }
  }

  /**
   * `archLmirBm25Model(archPath, model_weight)` over a loaded dataset: the
   * lists follow the dataset's annotation order, the model is an
   * `lmirBm25Model` with its default hyperparameters, and construction fails
   * with ZeroDivisionError exactly when no annotation has a token.
   */
  method NewArchLmirBm25Model(arch: Arch, modelWeight: seq<real>, ln: real -> real, sqrt: real -> real)
    returns (r: Result<ArchLmirBm25Model>)
    requires arch.Valid()
    ensures r.Ok? <==> !NoTokens(arch)
    ensures r.Err? ==> r.error == ZeroDivisionError
    ensures r.Ok? ==> && fresh(r.value) && r.value.Valid()
                      && r.value.archDataset == arch && r.value.lists.annIdList == arch.annOrder
                      && r.value.modelWeight == modelWeight
                      && r.value.model.model.k1 == DEFAULT_K1 && r.value.model.model.b == DEFAULT_B
                      && r.value.model.model.lamb == DEFAULT_LAMB && r.value.model.model.mu == DEFAULT_MU
                      && r.value.model.model.delta == DEFAULT_DELTA && r.value.model.model.epsilon == DEFAULT_EPSILON
  {
    var lists := BuildLists(arch);
    ListsHaveToken(arch, lists);
    var model := NewLmirBm25Model(lists.corporaList, modelWeight, DEFAULT_K1, DEFAULT_B, DEFAULT_LAMB,
                                  DEFAULT_MU, DEFAULT_DELTA, DEFAULT_EPSILON, ln, sqrt);
    if model.Err? {
      return Err(model.error);
    }
    var m := new ArchLmirBm25Model(arch, lists, modelWeight, model.value);
    r := Ok(m);
  }
}
