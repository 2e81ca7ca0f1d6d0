/**
 * The class `archMixModel` of Models/MixModel/archMixModel.py: the fused
 * BM25/LMIR score of an `lmirBm25Model` with its default weights and the
 * score of a Doc2Vec feature model, mixed with two model weights and
 * min-max normalised.  The Doc2Vec model is not part of this model; it
 * enters as the function from query tokens to its "ALL" scores.
 */
module ArchMixSearch {
  import opened Wrappers
  import opened FreqFeature
  import opened LmirBm25
  import opened Vectors
  import opened ArchDataset
  import opened Ranking
  import opened LmirBm25Fusion
  import opened ArchLmirBm25Search

  /** The dict `forward` returns, keyed staticModel, featureModel and ALL. */
  datatype Mixed = Mixed(staticModel: seq<real>, featureModel: seq<real>, all: seq<real>)

  /** numpy broadcasts two one-dimensional arrays of equal length, or when either has length 1. */
  predicate Broadcastable(n: nat, m: nat)
  {
    n == m || n == 1 || m == 1
  }

  function BroadcastLength(n: nat, m: nat): nat
  {
    if n == 1 then m else n
  }

  /** `u + v` with numpy's broadcasting; ValueError when the shapes do not match. */
  function BroadcastAdd(u: seq<real>, v: seq<real>): (r: Result<seq<real>>)
    ensures r.Ok? <==> Broadcastable(|u|, |v|)
    ensures r.Err? ==> r.error == ValueError
    ensures r.Ok? ==> |r.value| == BroadcastLength(|u|, |v|)
    ensures r.Ok? ==> forall i :: 0 <= i < |r.value| ==>
                        r.value[i] == (if |u| == 1 then u[0] else u[i]) + (if |v| == 1 then v[0] else v[i])
  {
    if |u| == |v| then Ok(Add(u, v))
    else if |u| == 1 then Ok(seq(|v|, i requires 0 <= i < |v| => u[0] + v[i]))
    else if |v| == 1 then Ok(seq(|u|, i requires 0 <= i < |u| => u[i] + v[0]))
    else Err(ValueError)
  }

  /** Min-max normalisation keeps the order of any two entries, and leaves [0, 1] only for a constant array. */
  lemma MinMaxOrders(w: seq<real>, i: int, j: int)
    requires 0 <= i < |w| && 0 <= j < |w|
    ensures var a := MinMax(w).value;
      && (w[i] <= w[j] <==> a[i] <= a[j])
      && (0.0 <= a[i] <= 1.0 || Constant(w))
  {
    if Constant(w) {
      MinMaxConstant(w);
    } else {
      MinMaxSpread(w);
    }
  }

  /** `resultStatic * model_weight[0] + resultFeature * model_weight[1]`. */
  function MixWeighted(resultStatic: seq<real>, resultFeature: seq<real>, modelWeight: seq<real>): (r: Result<seq<real>>)
    ensures r.Ok? <==> |modelWeight| >= 2 && Broadcastable(|resultStatic|, |resultFeature|)
    ensures r.Err? ==> r.error == (if |modelWeight| < 2 then IndexError else ValueError)
    ensures r.Ok? && |resultStatic| == |resultFeature| ==>
              && |r.value| == |resultStatic|
              && forall i :: 0 <= i < |r.value| ==>
                   r.value[i] == resultStatic[i] * modelWeight[0] + resultFeature[i] * modelWeight[1]
  {
    if |modelWeight| < 2 then Err(IndexError)
    else BroadcastAdd(Scale(resultStatic, modelWeight[0]), Scale(resultFeature, modelWeight[1]))
  }

  class ArchMixModel {
    const archDataset: Arch
    const lists: AnnLists
    const modelWeight: seq<real>
    const staticModel: LmirBm25Model
    /** `featureModel.forward(X)["ALL"]`. */
    const featureModel: seq<Token> -> seq<real>

    constructor (archDataset: Arch, lists: AnnLists, modelWeight: seq<real>, staticModel: LmirBm25Model,
                 featureModel: seq<Token> -> seq<real>)
      ensures this.archDataset == archDataset && this.lists == lists && this.modelWeight == modelWeight
      ensures this.staticModel == staticModel && this.featureModel == featureModel
    {
      this.archDataset, this.lists, this.modelWeight := archDataset, lists, modelWeight;
      this.staticModel, this.featureModel := staticModel, featureModel;
    }

    /** The state `__init__` leaves. */
    ghost predicate Valid()
      reads this, archDataset
    {
      && lists.AlignedWith(archDataset.anns)
      && staticModel.model.BuiltFrom(lists.corporaList)
      && staticModel.modelWeight == DEFAULT_MODEL_WEIGHT
    }

    lemma ValidShape()
      requires Valid()
      ensures Count(staticModel.model.n) == |lists.annIdList| > 0 && lists.AlignedWith(archDataset.anns)
    {
      BuiltModelHasDocuments(staticModel.model, lists.corporaList);
    }

    /**
     * `forward`: both models' scores unchanged, and their weighted sum
     * min-max normalised.  An exception of the static model comes first,
     * then IndexError for fewer than two weights, then ValueError for shapes
     * numpy cannot add or an empty sum.
     */
    function Forward(X: seq<Token>): (r: Result<Mixed>)
      ensures var s := staticModel.Forward(X);
        && (r.Ok? <==> && s.Ok? && |modelWeight| >= 2
                       && Broadcastable(|s.value.all|, |featureModel(X)|)
                       && BroadcastLength(|s.value.all|, |featureModel(X)|) > 0)
        && (r.Err? ==> r.error == (if s.Err? then s.error else if |modelWeight| < 2 then IndexError else ValueError))
        && (r.Ok? ==> && r.value.staticModel == s.value.all && r.value.featureModel == featureModel(X)
                      && |r.value.all| == BroadcastLength(|s.value.all|, |featureModel(X)|))
    {
      match staticModel.Forward(X)
      case Err(e) => Err(e)
      case Ok(resultStatic) =>
        var resultFeature := featureModel(X);
        match MixWeighted(resultStatic.all, resultFeature, modelWeight)
        case Err(e) => Err(e)
        case Ok(resultWeighted) =>
          match MinMax(resultWeighted)
          case Err(e) => Err(e)
          case Ok(all) => Ok(Mixed(resultStatic.all, resultFeature, all))
    }

    /**
     * The mixed score orders two documents as the weighted sum of the two
     * models' scores does (`MixWeighted` spells that sum out), and unless
     * the sum is the same for every document it lies in [0, 1].
     */
    lemma ForwardRanks(X: seq<Token>, i: int, j: int)
      requires Forward(X).Ok?
      requires 0 <= i < |Forward(X).value.all| && 0 <= j < |Forward(X).value.all|
      ensures |modelWeight| >= 2
      ensures var m := Forward(X).value;
        var w := MixWeighted(m.staticModel, m.featureModel, modelWeight).value;
        && (w[i] <= w[j] <==> m.all[i] <= m.all[j])
        && (0.0 <= m.all[i] <= 1.0 || Constant(w))
    {
      ForwardNormalises(X);
      var m := Forward(X).value;
      MinMaxOrders(MixWeighted(m.staticModel, m.featureModel, modelWeight).value, i, j);
    }

    lemma ForwardNormalises(X: seq<Token>)
      requires Forward(X).Ok?
      ensures |modelWeight| >= 2
      ensures var m := Forward(X).value;
        && MixWeighted(m.staticModel, m.featureModel, modelWeight).Ok?
        && m.all == MinMax(MixWeighted(m.staticModel, m.featureModel, modelWeight).value).value
    {
    }

    /** `forwardWords` is not written yet: it always raises NotImplementedError. */
    function ForwardWords(X: seq<Token>, weights: seq<real>): (r: Result<Mixed>)
      ensures r.Err? && r.error == NotImplementedError
    {
      Err(NotImplementedError)
    }

    /** `searchSentence`: rank by the mixed score, as the other searches do. */
    method SearchSentence(listWords: seq<string>, tokenize: string -> seq<string>)
      returns (r: Result<SearchResult<seq<real>>>)
      ensures var X := Tokens(listWords, tokenize);
        var f := Forward(X);
        && (f.Err? ==> r == Err(f.error))
        && (r.Ok? ==> && f.Ok? && f.value.all != []
                      && IsDescendingRanking(r.value.index, f.value.all)
                      && r.value.sortedResult == MinMax(Along(f.value.all, r.value.index)).value
                      && MappedPrefix(r.value.index, |f.value.all|, lists, archDataset.anns)
                         == Ok(Mapped(r.value.copora, r.value.annoId, r.value.imageId)))
        && (Valid() && f.Ok? && |featureModel(X)| == |lists.annIdList| ==> r.Ok?)
    {
      var toSearch := CutAll(listWords, tokenize);
      var result := Forward(toSearch);
      if result.Err? {
        return Err(result.error);
      }
      if Valid() {
        ValidShape();
      }
      r := RankGuarded(result.value.all, lists, archDataset.anns);
    }

    /** `searchWords`: ends in the NotImplementedError of `forwardWords`. */
    method SearchWords(listWords: seq<string>, weights: seq<real>, tokenize: string -> seq<string>)
      returns (r: Result<SearchResult<seq<real>>>)
      ensures r == Err(NotImplementedError)
    {
      var toSearch := CutAll(listWords, tokenize);
      var result := ForwardWords(toSearch, weights);
      return Err(result.error);
    }
  }

  /**
   * `archMixModel(archPath, modelPath, model_weight)` over a loaded dataset
   * and a loaded feature model: the static model is an `lmirBm25Model` with
   * all its defaults, and construction fails exactly when no annotation has
   * a token.
   */
  method NewArchMixModel(arch: Arch, modelWeight: seq<real>, featureModel: seq<Token> -> seq<real>,
                         ln: real -> real, sqrt: real -> real)
    returns (r: Result<ArchMixModel>)
    requires arch.Valid()
    ensures r.Ok? <==> !NoTokens(arch)
    ensures r.Err? ==> r.error == ZeroDivisionError
    ensures r.Ok? ==> && fresh(r.value) && r.value.Valid()
                      && r.value.archDataset == arch && r.value.lists.annIdList == arch.annOrder
                      && r.value.modelWeight == modelWeight && r.value.featureModel == featureModel
                      && r.value.staticModel.model.k1 == DEFAULT_K1 && r.value.staticModel.model.b == DEFAULT_B
                      && r.value.staticModel.model.lamb == DEFAULT_LAMB && r.value.staticModel.model.mu == DEFAULT_MU
                      && r.value.staticModel.model.delta == DEFAULT_DELTA
                      && r.value.staticModel.model.epsilon == DEFAULT_EPSILON
  {
    var lists := BuildLists(arch);
    ListsHaveToken(arch, lists);
    var staticModel := NewLmirBm25Model(lists.corporaList, DEFAULT_MODEL_WEIGHT, DEFAULT_K1, DEFAULT_B, DEFAULT_LAMB,
                                        DEFAULT_MU, DEFAULT_DELTA, DEFAULT_EPSILON, ln, sqrt);
    if staticModel.Err? {
      return Err(staticModel.error);
    }
    var m := new ArchMixModel(arch, lists, modelWeight, staticModel.value, featureModel);
    r := Ok(m);
  }
}
