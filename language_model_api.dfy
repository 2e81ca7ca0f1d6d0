/**
 * The class `StatisticModel` of Models/StatisticModel/API/LanguageModelAPI.py:
 * a `BM25_LMIR` built with its default hyperparameters, whose four scorers'
 * results are min-max normalised.  BM25 is normalised as it is; the three
 * LMIR scores are negated first, so that in every result a larger value
 * means a better match.
 */
module LanguageModelApi {
  import opened Wrappers
  import opened FreqFeature
  import opened Scoring
  import opened CorpusFeatures
  import opened LmirBm25
  import opened Vectors

  /** `standarlization` of a scorer's result, or the scorer's exception. */
  function Standarlization(raw: Result<seq<real>>): (r: Result<seq<real>>)
    ensures r.Ok? <==> raw.Ok? && raw.value != []
    ensures r.Err? ==> r.error == (if raw.Err? then raw.error else ValueError)
    ensures r.Ok? ==> |r.value| == |raw.value|
  {
    match raw
    case Err(e) => Err(e)
    case Ok(v) => MinMax(v)
  }

  /** `standarlization(-raw)`: the negated scores, min-max normalised. */
  function NegatedStandarlization(raw: Result<seq<real>>): (r: Result<seq<real>>)
    ensures r.Ok? <==> raw.Ok? && raw.value != []
    ensures r.Err? ==> r.error == (if raw.Err? then raw.error else ValueError)
    ensures r.Ok? ==> |r.value| == |raw.value|
  {
    match raw
    case Err(e) => Err(e)
    case Ok(v) => MinMax(Neg(v))
  }

  lemma NegConstant(v: seq<real>)
    ensures Constant(Neg(v)) <==> Constant(v)
  {
    if !Constant(v) {
      var i, j :| 0 <= i < |v| && 0 <= j < |v| && v[i] != v[j];
      assert Neg(v)[i] != Neg(v)[j];
    }
  }

  /**
   * Normalising a list that is not constant: every value lies in [0, 1], a
   * higher score ranks higher, and exactly the highest scores become 1.
   */
  lemma StandarlizationRanks(v: seq<real>)
    requires v != [] && !Constant(v)
    ensures Standarlization(Ok(v)).Ok?
    ensures var r := Standarlization(Ok(v)).value;
      && (forall i :: 0 <= i < |v| ==> 0.0 <= r[i] <= 1.0)
      && (forall i, j :: 0 <= i < |v| && 0 <= j < |v| ==> (v[i] <= v[j] <==> r[i] <= r[j]))
      && (forall i :: 0 <= i < |v| ==> ((forall j :: 0 <= j < |v| ==> v[j] <= v[i]) <==> r[i] == 1.0))
  {
    MinMaxSpread(v);
    MaxIsGreatest(v);
  }

  /**
   * Normalising the negation of a list that is not constant: every value
   * lies in [0, 1], a LOWER raw score ranks higher, and exactly the lowest
   * raw scores become 1.
   */
  lemma NegatedStandarlizationRanks(v: seq<real>)
    requires v != [] && !Constant(v)
    ensures NegatedStandarlization(Ok(v)).Ok?
    ensures var r := NegatedStandarlization(Ok(v)).value;
      && (forall i :: 0 <= i < |v| ==> 0.0 <= r[i] <= 1.0)
      && (forall i, j :: 0 <= i < |v| && 0 <= j < |v| ==> (v[i] <= v[j] <==> r[i] >= r[j]))
      && (forall i :: 0 <= i < |v| ==> ((forall j :: 0 <= j < |v| ==> v[i] <= v[j]) <==> r[i] == 1.0))
  {
    var w := Neg(v);
    NegConstant(v);
    MinMaxSpread(w);
    MaxIsGreatest(w);
    var r := NegatedStandarlization(Ok(v)).value;
    forall i, j | 0 <= i < |v| && 0 <= j < |v|
      ensures v[i] <= v[j] <==> r[i] >= r[j]
    {
      assert w[j] <= w[i] <==> r[j] <= r[i];
    }
    forall i | 0 <= i < |v|
      ensures (forall j :: 0 <= j < |v| ==> v[i] <= v[j]) <==> r[i] == 1.0
    {
      if forall j :: 0 <= j < |v| ==> v[i] <= v[j] {
        var k :| 0 <= k < |w| && w[k] == Vectors.Max(w);
        assert v[i] <= v[k];
      }
    }
  }

  /** `StatisticModel`: holds the `BM25_LMIR` it built. */
  class StatisticModel {
    const sourceModel: Bm25Lmir

    constructor (sourceModel: Bm25Lmir)
      ensures this.sourceModel == sourceModel
    {
      this.sourceModel := sourceModel;
    }

    /** `bestMatch25`: the BM25 scores, normalised. */
    function BestMatch25(queryTokens: seq<Token>): (r: Result<seq<real>>)
      ensures var raw := Scores(sourceModel.Bm25Spec(), sourceModel.n, queryTokens);
        r.Ok? <==> raw.Ok? && sourceModel.n > 0
      ensures r.Ok? ==> |r.value| == sourceModel.n
    {
      ScoresShape(sourceModel.Bm25Spec(), sourceModel.n, queryTokens);
      Standarlization(Scores(sourceModel.Bm25Spec(), sourceModel.n, queryTokens))
    }

    /** `jelinekMercer`: the negated Jelinek-Mercer scores, normalised. */
    function JelinekMercer(queryTokens: seq<Token>): (r: Result<seq<real>>)
      ensures var raw := Scores(sourceModel.JmSpec(), sourceModel.n, queryTokens);
        r.Ok? <==> raw.Ok? && sourceModel.n > 0
      ensures r.Ok? ==> |r.value| == sourceModel.n
    {
      ScoresShape(sourceModel.JmSpec(), sourceModel.n, queryTokens);
      NegatedStandarlization(Scores(sourceModel.JmSpec(), sourceModel.n, queryTokens))
    }

    /** `dirichlet`: the negated Dirichlet scores, normalised. */
    function Dirichlet(queryTokens: seq<Token>): (r: Result<seq<real>>)
      ensures var raw := Scores(sourceModel.DirSpec(), sourceModel.n, queryTokens);
        r.Ok? <==> raw.Ok? && sourceModel.n > 0
      ensures r.Ok? ==> |r.value| == sourceModel.n
    {
      ScoresShape(sourceModel.DirSpec(), sourceModel.n, queryTokens);
      NegatedStandarlization(Scores(sourceModel.DirSpec(), sourceModel.n, queryTokens))
    }

    /** `absoluteDiscount`: the negated absolute-discount scores, normalised. */
    function AbsoluteDiscount(queryTokens: seq<Token>): (r: Result<seq<real>>)
      ensures var raw := Scores(sourceModel.AbsSpec(), sourceModel.n, queryTokens);
        r.Ok? <==> raw.Ok? && sourceModel.n > 0
      ensures r.Ok? ==> |r.value| == sourceModel.n
    {
      ScoresShape(sourceModel.AbsSpec(), sourceModel.n, queryTokens);
      NegatedStandarlization(Scores(sourceModel.AbsSpec(), sourceModel.n, queryTokens))
    }
  }

  /**
   * `StatisticModel(corpora)`: a `BM25_LMIR` with the default
   * hyperparameters; like it, fails exactly when no document has a token.
   */
  method NewStatisticModel(corpora: seq<seq<Token>>, ln: real -> real) returns (r: Result<StatisticModel>)
    ensures r.Ok? <==> HasToken(corpora)
    ensures r.Err? ==> r.error == ZeroDivisionError
    ensures r.Ok? ==> fresh(r.value) && r.value.sourceModel.BuiltFrom(corpora) && r.value.sourceModel.k1 == DEFAULT_K1
                      && r.value.sourceModel.b == DEFAULT_B && r.value.sourceModel.lamb == DEFAULT_LAMB
                      && r.value.sourceModel.mu == DEFAULT_MU && r.value.sourceModel.delta == DEFAULT_DELTA
                      && r.value.sourceModel.epsilon == DEFAULT_EPSILON
  {
    var engine := NewBm25Lmir(corpora, DEFAULT_K1, DEFAULT_B, DEFAULT_LAMB, DEFAULT_MU, DEFAULT_DELTA, DEFAULT_EPSILON, ln);
    if engine.Err? {
      return Err(engine.error);
    }
    var m := new StatisticModel(engine.value);
    r := Ok(m);
  }
}
