/**
 * The class `lmirBm25Model` of Models/Bm25LMIR/lmirBm25Model.py: score
 * fusion over the four scorers of a `BM25_LMIR`.  `forward` z-scores each
 * model's raw scores, negates the three LMIR ones (their raw form is a
 * negative log-likelihood, lower is better), adds them with the four model
 * weights and z-scores the sum; `forwardWords` runs `forward` once per word
 * and adds the per-word results with per-word weights.
 *
 * `np.std` takes a square root; it is the parameter `sqrt`, about which
 * nothing is assumed except where a lemma says so.
 */
module LmirBm25Fusion {
  import opened Wrappers
  import opened Sums
  import opened FreqFeature
  import opened Scoring
  import opened CorpusFeatures
  import opened LmirBm25
  import opened Vectors

  // ---------------------------------------------------------------------
  // standardization

  /** `np.mean`. */
  function Mean(v: seq<real>): real
    requires v != []
  {
    Sum(v) / |v| as real
  }

  /** The squared deviations from the mean. */
  function SquaredDeviations(v: seq<real>): (r: seq<real>)
    requires v != []
    ensures |r| == |v|
  {
    seq(|v|, i requires 0 <= i < |v| => (v[i] - Mean(v)) * (v[i] - Mean(v)))
  }

  /** `np.std`: the square root of the mean squared deviation. */
  function Std(v: seq<real>, sqrt: real -> real): real
    requires v != []
  {
    sqrt(Mean(SquaredDeviations(v)))
  }

  /** `(data - mean) / std`. */
  function Centred(v: seq<real>, mean: real, std: real): (r: seq<real>)
    requires std != 0.0
    ensures |r| == |v|
  {
    seq(|v|, i requires 0 <= i < |v| => (v[i] - mean) / std)
  }

  /**
   * `standardization`: `(data - mu) / sigma if sigma != 0 else data`.  On an
   * empty array numpy's mean is NaN, which is not 0, and the result is the
   * empty array again.
   */
  function ZScore(data: seq<real>, sqrt: real -> real): (r: seq<real>)
    ensures |r| == |data|
  {
    if data == [] then data
    else if Std(data, sqrt) != 0.0 then Centred(data, Mean(data), Std(data, sqrt))
    else data
  }

  lemma {:induction false} SumCentred(v: seq<real>, c: real, s: real)
    requires s != 0.0
    ensures Sum(Centred(v, c, s)) == (Sum(v) - |v| as real * c) / s
    decreases |v|
  {
    if v != [] {
      var init := v[..|v| - 1];
      SumCentred(init, c, s);
      assert Centred(v, c, s)[..|v| - 1] == Centred(init, c, s);
    }
  }

  /** A standardised array that was rescaled has mean zero. */
  lemma ZScoreCentred(data: seq<real>, sqrt: real -> real)
    requires data != [] && Std(data, sqrt) != 0.0
    ensures Sum(ZScore(data, sqrt)) == 0.0
  {
    var sd := Std(data, sqrt);
    assert ZScore(data, sqrt) == Centred(data, Mean(data), sd);
    CentredAtMean(data, sd);
  }

  lemma CentredAtMean(data: seq<real>, sd: real)
    requires data != [] && sd != 0.0
    ensures Sum(Centred(data, Mean(data), sd)) == 0.0
  {
    var m := Mean(data);
    var n := |data| as real;
    SumCentred(data, m, sd);
    MeanTimesLength(Sum(data), n);
    assert Sum(data) - n * m == 0.0;
  }

  lemma MeanTimesLength(total: real, n: real)
    requires n > 0.0
    ensures n * (total / n) == total
  {
  }

  /** With a positive spread, standardising keeps the order of any two entries. */
  lemma ZScoreMonotone(data: seq<real>, sqrt: real -> real, i: int, j: int)
    requires 0 <= i < |data| && 0 <= j < |data| && Std(data, sqrt) > 0.0
    ensures data[i] <= data[j] <==> ZScore(data, sqrt)[i] <= ZScore(data, sqrt)[j]
  {
    var m, s := Mean(data), Std(data, sqrt);
    assert (data[i] - m) / s * s == data[i] - m;
    assert (data[j] - m) / s * s == data[j] - m;
    assert (data[j] - m) / s - (data[i] - m) / s == (data[j] - data[i]) / s;
  }

  lemma {:induction false} SumConstant(v: seq<real>, c: real)
    requires forall i :: 0 <= i < |v| ==> v[i] == c
    ensures Sum(v) == |v| as real * c
    decreases |v|
  {
    if v != [] {
      SumConstant(v[..|v| - 1], c);
    }
  }

  /**
   * A constant array has deviation `sqrt(0)`; with the true square root
   * (`sqrt(0) == 0`) it comes back unchanged.
   */
  lemma ZScoreConstant(data: seq<real>, sqrt: real -> real)
    requires data != [] && Constant(data) && sqrt(0.0) == 0.0
    ensures ZScore(data, sqrt) == data
  {
    SumConstant(data, data[0]);
    assert Mean(data) == data[0];
    SumConstant(SquaredDeviations(data), 0.0);
  }

  // ---------------------------------------------------------------------
  // forward

  /** The dict `forward` returns, keyed BM25, JM, DIR, ABS and ALL. */
  datatype Fused = Fused(bm25: seq<real>, jm: seq<real>, dir: seq<real>, abs: seq<real>, all: seq<real>)
  {
    /** All five arrays have length `n`. */
    predicate Shaped(n: int)
    {
      |bm25| == n && |jm| == n && |dir| == n && |abs| == n && |all| == n
    }

    function Get(key: ModelKey): (r: seq<real>)
      ensures r == bm25 || r == jm || r == dir || r == abs
    {
      match key
      case BM25 => bm25
      case JM => jm
      case DIR => dir
      case ABS => abs
    }
  }

  /** The four per-model keys. */
  datatype ModelKey = BM25 | JM | DIR | ABS

  /** The default `modelWeight` of `lmirBm25Model`: BM25, JM, DIR and ABS count alike. */
  const DEFAULT_MODEL_WEIGHT: seq<real> := [0.25, 0.25, 0.25, 0.25]

  /** `Σ modelWeight[i] · norm_i` over the models in the order BM25, JM, DIR, ABS. */
  function WeightedModels(bm25: seq<real>, jm: seq<real>, dir: seq<real>, abs: seq<real>, modelWeight: seq<real>): (r: seq<real>)
    requires |jm| == |bm25| && |dir| == |bm25| && |abs| == |bm25| && |modelWeight| >= 4
    ensures |r| == |bm25|
  {
    Add(Add(Add(Scale(bm25, modelWeight[0]), Scale(jm, modelWeight[1])), Scale(dir, modelWeight[2])), Scale(abs, modelWeight[3]))
  }

  /** The length of every score array of a scorer over `n` documents. */
  function Count(n: int): nat
  {
    if n < 0 then 0 else n
  }

  /** `lmirBm25Model`: a built `BM25_LMIR`, the four model weights, and `np.std`'s square root. */
  class LmirBm25Model {
    const model: Bm25Lmir
    const modelWeight: seq<real>
    const sqrt: real -> real

    constructor (model: Bm25Lmir, modelWeight: seq<real>, sqrt: real -> real)
      ensures this.model == model && this.modelWeight == modelWeight && this.sqrt == sqrt
    {
      this.model, this.modelWeight, this.sqrt := model, modelWeight, sqrt;
    }

    /** The raw score lists of the four scorers for query `X`. */
    function RawBm25(X: seq<Token>): Result<seq<real>> { Scores(model.Bm25Spec(), model.n, X) }
    function RawJm(X: seq<Token>): Result<seq<real>> { Scores(model.JmSpec(), model.n, X) }
    function RawDir(X: seq<Token>): Result<seq<real>> { Scores(model.DirSpec(), model.n, X) }
    function RawAbs(X: seq<Token>): Result<seq<real>> { Scores(model.AbsSpec(), model.n, X) }

    /**
     * `forward`: the four raw score lists, each standardised, the LMIR ones
     * negated, and their weighted sum standardised again.  It raises what the
     * first failing scorer raises, in the order BM25, JM, DIR, ABS, and
     * IndexError when there are fewer than four model weights; otherwise all
     * five arrays hold one value per document.
     */
    function Forward(X: seq<Token>): (r: Result<Fused>)
      ensures r.Ok? <==> RawBm25(X).Ok? && RawJm(X).Ok? && RawDir(X).Ok? && RawAbs(X).Ok? && |modelWeight| >= 4
      ensures r.Err? ==>
                r.error == (if RawBm25(X).Err? then RawBm25(X).error
                            else if RawJm(X).Err? then RawJm(X).error
                            else if RawDir(X).Err? then RawDir(X).error
                            else if RawAbs(X).Err? then RawAbs(X).error
                            else IndexError)
      ensures r.Ok? ==> r.value.Shaped(Count(model.n))
    {
      match RawBm25(X)
      case Err(e) => Err(e)
      case Ok(bm25Result) =>
        match RawJm(X)
        case Err(e) => Err(e)
        case Ok(lmirJmResult) =>
          match RawDir(X)
          case Err(e) => Err(e)
          case Ok(lmirDirResult) =>
            match RawAbs(X)
            case Err(e) => Err(e)
            case Ok(lmirAbsResult) =>
              if |modelWeight| < 4 then Err(IndexError)
              else
                ScoresShape(model.Bm25Spec(), model.n, X);
                ScoresShape(model.JmSpec(), model.n, X);
                ScoresShape(model.DirSpec(), model.n, X);
                ScoresShape(model.AbsSpec(), model.n, X);
                var bm25Norm := ZScore(bm25Result, sqrt);
                var jmNorm := Neg(ZScore(lmirJmResult, sqrt));
                var dirNorm := Neg(ZScore(lmirDirResult, sqrt));
                var absNorm := Neg(ZScore(lmirAbsResult, sqrt));
                Ok(Fused(bm25Norm, jmNorm, dirNorm, absNorm,
                         ZScore(WeightedModels(bm25Norm, jmNorm, dirNorm, absNorm, modelWeight), sqrt)))
    }

    /**
     * BM25 keeps its raw order; JM, DIR and ABS reverse theirs, so a lower
     * raw LMIR score ranks higher (for raw lists with a positive spread).
     */
    lemma ForwardOrders(X: seq<Token>, i: int, j: int)
      requires Forward(X).Ok? && 0 <= i < Count(model.n) && 0 <= j < Count(model.n)
      ensures var raw := RawBm25(X).value;
        Std(raw, sqrt) > 0.0 ==> (raw[i] <= raw[j] <==> Forward(X).value.bm25[i] <= Forward(X).value.bm25[j])
      ensures var raw := RawJm(X).value;
        Std(raw, sqrt) > 0.0 ==> (raw[i] <= raw[j] <==> Forward(X).value.jm[i] >= Forward(X).value.jm[j])
      ensures var raw := RawDir(X).value;
        Std(raw, sqrt) > 0.0 ==> (raw[i] <= raw[j] <==> Forward(X).value.dir[i] >= Forward(X).value.dir[j])
      ensures var raw := RawAbs(X).value;
        Std(raw, sqrt) > 0.0 ==> (raw[i] <= raw[j] <==> Forward(X).value.abs[i] >= Forward(X).value.abs[j])
    {
      ScoresShape(model.Bm25Spec(), model.n, X);
      ScoresShape(model.JmSpec(), model.n, X);
      ScoresShape(model.DirSpec(), model.n, X);
      ScoresShape(model.AbsSpec(), model.n, X);
      var f := Forward(X).value;
      assert f.bm25 == ZScore(RawBm25(X).value, sqrt) && f.jm == Neg(ZScore(RawJm(X).value, sqrt))
        && f.dir == Neg(ZScore(RawDir(X).value, sqrt)) && f.abs == Neg(ZScore(RawAbs(X).value, sqrt));
      if Std(RawBm25(X).value, sqrt) > 0.0 { ZScoreMonotone(RawBm25(X).value, sqrt, i, j); }
      if Std(RawJm(X).value, sqrt) > 0.0 { ZScoreMonotone(RawJm(X).value, sqrt, i, j); }
      if Std(RawDir(X).value, sqrt) > 0.0 { ZScoreMonotone(RawDir(X).value, sqrt, i, j); }
      if Std(RawAbs(X).value, sqrt) > 0.0 { ZScoreMonotone(RawAbs(X).value, sqrt, i, j); }
    }

    /**
     * "ALL" is the standardised weighted sum of the four normalised arrays:
     * ranked in the weighted sum's order, and of mean zero when the sum is
     * not constant.
     */
    lemma ForwardAll(X: seq<Token>, i: int, j: int)
      requires Forward(X).Ok? && 0 <= i < Count(model.n) && 0 <= j < Count(model.n)
      ensures var f := Forward(X).value;
        var w := WeightedModels(f.bm25, f.jm, f.dir, f.abs, modelWeight);
        && (Std(w, sqrt) > 0.0 ==> (w[i] <= w[j] <==> f.all[i] <= f.all[j]))
        && (Std(w, sqrt) != 0.0 ==> Sum(f.all) == 0.0)
    {
      var f := Forward(X).value;
      var w := WeightedModels(f.bm25, f.jm, f.dir, f.abs, modelWeight);
      assert f.all == ZScore(w, sqrt);
      if Std(w, sqrt) > 0.0 { ZScoreMonotone(w, sqrt, i, j); }
      if Std(w, sqrt) != 0.0 { ZScoreCentred(w, sqrt); }
    }

    // -------------------------------------------------------------------
    // forwardWords

    /** `forward` of each single-token query `[X[k]]`. */
    function PerWord(X: seq<Token>): (r: seq<Result<Fused>>)
      ensures |r| == |X|
    {
      seq(|X|, k requires 0 <= k < |X| => Forward([X[k]]))
    }

    /** When every word succeeds, each per-word result holds one value per document. */
    lemma PerWordShaped(X: seq<Token>)
      requires Collect(PerWord(X)).Ok?
      ensures forall k :: 0 <= k < |X| ==> Collect(PerWord(X)).value[k].Shaped(Count(model.n))
    {
      CollectAt(PerWord(X));
      forall k | 0 <= k < |X|
        ensures Collect(PerWord(X)).value[k].Shaped(Count(model.n))
      {
        assert PerWord(X)[k] == Forward([X[k]]);
      }
    }

    /**
     * `forwardWords`: the weighted sums over the words of each model's
     * arrays, and the model-weighted sum of those four with no final
     * standardisation.  Any exception of a per-word `forward` comes first;
     * then IndexError when there are more words than weights.
     */
    ghost function ForwardWordsOf(X: seq<Token>, weight: seq<real>): (r: Result<Aggregated>)
      ensures r.Ok? && r.value.PerModel? ==> r.value.fused.Shaped(Count(model.n))
    {
      match Collect(PerWord(X))
      case Err(e) => Err(e)
      case Ok(rs) =>
        PerWordShaped(X);
        PerWordModelWeight(X);
        AggregateWords(rs, weight, Count(model.n), modelWeight)
    }

    /** A word whose `forward` succeeds shows that there are four model weights. */
    lemma PerWordModelWeight(X: seq<Token>)
      requires Collect(PerWord(X)).Ok?
      ensures X != [] ==> |modelWeight| >= 4
    {
      if X != [] {
        CollectAt(PerWord(X));
        assert PerWord(X)[0] == Forward([X[0]]);
      }
    }

    /** The loop of `forwardWords` that fills `allResult`, stopping at the first word whose `forward` raises. */
    method ForwardEachWord(X: seq<Token>) returns (r: Result<seq<Fused>>)
      ensures r == Collect(PerWord(X))
    {
      var allResult: seq<Fused> := [];
      for i := 0 to |X|
        invariant Collect(PerWord(X)[..i]) == Ok(allResult)
      {
        var wordResult := Forward([X[i]]);
        assert PerWord(X)[i] == wordResult;
        CollectPrefixStep(PerWord(X), i, allResult);
        if wordResult.Err? {
          CollectError(PerWord(X), i + 1);
          return Err(wordResult.error);
        }
        allResult := allResult + [wordResult.value];
      }
      assert PerWord(X)[..|X|] == PerWord(X);
      r := Ok(allResult);
    }

    /** `forwardWords`: the per-word results, the four `weightedSum`s and the model-weighted sum. */
    method ForwardWords(X: seq<Token>, weight: seq<real>) returns (r: Result<Aggregated>)
      ensures r == ForwardWordsOf(X, weight)
    {
      var allResult := ForwardEachWord(X);
      if allResult.Err? {
        return Err(allResult.error);
      }
      PerWordShaped(X);
      var rs, n := allResult.value, Count(model.n);
      var bm25 := WeightedSum(rs, BM25, weight, n);
      if bm25.Err? {
        return Err(bm25.error);
      }
      var jm := WeightedSum(rs, JM, weight, n);
      var dir := WeightedSum(rs, DIR, weight, n);
      var abs := WeightedSum(rs, ABS, weight, n);
      if rs == [] {
        if |modelWeight| < 4 {
          return Err(IndexError);
        }
        return Ok(NoWords);
      }
      var b, j, d, a := bm25.value.values, jm.value.values, dir.value.values, abs.value.values;
      r := Ok(PerModel(Fused(b, j, d, a, WeightedModels(b, j, d, a, modelWeight))));
    }

    /**
     * One word with weight 1: each per-model array is that word's `forward`
     * array, and "ALL" is their model-weighted sum, which `forward` would
     * standardise but `forwardWords` does not.
     */
    lemma ForwardWordsSingle(x: Token)
      requires Forward([x]).Ok?
      ensures var f := Forward([x]).value;
        ForwardWordsOf([x], [1.0]) == Ok(PerModel(Fused(f.bm25, f.jm, f.dir, f.abs,
                                                        WeightedModels(f.bm25, f.jm, f.dir, f.abs, modelWeight))))
    {
      var f := Forward([x]).value;
      assert PerWord([x]) == [Ok(f)];
      CollectSingle(f);
      assert ForwardWordsOf([x], [1.0]) == AggregateWords([f], [1.0], Count(model.n), modelWeight);
      AggregateWordsSingle(f, Count(model.n), modelWeight);
    }

    /** Fewer weights than words: once every word's `forward` succeeds, IndexError. */
    lemma ForwardWordsShortWeights(X: seq<Token>, weight: seq<real>)
      requires Collect(PerWord(X)).Ok? && |weight| < |X|
      ensures ForwardWordsOf(X, weight) == Err(IndexError)
    {
    }

    /** Weights beyond the number of words are never read. */
    lemma ForwardWordsExtraWeights(X: seq<Token>, weight: seq<real>, extra: seq<real>)
      requires |weight| >= |X|
      ensures ForwardWordsOf(X, weight + extra) == ForwardWordsOf(X, weight)
    {
      if Collect(PerWord(X)).Ok? && X != [] {
        var rs := Collect(PerWord(X)).value;
        var n := Count(model.n);
        PerWordShaped(X);
        WeightedRowsPrefix(rs, BM25, weight, extra, n);
        WeightedRowsPrefix(rs, JM, weight, extra, n);
        WeightedRowsPrefix(rs, DIR, weight, extra, n);
        WeightedRowsPrefix(rs, ABS, weight, extra, n);
      }
    }
  }

  /** The values of a list of results, or the first exception among them. */
  function Collect<T>(rs: seq<Result<T>>): (r: Result<seq<T>>)
    ensures r.Ok? ==> |r.value| == |rs|
  {
    if rs == [] then Ok([])
    else match Collect(rs[..|rs| - 1])
      case Err(e) => Err(e)
      case Ok(vs) =>
        match rs[|rs| - 1]
        case Err(e) => Err(e)
        case Ok(v) => Ok(vs + [v])
  }

  lemma CollectSingle<T>(v: T)
    ensures Collect([Ok(v)]) == Ok([v])
  {
    assert [Ok(v)][..0] == [];
    assert [] + [v] == [v];
  }

  /** Every entry of a successful collection is the value of the result at its index. */
  lemma {:induction false} CollectAt<T>(rs: seq<Result<T>>)
    requires Collect(rs).Ok?
    ensures forall k :: 0 <= k < |rs| ==> rs[k] == Ok(Collect(rs).value[k])
    decreases |rs|
  {
    if rs != [] {
      CollectAt(rs[..|rs| - 1]);
    }
  }

  /** One more result after a successful prefix: its exception, or its value appended. */
  lemma CollectPrefixStep<T>(rs: seq<Result<T>>, i: nat, vs: seq<T>)
    requires i < |rs| && Collect(rs[..i]) == Ok(vs)
    ensures Collect(rs[..i + 1]) == if rs[i].Err? then Err(rs[i].error) else Ok(vs + [rs[i].value])
  {
    assert rs[..i + 1][..i] == rs[..i];
  }

  /** Once a prefix holds an exception, the whole list reports that exception. */
  lemma {:induction false} CollectError<T>(rs: seq<Result<T>>, i: nat)
    requires i <= |rs| && Collect(rs[..i]).Err?
    ensures Collect(rs) == Collect(rs[..i])
    decreases |rs| - i
  {
    if i < |rs| {
      assert rs[..i + 1][..i] == rs[..i];
      CollectError(rs, i + 1);
    } else {
      assert rs[..i] == rs;
    }
  }

  /** What `forwardWords` returns. */
  datatype Aggregated =
    | PerModel(fused: Fused)
      /** No words: `np.sum([], 0)` is the scalar 0.0, and so is every value of the returned dict. */
    | NoWords

  /** `np.sum(tosum, 0)` of a non-empty list, or the scalar zero of an empty one. */
  datatype Summed = Vector(values: seq<real>) | ScalarZero

  /** `Σ_k weight[k] · rs[k][key]`. */
  function WeightedRows(rs: seq<Fused>, key: ModelKey, weight: seq<real>, n: nat): (r: seq<real>)
    requires rs != [] && |weight| >= |rs|
    requires forall k :: 0 <= k < |rs| ==> rs[k].Shaped(n)
    ensures |r| == n
  {
    assert rs[|rs| - 1].Shaped(n);
    var last := Scale(rs[|rs| - 1].Get(key), weight[|rs| - 1]);
    assert |last| == n;
    if |rs| == 1 then last else Add(WeightedRows(rs[..|rs| - 1], key, weight, n), last)
  }

  /**
   * The four `weightedSum`s over the word results and their model-weighted
   * sum; no words give the scalar zeros, more words than weights IndexError.
   */
  function AggregateWords(rs: seq<Fused>, weight: seq<real>, n: nat, modelWeight: seq<real>): (r: Result<Aggregated>)
    requires forall k :: 0 <= k < |rs| ==> rs[k].Shaped(n)
    requires rs != [] ==> |modelWeight| >= 4
    ensures r.Ok? && r.value.PerModel? ==> r.value.fused.Shaped(n)
  {
    if rs == [] then
      if |modelWeight| < 4 then Err(IndexError) else Ok(NoWords)
    else if |rs| > |weight| then Err(IndexError)
    else
      var bm25 := WeightedRows(rs, BM25, weight, n);
      var jm := WeightedRows(rs, JM, weight, n);
      var dir := WeightedRows(rs, DIR, weight, n);
      var abs := WeightedRows(rs, ABS, weight, n);
      Ok(PerModel(Fused(bm25, jm, dir, abs, WeightedModels(bm25, jm, dir, abs, modelWeight))))
  }

  /** One row with weight 1 aggregates to that row's arrays and their model-weighted sum. */
  lemma AggregateWordsSingle(f: Fused, n: nat, modelWeight: seq<real>)
    requires f.Shaped(n) && |modelWeight| >= 4
    ensures AggregateWords([f], [1.0], n, modelWeight)
              == Ok(PerModel(Fused(f.bm25, f.jm, f.dir, f.abs, WeightedModels(f.bm25, f.jm, f.dir, f.abs, modelWeight))))
  {
    WeightedRowsSingle(f, BM25, n);
    WeightedRowsSingle(f, JM, n);
    WeightedRowsSingle(f, DIR, n);
    WeightedRowsSingle(f, ABS, n);
  }

  /** One row with weight 1 is that row's array. */
  lemma WeightedRowsSingle(f: Fused, key: ModelKey, n: nat)
    requires f.Shaped(n)
    ensures WeightedRows([f], key, [1.0], n) == f.Get(key)
  {
    assert Scale(f.Get(key), 1.0) == f.Get(key);
  }

  lemma {:induction false} WeightedRowsPrefix(rs: seq<Fused>, key: ModelKey, weight: seq<real>, extra: seq<real>, n: nat)
    requires rs != [] && |weight| >= |rs|
    requires forall k :: 0 <= k < |rs| ==> rs[k].Shaped(n)
    ensures WeightedRows(rs, key, weight + extra, n) == WeightedRows(rs, key, weight, n)
    decreases |rs|
  {
    if |rs| > 1 {
      WeightedRowsPrefix(rs[..|rs| - 1], key, weight, extra, n);
    }
  }

  /**
   * The inner `weightedSum`: for each word result in order, append its
   * `key` array times `weight[k]`, then `np.sum(tosum, 0)`.  Raises
   * IndexError at the first word without a weight.
   */
  method WeightedSum(diction: seq<Fused>, key: ModelKey, weight: seq<real>, n: nat) returns (r: Result<Summed>)
    requires forall k :: 0 <= k < |diction| ==> diction[k].Shaped(n)
    ensures r.Err? <==> |diction| > |weight|
    ensures r.Err? ==> r.error == IndexError
    ensures r.Ok? && diction == [] ==> r.value == ScalarZero
    ensures r.Ok? && diction != [] ==> r.value == Vector(WeightedRows(diction, key, weight, n))
  {
    var tosum: seq<real> := [];
    for k := 0 to |diction|
      invariant k <= |weight|
      invariant k == 0 ==> tosum == []
      invariant k > 0 ==> tosum == WeightedRows(diction[..k], key, weight, n)
    {
      if k >= |weight| {
        return Err(IndexError);
      }
      var row := Scale(diction[k].Get(key), weight[k]);
      assert diction[..k + 1][..k] == diction[..k];
      if k == 0 {
        tosum := row;
      } else {
        tosum := Add(tosum, row);
      }
    }
    assert diction[..|diction|] == diction;
    if diction == [] {
      return Ok(ScalarZero);
    }
    r := Ok(Vector(tosum));
  }

  /**
   * `lmirBm25Model(corpora, modelWeight, k1, b, lamb, mu, delta, epsilon)`:
   * builds the `BM25_LMIR`, so it fails exactly when that does.
   */
  method NewLmirBm25Model(corpora: seq<seq<Token>>, modelWeight: seq<real>, k1: real, b: real, lamb: real,
                          mu: real, delta: real, epsilon: real, ln: real -> real, sqrt: real -> real)
    returns (r: Result<LmirBm25Model>)
    ensures r.Ok? <==> HasToken(corpora)
    ensures r.Err? ==> r.error == ZeroDivisionError
    ensures r.Ok? ==> fresh(r.value) && r.value.model.BuiltFrom(corpora) && r.value.modelWeight == modelWeight
    ensures r.Ok? ==> r.value.model.k1 == k1 && r.value.model.b == b && r.value.model.lamb == lamb
                      && r.value.model.mu == mu && r.value.model.delta == delta && r.value.model.epsilon == epsilon
  {
    var model := NewBm25Lmir(corpora, k1, b, lamb, mu, delta, epsilon, ln);
    if model.Err? {
      return Err(model.error);
    }
    var m := new LmirBm25Model(model.value, modelWeight, sqrt);
    r := Ok(m);
  }
}
