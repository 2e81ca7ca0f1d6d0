/**
 * The numpy vector operations the score-fusion code relies on: elementwise
 * scaling, addition and negation, `np.min`/`np.max`, and the min-max
 * normalisation written out in Models/StatisticModel/API/LanguageModelAPI.py,
 * TestModel/archLmirBm25Model.py, Models/MixModel/archMixModel.py and
 * Models/Word2Vec/API/Word2VecModel.py (guarded against a zero spread) and in
 * Models/Bm25LMIR/archLmirBm25Model.py (unguarded).
 */
module Vectors {
  import opened Wrappers

  /** `v * c` on an array. */
  function Scale(v: seq<real>, c: real): (r: seq<real>)
    ensures |r| == |v|
  {
    seq(|v|, i requires 0 <= i < |v| => v[i] * c)
  }

  /** `u + v` on two arrays of one shape. */
  function Add(u: seq<real>, v: seq<real>): (r: seq<real>)
    requires |u| == |v|
    ensures |r| == |u|
  {
    seq(|u|, i requires 0 <= i < |u| => u[i] + v[i])
  }

  /** `-v` on an array. */
  function Neg(v: seq<real>): (r: seq<real>)
    ensures |r| == |v|
  {
    seq(|v|, i requires 0 <= i < |v| => -v[i])
  }

  function Min2(x: real, y: real): real { if x <= y then x else y }
  function Max2(x: real, y: real): real { if x <= y then y else x }

  /** `np.min`; numpy raises on an empty array, so the caller checks. */
  function Min(v: seq<real>): real
    requires v != []
  {
    if |v| == 1 then v[0] else Min2(Min(v[..|v| - 1]), v[|v| - 1])
  }

  /** `np.max`. */
  function Max(v: seq<real>): real
    requires v != []
  {
    if |v| == 1 then v[0] else Max2(Max(v[..|v| - 1]), v[|v| - 1])
  }

  /** `np.min` is a value of the array and no entry lies below it. */
  lemma {:induction false} MinIsLeast(v: seq<real>)
    requires v != []
    ensures forall i :: 0 <= i < |v| ==> Min(v) <= v[i]
    ensures exists i :: 0 <= i < |v| && v[i] == Min(v)
    decreases |v|
  {
    if |v| > 1 {
      var init := v[..|v| - 1];
      MinIsLeast(init);
      var k :| 0 <= k < |init| && init[k] == Min(init);
      if Min(v) == v[|v| - 1] {
        assert v[|v| - 1] == Min(v);
      } else {
        assert v[k] == Min(v);
      }
    } else {
      assert v[0] == Min(v);
    }
  }

  /** `np.max` is a value of the array and no entry lies above it. */
  lemma {:induction false} MaxIsGreatest(v: seq<real>)
    requires v != []
    ensures forall i :: 0 <= i < |v| ==> v[i] <= Max(v)
    ensures exists i :: 0 <= i < |v| && v[i] == Max(v)
    decreases |v|
  {
    if |v| > 1 {
      var init := v[..|v| - 1];
      MaxIsGreatest(init);
      var k :| 0 <= k < |init| && init[k] == Max(init);
      if Max(v) == v[|v| - 1] {
        assert v[|v| - 1] == Max(v);
      } else {
        assert v[k] == Max(v);
      }
    } else {
      assert v[0] == Max(v);
    }
  }

  /** `(data - min) / (max - min)`, for a spread that is not zero. */
  function Rescaled(data: seq<real>, lo: real, hi: real): (r: seq<real>)
    requires hi - lo != 0.0
    ensures |r| == |data|
  {
    seq(|data|, i requires 0 <= i < |data| => (data[i] - lo) / (hi - lo))
  }

  /**
   * The guarded min-max normalisation:
   * `(data - min) / (max - min) if (max - min) != 0 else data`.  numpy
   * raises ValueError for the min of an empty array.
   */
  function MinMax(data: seq<real>): (r: Result<seq<real>>)
    ensures r.Err? <==> data == []
    ensures r.Err? ==> r.error == ValueError
    ensures r.Ok? ==> |r.value| == |data|
  {
    if data == [] then Err(ValueError)
    else if Max(data) - Min(data) != 0.0 then Ok(Rescaled(data, Min(data), Max(data)))
    else Ok(data)
  }

  /** An array whose entries are all equal. */
  predicate Constant(v: seq<real>)
  {
    forall i, j :: 0 <= i < |v| && 0 <= j < |v| ==> v[i] == v[j]
  }

  /** The spread is zero exactly when every entry is the same. */
  lemma ConstantIffNoSpread(v: seq<real>)
    requires v != []
    ensures Constant(v) <==> Max(v) - Min(v) == 0.0
  {
    MinIsLeast(v);
    MaxIsGreatest(v);
  }

  /** A constant array comes back unchanged. */
  lemma MinMaxConstant(data: seq<real>)
    requires data != [] && Constant(data)
    ensures MinMax(data) == Ok(data)
  {
    ConstantIffNoSpread(data);
  }

  /**
   * For an array that is not constant, every output lies in [0, 1], the
   * entries equal to the minimum map to 0 and those equal to the maximum to
   * 1, and the order of any two entries is kept.
   */
  lemma MinMaxSpread(data: seq<real>)
    requires data != [] && !Constant(data)
    ensures MinMax(data).Ok?
    ensures var r := MinMax(data).value;
      && (forall i :: 0 <= i < |r| ==> 0.0 <= r[i] <= 1.0)
      && (forall i :: 0 <= i < |r| ==> (data[i] == Min(data) <==> r[i] == 0.0))
      && (forall i :: 0 <= i < |r| ==> (data[i] == Max(data) <==> r[i] == 1.0))
      && (forall i, j :: 0 <= i < |r| && 0 <= j < |r| ==> (data[i] <= data[j] <==> r[i] <= r[j]))
  {
    ConstantIffNoSpread(data);
    MinIsLeast(data);
    MaxIsGreatest(data);
    var lo, hi := Min(data), Max(data);
    assert MinMax(data) == Ok(Rescaled(data, lo, hi));
    RescaledSpread(data, lo, hi);
  }

  /** Rescaling between bounds of the data: into [0, 1], the bounds to 0 and 1, the order kept. */
  lemma RescaledSpread(data: seq<real>, lo: real, hi: real)
    requires lo < hi && forall i :: 0 <= i < |data| ==> lo <= data[i] <= hi
    ensures var r := Rescaled(data, lo, hi);
      && (forall i :: 0 <= i < |r| ==> 0.0 <= r[i] <= 1.0)
      && (forall i :: 0 <= i < |r| ==> (data[i] == lo <==> r[i] == 0.0))
      && (forall i :: 0 <= i < |r| ==> (data[i] == hi <==> r[i] == 1.0))
      && (forall i, j :: 0 <= i < |r| && 0 <= j < |r| ==> (data[i] <= data[j] <==> r[i] <= r[j]))
  {
    var r := Rescaled(data, lo, hi);
    forall i | 0 <= i < |r|
      ensures 0.0 <= r[i] <= 1.0
      ensures data[i] == lo <==> r[i] == 0.0
      ensures data[i] == hi <==> r[i] == 1.0
    {
      RescaledAt(data[i], lo, hi);
    }
    forall i, j | 0 <= i < |r| && 0 <= j < |r|
      ensures data[i] <= data[j] <==> r[i] <= r[j]
    {
      RescaledMonotone(data[i], data[j], lo, hi);
    }
  }

  lemma RescaledAt(x: real, lo: real, hi: real)
    requires lo <= x <= hi && lo < hi
    ensures 0.0 <= (x - lo) / (hi - lo) <= 1.0
    ensures x == lo <==> (x - lo) / (hi - lo) == 0.0
    ensures x == hi <==> (x - lo) / (hi - lo) == 1.0
  {
    var d := hi - lo;
    assert (x - lo) / d * d == x - lo;
  }

  lemma RescaledMonotone(x: real, y: real, lo: real, hi: real)
    requires lo < hi
    ensures x <= y <==> (x - lo) / (hi - lo) <= (y - lo) / (hi - lo)
  {
    var d := hi - lo;
    assert (x - lo) / d * d == x - lo;
    assert (y - lo) / d * d == y - lo;
    assert (y - lo) / d - (x - lo) / d == (y - x) / d;
  }

  /** An array numpy produced by dividing zero by zero in every entry. */
  datatype Normalized = Finite(values: seq<real>) | AllNaN(length: nat)

  /**
   * The unguarded min-max normalisation `(data - min) / (max - min)` of
   * Models/Bm25LMIR/archLmirBm25Model.py: numpy does not raise on a zero
   * spread but fills the array with NaN.
   */
  function MinMaxUnguarded(data: seq<real>): (r: Result<Normalized>)
    ensures r.Err? <==> data == []
    ensures r.Ok? && r.value.AllNaN? ==> r.value.length == |data|
    ensures r.Ok? && r.value.Finite? ==> |r.value.values| == |data|
  {
    if data == [] then Err(ValueError)
    else if Max(data) - Min(data) != 0.0 then Ok(Finite(Rescaled(data, Min(data), Max(data))))
    else Ok(AllNaN(|data|))
  }

  /**
   * Without the guard the result is all NaN exactly when the array is
   * constant, and otherwise the same as with the guard.
   */
  lemma UnguardedAgreesWithGuarded(data: seq<real>)
    requires data != []
    ensures MinMaxUnguarded(data).value.AllNaN? <==> Constant(data)
    ensures !Constant(data) ==> MinMaxUnguarded(data).value == Finite(MinMax(data).value)
  {
    ConstantIffNoSpread(data);
  }
}
