/**
 * Sums over the values of a dictionary and over a vector.  A dictionary is
 * a `map`; Python sums its values in insertion order, and since addition is
 * commutative the sum does not depend on that order, which `SumNatRemove`
 * and `SumRealRemove` make precise.
 */
module Sums {
  ghost function SumNat(m: map<string, nat>): nat
    decreases m.Keys
  {
    if m == map[] then 0
    else
      var k :| k in m;
      m[k] + SumNat(m - {k})
  }

  ghost function SumReal(m: map<string, real>): real
    decreases m.Keys
  {
    if m == map[] then 0.0
    else
      var k :| k in m;
      m[k] + SumReal(m - {k})
  }

  /** Any key may be taken out first: the sum does not depend on the order. */
  lemma {:induction false} SumNatRemove(m: map<string, nat>, k: string)
    requires k in m
    ensures SumNat(m) == m[k] + SumNat(m - {k})
    decreases m.Keys
  {
    var j :| j in m && SumNat(m) == m[j] + SumNat(m - {j});
    if j != k {
      SumNatRemove(m - {j}, k);
      SumNatRemove(m - {k}, j);
      assert (m - {j}) - {k} == (m - {k}) - {j};
    }
  }

  lemma {:induction false} SumRealRemove(m: map<string, real>, k: string)
    requires k in m
    ensures SumReal(m) == m[k] + SumReal(m - {k})
    decreases m.Keys
  {
    var j :| j in m && SumReal(m) == m[j] + SumReal(m - {j});
    if j != k {
      SumRealRemove(m - {j}, k);
      SumRealRemove(m - {k}, j);
      assert (m - {j}) - {k} == (m - {k}) - {j};
    }
  }

  /** `c` added up `n` times. */
  function Repeated(n: nat, c: real): real
  {
    if n == 0 then 0.0 else Repeated(n - 1, c) + c
  }

  lemma {:induction false} RepeatedIsProduct(n: nat, c: real)
    ensures Repeated(n, c) == n as real * c
  {
    if n > 0 {
      RepeatedIsProduct(n - 1, c);
      assert n as real * c == (n - 1) as real * c + c;
    }
  }

  /** A sum of values all below `c` is below `|m|` copies of `c`. */
  lemma {:induction false} SumRealBelow(m: map<string, real>, c: real)
    requires m != map[] && forall k :: k in m ==> m[k] < c
    ensures SumReal(m) < Repeated(|m|, c)
    decreases m.Keys
  {
    var k :| k in m;
    SumRealRemove(m, k);
    var rest := m - {k};
    assert |m| == |rest| + 1;
    if rest != map[] {
      SumRealBelow(rest, c);
    }
  }

  /** A sum of values all above `c` is above `|m|` copies of `c`. */
  lemma {:induction false} SumRealAbove(m: map<string, real>, c: real)
    requires m != map[] && forall k :: k in m ==> c < m[k]
    ensures Repeated(|m|, c) < SumReal(m)
    decreases m.Keys
  {
    var k :| k in m;
    SumRealRemove(m, k);
    var rest := m - {k};
    assert |m| == |rest| + 1;
    if rest != map[] {
      SumRealAbove(rest, c);
    }
  }

  /** Storing `v` under `k` changes the sum by `v` minus what `k` held before. */
  lemma SumNatUpdate(m: map<string, nat>, k: string, v: nat)
    ensures SumNat(m[k := v]) == SumNat(m) - (if k in m then m[k] else 0) + v
  {
    SumNatRemove(m[k := v], k);
    if k in m {
      SumNatRemove(m, k);
      assert m[k := v] - {k} == m - {k};
    } else {
      assert m[k := v] - {k} == m;
    }
  }

  lemma SumRealUpdate(m: map<string, real>, k: string, v: real)
    ensures SumReal(m[k := v]) == SumReal(m) - (if k in m then m[k] else 0.0) + v
  {
    SumRealRemove(m[k := v], k);
    if k in m {
      SumRealRemove(m, k);
      assert m[k := v] - {k} == m - {k};
    } else {
      assert m[k := v] - {k} == m;
    }
  }

  /** Sum of a vector, added up from the front as `np.sum` and `sum` do. */
  function Sum(s: seq<real>): real
  {
    if s == [] then 0.0 else Sum(s[..|s| - 1]) + s[|s| - 1]
  }

  lemma {:induction false} SumAppend(s: seq<real>, t: seq<real>)
    ensures Sum(s + t) == Sum(s) + Sum(t)
    decreases |t|
  {
    if t == [] {
      assert s + t == s;
    } else {
      assert (s + t)[..|s + t| - 1] == s + t[..|t| - 1];
      SumAppend(s, t[..|t| - 1]);
    }
  }

  /** The values at `keys`, added up in that order: the order a loop visits them in. */
  function SumOverReal(m: map<string, real>, keys: seq<string>): real
    requires forall k :: k in keys ==> k in m
  {
    if keys == [] then 0.0 else SumOverReal(m, keys[..|keys| - 1]) + m[keys[|keys| - 1]]
  }

  function SumOverNat(m: map<string, nat>, keys: seq<string>): nat
    requires forall k :: k in keys ==> k in m
  {
    if keys == [] then 0 else SumOverNat(m, keys[..|keys| - 1]) + m[keys[|keys| - 1]]
  }

  predicate Distinct(keys: seq<string>)
  {
    forall i, j :: 0 <= i < j < |keys| ==> keys[i] != keys[j]
  }

  lemma {:induction false} SumOverRealFrame(m: map<string, real>, m': map<string, real>, keys: seq<string>)
    requires forall k :: k in keys ==> k in m && k in m' && m[k] == m'[k]
    ensures SumOverReal(m, keys) == SumOverReal(m', keys)
    decreases |keys|
  {
    if keys != [] {
      SumOverRealFrame(m, m', keys[..|keys| - 1]);
    }
  }

  lemma {:induction false} SumOverNatFrame(m: map<string, nat>, m': map<string, nat>, keys: seq<string>)
    requires forall k :: k in keys ==> k in m && k in m' && m[k] == m'[k]
    ensures SumOverNat(m, keys) == SumOverNat(m', keys)
    decreases |keys|
  {
    if keys != [] {
      SumOverNatFrame(m, m', keys[..|keys| - 1]);
    }
  }

  /** Visiting every key once, in any order, adds up to the sum of the map. */
  lemma {:induction false} SumOverRealIsSum(m: map<string, real>, keys: seq<string>)
    requires Distinct(keys) && (forall k :: k in keys <==> k in m)
    ensures SumOverReal(m, keys) == SumReal(m)
    decreases |keys|
  {
    if keys == [] {
      assert m == map[];
    } else {
      var init, last := keys[..|keys| - 1], keys[|keys| - 1];
      var rest := m - {last};
      assert forall k :: k in init <==> k in rest by {
        forall k ensures k in init <==> k in rest {
          if k in init {
            var i :| 0 <= i < |init| && init[i] == k;
            assert keys[i] != keys[|keys| - 1];
          }
          if k in rest {
            assert k in keys && k != last;
            var i :| 0 <= i < |keys| && keys[i] == k;
            assert i < |keys| - 1 && init[i] == k;
          }
        }
      }
      SumOverRealFrame(m, rest, init);
      SumOverRealIsSum(rest, init);
      SumRealRemove(m, last);
    }
  }

  lemma {:induction false} SumOverNatIsSum(m: map<string, nat>, keys: seq<string>)
    requires Distinct(keys) && (forall k :: k in keys <==> k in m)
    ensures SumOverNat(m, keys) == SumNat(m)
    decreases |keys|
  {
    if keys == [] {
      assert m == map[];
    } else {
      var init, last := keys[..|keys| - 1], keys[|keys| - 1];
      var rest := m - {last};
      assert forall k :: k in init <==> k in rest by {
        forall k ensures k in init <==> k in rest {
          if k in init {
            var i :| 0 <= i < |init| && init[i] == k;
            assert keys[i] != keys[|keys| - 1];
          }
          if k in rest {
            assert k in keys && k != last;
            var i :| 0 <= i < |keys| && keys[i] == k;
            assert i < |keys| - 1 && init[i] == k;
          }
        }
      }
      SumOverNatFrame(m, rest, init);
      SumOverNatIsSum(rest, init);
      SumNatRemove(m, last);
    }
  }
}
