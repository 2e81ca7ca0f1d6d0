/**
 * Term statistics and the four lexical scorers of
 * Models/StatisticModel/source/freq_feature.py.
 *
 * A tokenised document is a `seq<Token>`; a term-frequency table (a Python
 * dict from token to count) is a `map`.  Scores are `real`s, and `math.log`
 * is the parameter `ln`: nothing is assumed about it, so the lemmas are about
 * which tokens contribute, table keys and shapes, and when a call raises.
 */
module FreqFeature {
  import opened Wrappers
  import opened Sums

  type Token = string
  type TfTable = map<Token, nat>
  type TpTable = map<Token, real>

  // ---------------------------------------------------------------------
  // cal_corpus_tf

  /** The term-frequency table of a document: each token to its number of occurrences. */
  function Tf(doc: seq<Token>): TfTable
  {
    map t | t in doc :: multiset(doc)[t]
  }

  lemma TfSnoc(doc: seq<Token>, t: Token)
    ensures Tf(doc + [t]) == Tf(doc)[t := (if t in Tf(doc) then Tf(doc)[t] else 0) + 1]
  {
    assert multiset(doc + [t]) == multiset(doc) + multiset{t};
    var l, r := Tf(doc + [t]), Tf(doc)[t := (if t in Tf(doc) then Tf(doc)[t] else 0) + 1];
    assert forall u :: u in doc + [t] <==> u in doc || u == t;
    assert l.Keys == r.Keys;
    forall u | u in l ensures l[u] == r[u] {
      if u != t {
        assert u in doc;
      }
    }
  }

  /** The loop of `cal_corpus_tf`, which increments `token_counts.get(token, 0)`. */
  method CalCorpusTf(corpus: seq<Token>) returns (tokenCounts: TfTable)
    ensures tokenCounts == Tf(corpus)
  {
    tokenCounts := map[];
    for i := 0 to |corpus|
      invariant tokenCounts == Tf(corpus[..i])
    {
      var token := corpus[i];
      assert corpus[..i + 1] == corpus[..i] + [token];
      TfSnoc(corpus[..i], token);
      tokenCounts := tokenCounts[token := (if token in tokenCounts then tokenCounts[token] else 0) + 1];
    }
    assert corpus[..|corpus|] == corpus;
  }

  /**
   * The keys of the table are exactly the tokens of the document, each count
   * is at least one, and the counts add up to the document's length (so an
   * empty document gives an empty table).
   */
  lemma TfCountsDocument(doc: seq<Token>)
    ensures forall t :: t in Tf(doc) <==> t in doc
    ensures forall t :: t in Tf(doc) ==> Tf(doc)[t] >= 1
    ensures SumNat(Tf(doc)) == |doc|
  {
    TfKeys(doc);
    TfSum(doc);
  }

  lemma TfKeys(doc: seq<Token>)
    ensures forall t :: t in Tf(doc) <==> t in doc
    ensures forall t :: t in Tf(doc) ==> Tf(doc)[t] >= 1
  {
  }

  lemma {:induction false} TfSum(doc: seq<Token>)
    ensures SumNat(Tf(doc)) == |doc|
    decreases |doc|
  {
    if doc != [] {
      var init, t := doc[..|doc| - 1], doc[|doc| - 1];
      assert doc == init + [t];
      TfSum(init);
      TfSnoc(init, t);
      var before := Tf(init);
      var v := (if t in before then before[t] else 0) + 1;
      assert Tf(doc) == before[t := v];
      SumNatUpdate(before, t, v);
    }
  }

  // ---------------------------------------------------------------------
  // cal_all_corpus_tf

  /** What one table adds to key `k`: its count token-wide, one sentence-wide. */
  function Contribution(tf: TfTable, k: Token, sentenceWide: bool): nat
  {
    if k !in tf then 0 else if sentenceWide then 1 else tf[k]
  }

  /** Every key of some table. */
  function KeysOf(tfs: seq<TfTable>): set<Token>
  {
    if tfs == [] then {} else KeysOf(tfs[..|tfs| - 1]) + tfs[|tfs| - 1].Keys
  }

  function Aggregate(tfs: seq<TfTable>, k: Token, sentenceWide: bool): nat
  {
    if tfs == [] then 0
    else Aggregate(tfs[..|tfs| - 1], k, sentenceWide) + Contribution(tfs[|tfs| - 1], k, sentenceWide)
  }

  /** The merged table: every key of some table, to the sum of its contributions. */
  function AllTf(tfs: seq<TfTable>, sentenceWide: bool): TfTable
  {
    map k | k in KeysOf(tfs) :: Aggregate(tfs, k, sentenceWide)
  }

  /** `tfAll` holds the tables `tfs` merged. */
  ghost predicate Merged(tfAll: TfTable, tfs: seq<TfTable>, sentenceWide: bool)
  {
    && tfAll.Keys == KeysOf(tfs)
    && forall k :: k in tfAll ==> tfAll[k] == Aggregate(tfs, k, sentenceWide)
  }

  /** `tfAll` holds the tables before `i` merged, plus the keys `done` of table `i`. */
  ghost predicate MergedSoFar(tfAll: TfTable, tfs: seq<TfTable>, i: nat, done: set<Token>, sentenceWide: bool)
    requires i < |tfs|
  {
    && tfAll.Keys == KeysOf(tfs[..i]) + done
    && forall k :: k in tfAll ==>
         tfAll[k] == Aggregate(tfs[..i], k, sentenceWide) + (if k in done then Contribution(tfs[i], k, sentenceWide) else 0)
  }

  lemma MergedIsAllTf(tfAll: TfTable, tfs: seq<TfTable>, sentenceWide: bool)
    requires Merged(tfAll, tfs, sentenceWide)
    ensures tfAll == AllTf(tfs, sentenceWide)
  {
  }

  lemma MergeStart(tfAll: TfTable, tfs: seq<TfTable>, i: nat, sentenceWide: bool)
    requires i < |tfs| && Merged(tfAll, tfs[..i], sentenceWide)
    ensures MergedSoFar(tfAll, tfs, i, {}, sentenceWide)
  {
  }

  /** Adding key `k` of table `i` to the running totals. */
  lemma MergeKey(tfAll: TfTable, tfs: seq<TfTable>, i: nat, done: set<Token>, k: Token, sentenceWide: bool)
    requires i < |tfs| && k in tfs[i] && k !in done
    requires MergedSoFar(tfAll, tfs, i, done, sentenceWide)
    ensures MergedSoFar(tfAll[k := (if k in tfAll then tfAll[k] else 0) + (if sentenceWide then 1 else tfs[i][k])],
                        tfs, i, done + {k}, sentenceWide)
  {
    if k !in tfAll {
      AggregateZeroOutside(tfs[..i], k, sentenceWide);
    }
  }

  lemma MergeTable(tfAll: TfTable, tfs: seq<TfTable>, i: nat, sentenceWide: bool)
    requires i < |tfs| && MergedSoFar(tfAll, tfs, i, tfs[i].Keys, sentenceWide)
    ensures Merged(tfAll, tfs[..i + 1], sentenceWide)
  {
    assert tfs[..i + 1][..i] == tfs[..i];
  }

  /**
   * The nested loop of `cal_all_corpus_tf`: for each table, for each of its
   * items in whatever order the dict yields them, add one (sentence-wide) or
   * the count (token-wide) to the running total of the key.
   */
  method CalAllCorpusTf(tfs: seq<TfTable>, sentenceWide: bool) returns (tfAll: TfTable)
    ensures tfAll == AllTf(tfs, sentenceWide)
  {
    tfAll := map[];
    for i := 0 to |tfs|
      invariant Merged(tfAll, tfs[..i], sentenceWide)
    {
      var table := tfs[i];
      MergeStart(tfAll, tfs, i, sentenceWide);
      var rest := table.Keys;
      while rest != {}
        invariant rest <= table.Keys
        invariant MergedSoFar(tfAll, tfs, i, table.Keys - rest, sentenceWide)
        decreases rest
      {
        var k :| k in rest;
        var v := table[k];
        MergeKey(tfAll, tfs, i, table.Keys - rest, k, sentenceWide);
        assert table.Keys - (rest - {k}) == (table.Keys - rest) + {k};
        if sentenceWide {
          tfAll := tfAll[k := (if k in tfAll then tfAll[k] else 0) + 1];
        } else {
          tfAll := tfAll[k := (if k in tfAll then tfAll[k] else 0) + v];
        }
        rest := rest - {k};
      }
      MergeTable(tfAll, tfs, i, sentenceWide);
    }
    assert tfs[..|tfs|] == tfs;
    MergedIsAllTf(tfAll, tfs, sentenceWide);
  }

  /** Sentence-wide, a key counts the tables that hold it: between 1 and `|tfs|`. */
  lemma {:induction false} SentenceWideCountsTables(tfs: seq<TfTable>, k: Token)
    requires k in AllTf(tfs, true)
    ensures 1 <= AllTf(tfs, true)[k] <= |tfs|
    decreases |tfs|
  {
    var init := tfs[..|tfs| - 1];
    AggregateBound(init, k);
    if k !in tfs[|tfs| - 1] {
      SentenceWideCountsTables(init, k);
    }
  }

  lemma {:induction false} AggregateBound(tfs: seq<TfTable>, k: Token)
    ensures Aggregate(tfs, k, true) <= |tfs|
    ensures k in KeysOf(tfs) <==> Aggregate(tfs, k, true) >= 1
    decreases |tfs|
  {
    if tfs != [] {
      AggregateBound(tfs[..|tfs| - 1], k);
    }
  }

  /**
   * Token-wide merging of the tables of several documents counts the tokens
   * of the documents laid end to end.
   */
  lemma {:induction false} TokenWideIsTfOfConcatenation(docs: seq<seq<Token>>)
    ensures AllTf(TfTables(docs), false) == Tf(Concat(docs))
  {
    var l, r := AllTf(TfTables(docs), false), Tf(Concat(docs));
    KeysOfTables(docs);
    forall k | k in l ensures l[k] == r[k] {
      AggregateCountsOccurrences(docs, k);
    }
  }

  lemma {:induction false} AggregateCountsOccurrences(docs: seq<seq<Token>>, k: Token)
    ensures Aggregate(TfTables(docs), k, false) == multiset(Concat(docs))[k]
    decreases |docs|
  {
    if docs != [] {
      var init, last := docs[..|docs| - 1], docs[|docs| - 1];
      AggregateCountsOccurrences(init, k);
      assert TfTables(docs)[..|docs| - 1] == TfTables(init);
      assert multiset(Concat(docs)) == multiset(Concat(init)) + multiset(last);
    }
  }

  lemma {:induction false} KeysOfTables(docs: seq<seq<Token>>)
    ensures forall t :: t in KeysOf(TfTables(docs)) <==> t in Concat(docs)
    decreases |docs|
  {
    if docs != [] {
      var init, last := docs[..|docs| - 1], docs[|docs| - 1];
      KeysOfTables(init);
      assert TfTables(docs)[..|docs| - 1] == TfTables(init);
      assert forall u :: u in Concat(docs) <==> u in Concat(init) || u in last;
    }
  }

  lemma {:induction false} AggregateZeroOutside(tfs: seq<TfTable>, k: Token, sentenceWide: bool)
    requires k !in KeysOf(tfs)
    ensures Aggregate(tfs, k, sentenceWide) == 0
    decreases |tfs|
  {
    if tfs != [] {
      AggregateZeroOutside(tfs[..|tfs| - 1], k, sentenceWide);
    }
  }

  function TfTables(docs: seq<seq<Token>>): (tfs: seq<TfTable>)
    ensures |tfs| == |docs|
  {
    if docs == [] then [] else TfTables(docs[..|docs| - 1]) + [Tf(docs[|docs| - 1])]
  }

  function Concat(docs: seq<seq<Token>>): seq<Token>
  {
    if docs == [] then [] else Concat(docs[..|docs| - 1]) + docs[|docs| - 1]
  }

  /** The three tables of the docstring example. */
  function ExampleTables(): seq<TfTable>
  {
    [map["cat" := 1, "dog" := 1], map["cat" := 1, "wolf" := 1], map["dog" := 5, "cat" := 1]]
  }

  lemma ExampleAggregates(k: Token, sentenceWide: bool)
    ensures var tfs := ExampleTables();
      Aggregate(tfs, k, sentenceWide)
        == Contribution(tfs[0], k, sentenceWide) + Contribution(tfs[1], k, sentenceWide) + Contribution(tfs[2], k, sentenceWide)
  {
    var tfs := ExampleTables();
    assert tfs[..2] == [tfs[0], tfs[1]] && tfs[..2][..1] == [tfs[0]] && [tfs[0]][..0] == tfs[..0];
    assert Aggregate([tfs[0]], k, sentenceWide) == Contribution(tfs[0], k, sentenceWide);
    assert Aggregate([tfs[0], tfs[1]], k, sentenceWide) == Aggregate([tfs[0]], k, sentenceWide) + Contribution(tfs[1], k, sentenceWide);
  }

  lemma ExampleKeys()
    ensures KeysOf(ExampleTables()) == {"cat", "dog", "wolf"}
  {
    var tfs := ExampleTables();
    assert tfs[..2] == [tfs[0], tfs[1]] && tfs[..2][..1] == [tfs[0]] && [tfs[0]][..0] == tfs[..0];
    assert KeysOf([tfs[0]]) == {"cat", "dog"};
  }

  /** The docstring example, token-wide: cat 3, dog 6, wolf 1. */
  lemma TokenWideExample()
    ensures AllTf(ExampleTables(), false) == map["cat" := 3, "dog" := 6, "wolf" := 1]
  {
    ExampleKeys();
    ExampleAggregates("cat", false);
    ExampleAggregates("dog", false);
    ExampleAggregates("wolf", false);
  }

  /** The docstring example, sentence-wide: cat 3, dog 2, wolf 1. */
  lemma SentenceWideExample()
    ensures AllTf(ExampleTables(), true) == map["cat" := 3, "dog" := 2, "wolf" := 1]
  {
    ExampleKeys();
    ExampleAggregates("cat", true);
    ExampleAggregates("dog", true);
    ExampleAggregates("wolf", true);
  }

  // ---------------------------------------------------------------------
  // cal_corpus_tp

  /**
   * Term probabilities: each count divided by the sum of all counts.  An
   * empty table gives an empty table without dividing; a non-empty table
   * whose counts add up to zero divides by zero.
   */
  ghost function Tp(tf: TfTable): Result<TpTable>
  {
    if tf == map[] then Ok(map[])
    else if SumNat(tf) == 0 then Err(ZeroDivisionError)
    else Ok(Scaled(tf, SumNat(tf) as real))
  }

  /** Every count divided by `c`. */
  function Scaled(tf: TfTable, c: real): TpTable
    requires c != 0.0
  {
    map t | t in tf :: tf[t] as real / c
  }

  function Restrict(tf: TfTable, keys: set<Token>): TfTable
  {
    map k | k in tf && k in keys :: tf[k]
  }

  /** `sum(tf.values())` followed by the dict comprehension of `cal_corpus_tp`. */
  method CalCorpusTp(tf: TfTable) returns (r: Result<TpTable>)
    ensures r == Tp(tf)
  {
    var totalLength: nat := 0;
    var rest := tf.Keys;
    assert Restrict(tf, rest) == tf;
    while rest != {}
      invariant rest <= tf.Keys
      invariant totalLength + SumNat(Restrict(tf, rest)) == SumNat(tf)
      decreases rest
    {
      var k :| k in rest;
      SumNatRemove(Restrict(tf, rest), k);
      assert Restrict(tf, rest) - {k} == Restrict(tf, rest - {k});
      totalLength := totalLength + tf[k];
      rest := rest - {k};
    }
    assert Restrict(tf, {}) == map[];
    if tf == map[] {
      return Ok(map[]);
    }
    if totalLength == 0 {
      return Err(ZeroDivisionError);
    }
    return Ok(map t | t in tf :: tf[t] as real / totalLength as real);
  }

  lemma {:induction false} SumScaled(m: TfTable, c: real)
    requires c != 0.0
    ensures SumReal(Scaled(m, c)) == SumNat(m) as real / c
    decreases m.Keys
  {
    var s := Scaled(m, c);
    if m != map[] {
      var k :| k in m;
      SumNatRemove(m, k);
      SumRealRemove(s, k);
      assert s - {k} == Scaled(m - {k}, c);
      SumScaled(m - {k}, c);
      DivAdd(m[k] as real, SumNat(m - {k}) as real, c);
    } else {
      assert s == map[];
    }
  }

  lemma DivAdd(x: real, y: real, c: real)
    requires c != 0.0
    ensures x / c + y / c == (x + y) / c
  {
  }

  /** The probabilities of a non-empty table with a positive total add up to one. */
  lemma TpSumsToOne(tf: TfTable)
    requires tf != map[] && SumNat(tf) > 0
    ensures Tp(tf).Ok? && SumReal(Tp(tf).value) == 1.0
  {
    var total := SumNat(tf) as real;
    assert Tp(tf) == Ok(Scaled(tf, total));
    SumScaled(tf, total);
    DivSelf(total);
  }

  lemma DivSelf(x: real)
    requires x != 0.0
    ensures x / x == 1.0
  {
  }

  /**
   * The table of a document never makes `cal_corpus_tp` divide by zero, and
   * each probability is the token's share of the document's length.
   */
  lemma TpOfDocument(doc: seq<Token>)
    ensures Tp(Tf(doc)).Ok?
    ensures Tp(Tf(doc)).value.Keys == Tf(doc).Keys
    ensures forall t :: t in doc ==> Tp(Tf(doc)).value[t] == multiset(doc)[t] as real / |doc| as real
  {
    TfCountsDocument(doc);
  }

  // ---------------------------------------------------------------------
  // cal_idf_BM25

  /** `log(N - freq + 0.5) - log(freq + 0.5)`. */
  function RawIdf(N: int, freq: nat, ln: real -> real): real
  {
    ln((N - freq) as real + 0.5) - ln(freq as real + 0.5)
  }

  function RawIdfs(N: int, allTf: TfTable, ln: real -> real): TpTable
  {
    map w | w in allTf :: RawIdf(N, allTf[w], ln)
  }

  /** Some frequency exceeds `N`, so `log(N - freq + 0.5)` gets a non-positive argument. */
  predicate HasDomainError(N: int, allTf: TfTable)
  {
    exists w :: w in allTf && (N - allTf[w]) as real + 0.5 <= 0.0
  }

  /**
   * The BM25 idf table: the raw value of every word, except that a negative
   * raw value is replaced by `epsilon` times the mean of all raw values.
   * Taking the mean of no values divides by zero.
   */
  ghost function Idf(N: int, allTf: TfTable, epsilon: real, ln: real -> real): Result<TpTable>
  {
    if HasDomainError(N, allTf) then Err(MathDomainError)
    else if allTf == map[] then Err(ZeroDivisionError)
    else
      var raw := RawIdfs(N, allTf, ln);
      Ok(ReplaceNegatives(raw, Floor(epsilon, raw)))
  }

  lemma IdfWhenDefined(N: int, allTf: TfTable, epsilon: real, ln: real -> real)
    requires !HasDomainError(N, allTf) && allTf != map[]
    ensures RawIdfs(N, allTf, ln) != map[]
    ensures Idf(N, allTf, epsilon, ln) == Ok(ReplaceNegatives(RawIdfs(N, allTf, ln), Floor(epsilon, RawIdfs(N, allTf, ln))))
  {
    var w :| w in allTf;
    assert w in RawIdfs(N, allTf, ln);
  }

  /** `epsilon * average_idf`, the value that replaces a negative idf. */
  ghost function Floor(epsilon: real, raw: TpTable): real
    requires raw != map[]
  {
    epsilon * Mean(raw)
  }

  /** The running sum of the first loop gives the floor the second loop writes. */
  lemma FloorOfSum(epsilon: real, raw: TpTable, sum: real, average: real)
    requires raw != map[] && sum == SumReal(raw) && average == sum / |raw| as real
    ensures epsilon * average == Floor(epsilon, raw)
  {
  }

  /** The mean of the raw idfs lies between the least and the greatest of them. */
  lemma MeanBetween(raw: TpTable)
    requires raw != map[]
    ensures exists w :: w in raw && raw[w] <= Mean(raw)
    ensures exists w :: w in raw && Mean(raw) <= raw[w]
  {
    var mean := Mean(raw);
    RepeatedIsProduct(|raw|, mean);
    assert Repeated(|raw|, mean) == SumReal(raw);
    if forall w :: w in raw ==> mean < raw[w] {
      SumRealAbove(raw, mean);
    }
    if forall w :: w in raw ==> raw[w] < mean {
      SumRealBelow(raw, mean);
    }
  }

  /**
   * With a non-negative `epsilon`, the replacement value lies between
   * `epsilon` times the least raw idf and `epsilon` times the greatest.
   */
  lemma FloorBetween(epsilon: real, raw: TpTable)
    requires raw != map[] && epsilon >= 0.0
    ensures exists w :: w in raw && epsilon * raw[w] <= Floor(epsilon, raw)
    ensures exists w :: w in raw && Floor(epsilon, raw) <= epsilon * raw[w]
  {
    MeanBetween(raw);
    var lo :| lo in raw && raw[lo] <= Mean(raw);
    var hi :| hi in raw && Mean(raw) <= raw[hi];
    ScaleMonotone(epsilon, raw[lo], Mean(raw));
    ScaleMonotone(epsilon, Mean(raw), raw[hi]);
  }

  lemma ScaleMonotone(epsilon: real, x: real, y: real)
    requires epsilon >= 0.0 && x <= y
    ensures epsilon * x <= epsilon * y
  {
    assert epsilon * y - epsilon * x == epsilon * (y - x);
  }

  lemma FloorNonNegative(epsilon: real, raw: TpTable)
    requires raw != map[] && epsilon >= 0.0 && SumReal(raw) >= 0.0
    ensures Floor(epsilon, raw) >= 0.0
  {
    assert Mean(raw) >= 0.0;
  }

  /** `idf_sum / len(idf)`. */
  ghost function Mean(raw: TpTable): real
    requires raw != map[]
  {
    SumReal(raw) / |raw| as real
  }

  /** Every negative value replaced by `eps`. */
  function ReplaceNegatives(raw: TpTable, eps: real): TpTable
  {
    map w | w in raw :: if raw[w] < 0.0 then eps else raw[w]
  }

  /**
   * `cal_idf_BM25`: the first loop computes every raw value, their sum and
   * the list of negative ones; then `average_idf = idf_sum / len(idf)`; the
   * second loop overwrites the negative ones with `epsilon * average_idf`.
   */
  method CalIdfBm25(N: int, allTf: TfTable, epsilon: real, ln: real -> real) returns (r: Result<TpTable>)
    ensures r == Idf(N, allTf, epsilon, ln)
  {
    var ok, idf, idfSum, negativeIdfs := RawIdfPass(N, allTf, ln);
    if !ok {
      return Err(MathDomainError);
    }
    if |idf| == 0 {
      assert idf.Keys == allTf.Keys;
      return Err(ZeroDivisionError);
    }
    var averageIdf := idfSum / |idf| as real;
    var eps := epsilon * averageIdf;
    FloorOfSum(epsilon, idf, idfSum, averageIdf);
    var replaced := ReplaceAll(idf, negativeIdfs, eps);
    ReplacedExactlyNegatives(replaced, idf, negativeIdfs, eps);
    IdfWhenDefined(N, allTf, epsilon, ln);
    return Ok(replaced);
  }

  /** The first loop of `cal_idf_BM25`; `ok` is false when `log` raises. */
  method RawIdfPass(N: int, allTf: TfTable, ln: real -> real)
    returns (ok: bool, idf: TpTable, idfSum: real, negativeIdfs: seq<Token>)
    ensures ok <==> !HasDomainError(N, allTf)
    ensures ok ==> idf == RawIdfs(N, allTf, ln) && idfSum == SumReal(idf)
    ensures ok ==> forall w :: w in negativeIdfs <==> w in idf && idf[w] < 0.0
  {
    idfSum := 0.0;
    idf := map[];
    negativeIdfs := [];
    var rest := allTf.Keys;
    while rest != {}
      invariant RawPassInvariant(N, allTf, ln, rest, idf, idfSum, negativeIdfs)
      decreases rest
    {
      var word :| word in rest;
      var freq := allTf[word];
      if (N - freq) as real + 0.5 <= 0.0 {
        return false, idf, idfSum, negativeIdfs;
      }
      var idfWord := RawIdf(N, freq, ln);
      RawPassStep(N, allTf, ln, rest, idf, idfSum, negativeIdfs, word);
      idf := idf[word := idfWord];
      idfSum := idfSum + idfWord;
      if idfWord < 0.0 {
        negativeIdfs := negativeIdfs + [word];
      }
      rest := rest - {word};
    }
    RawPassDone(N, allTf, ln, idf, idfSum, negativeIdfs);
    ok := true;
  }

  /** What the first loop of `cal_idf_BM25` has built once the words outside `rest` are done. */
  ghost predicate RawPassInvariant(N: int, allTf: TfTable, ln: real -> real, rest: set<Token>,
                                   idf: TpTable, idfSum: real, negativeIdfs: seq<Token>)
  {
    && rest <= allTf.Keys
    && idf.Keys == allTf.Keys - rest
    && (forall w :: w in idf ==> idf[w] == RawIdf(N, allTf[w], ln))
    && idfSum == SumReal(idf)
    && (forall w :: w in negativeIdfs <==> w in idf && idf[w] < 0.0)
    && (forall w :: w in idf ==> (N - allTf[w]) as real + 0.5 > 0.0)
  }

  lemma RawPassDone(N: int, allTf: TfTable, ln: real -> real, idf: TpTable, idfSum: real, negativeIdfs: seq<Token>)
    requires RawPassInvariant(N, allTf, ln, {}, idf, idfSum, negativeIdfs)
    ensures !HasDomainError(N, allTf) && idf == RawIdfs(N, allTf, ln)
  {
    assert idf == RawIdfs(N, allTf, ln);
  }

  lemma RawPassStep(N: int, allTf: TfTable, ln: real -> real, rest: set<Token>,
                    idf: TpTable, idfSum: real, negativeIdfs: seq<Token>, word: Token)
    requires RawPassInvariant(N, allTf, ln, rest, idf, idfSum, negativeIdfs)
    requires word in rest && (N - allTf[word]) as real + 0.5 > 0.0
    ensures var idfWord := RawIdf(N, allTf[word], ln);
      RawPassInvariant(N, allTf, ln, rest - {word}, idf[word := idfWord],
                       idfSum + idfWord, if idfWord < 0.0 then negativeIdfs + [word] else negativeIdfs)
  {
    SumRealUpdate(idf, word, RawIdf(N, allTf[word], ln));
    assert allTf.Keys - (rest - {word}) == (allTf.Keys - rest) + {word};
  }

  /** The second loop of `cal_idf_BM25`: `idf[word] = eps` for each listed word. */
  method ReplaceAll(idf: TpTable, words: seq<Token>, eps: real) returns (r: TpTable)
    ensures r.Keys == idf.Keys + set w | w in words
    ensures forall w :: w in r ==> r[w] == if w in words then eps else idf[w]
  {
    r := idf;
    for j := 0 to |words|
      invariant r.Keys == idf.Keys + set w | w in words[..j]
      invariant forall w :: w in r ==> r[w] == if w in words[..j] then eps else idf[w]
    {
      assert words[..j + 1] == words[..j] + [words[j]];
      r := r[words[j] := eps];
    }
    assert words[..|words|] == words;
  }

  lemma ReplacedExactlyNegatives(idf: TpTable, raw: TpTable, negatives: seq<Token>, eps: real)
    requires idf.Keys == raw.Keys
    requires forall w :: w in negatives <==> w in raw && raw[w] < 0.0
    requires forall w :: w in idf ==> idf[w] == if w in negatives then eps else raw[w]
    ensures idf == ReplaceNegatives(raw, eps)
  {
  }

  /**
   * The replacement pass changes nothing when no raw value is negative, and
   * when the mean raw value and `epsilon` are not negative it leaves no
   * negative value at all.
   */
  lemma IdfReplacesNegatives(N: int, allTf: TfTable, epsilon: real, ln: real -> real)
    requires Idf(N, allTf, epsilon, ln).Ok?
    ensures var raw := RawIdfs(N, allTf, ln);
      (forall w :: w in raw ==> raw[w] >= 0.0) ==> Idf(N, allTf, epsilon, ln).value == raw
    ensures var raw := RawIdfs(N, allTf, ln);
      epsilon >= 0.0 && SumReal(raw) >= 0.0 ==>
        forall w :: w in allTf ==> Idf(N, allTf, epsilon, ln).value[w] >= 0.0
  {
    var raw := RawIdfs(N, allTf, ln);
    IdfWhenDefined(N, allTf, epsilon, ln);
    if epsilon >= 0.0 && SumReal(raw) >= 0.0 {
      FloorNonNegative(epsilon, raw);
    }
  }

  /**
   * When no frequency exceeds the number of documents (as with a
   * sentence-wide aggregate), `cal_idf_BM25` fails exactly when the table is
   * empty, and then by dividing by zero.
   */
  lemma IdfFailsOnlyWhenEmpty(N: int, allTf: TfTable, epsilon: real, ln: real -> real)
    requires forall w :: w in allTf ==> allTf[w] <= N
    ensures Idf(N, allTf, epsilon, ln).Err? <==> allTf == map[]
    ensures allTf == map[] ==> Idf(N, allTf, epsilon, ln) == Err(ZeroDivisionError)
  {
  }
}
