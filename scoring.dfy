/**
 * The four per-document scorers of Models/StatisticModel/source/freq_feature.py:
 * `BM25`, `jelinek_mercer`, `dirichlet` and `absolute_discount`.
 *
 * Each scorer loops over `range(N)` and, for every document, over the query
 * tokens, adding one term per token to a running `score`.  The specification
 * is shared: `Term` is what one token adds to one document (zero for a
 * skipped token), `Accumulate` runs over the query, `Scores` over the
 * documents; a raised exception is an `Err`, and the first one wins.
 */
module Scoring {
  import opened Wrappers
  import opened FreqFeature

  /** A scorer together with the tables and the hyperparameters its Python function takes. */
  datatype Scorer =
    | Bm25Scorer(allIdf: TpTable, corpusTf: seq<TfTable>, corpusLength: seq<int>, avgDocLength: real, k1: real, b: real)
    | JmScorer(allTp: TpTable, corpusTp: seq<TpTable>, lamb: real, ln: real -> real)
    | DirScorer(allTp: TpTable, corpusTf: seq<TfTable>, corpusLength: seq<int>, mu: real, ln: real -> real)
    | AbsScorer(allTp: TpTable, corpusTf: seq<TfTable>, corpusLength: seq<int>, delta: real, ln: real -> real)
  {
    /** Whether the lists indexed by `doc_idx` reach document `d`; Python raises IndexError otherwise. */
    predicate InRange(d: nat)
    {
      if JmScorer? then d < |corpusTp| else d < |corpusTf| && d < |corpusLength|
    }

    /** What the inner loop sees of document `d`. */
    function Doc(d: nat): DocModel
      requires InRange(d)
    {
      match this
      case Bm25Scorer(allIdf, corpusTf, corpusLength, avg, k1, b) => Bm25Doc(allIdf, corpusTf[d], corpusLength[d], avg, k1, b)
      case JmScorer(allTp, corpusTp, lamb, ln) => JmDoc(allTp, corpusTp[d], lamb, ln)
      case DirScorer(allTp, corpusTf, corpusLength, mu, ln) => DirDoc(allTp, corpusTf[d], corpusLength[d], mu, ln)
      case AbsScorer(allTp, corpusTf, corpusLength, delta, ln) => AbsDoc(allTp, corpusTf[d], corpusLength[d], delta, ln)
    }
  }

  /** One document as its scorer's inner loop reads it: `doc_freqs`/`tf`/`p_ml` and `doc_len`. */
  datatype DocModel =
    | Bm25Doc(allIdf: TpTable, docFreqs: TfTable, docLen: int, avgDocLength: real, k1: real, b: real)
    | JmDoc(allTp: TpTable, pMl: TpTable, lamb: real, ln: real -> real)
    | DirDoc(allTp: TpTable, tf: TfTable, docLen: int, mu: real, ln: real -> real)
    | AbsDoc(allTp: TpTable, tf: TfTable, docLen: int, delta: real, ln: real -> real)

  /** `dict.get(token, 0)` on a probability or idf table. */
  function Get(m: TpTable, t: Token): real
  {
    if t in m then m[t] else 0.0
  }

  /** `dict.get(token, 0)` on a count table. */
  function GetCount(m: TfTable, t: Token): nat
  {
    if t in m then m[t] else 0
  }

  function Max(x: real, y: real): real
  {
    if x < y then y else x
  }

  /** BM25's `q_freq + k1 * (1 - b + b * doc_len / avg_doc_length)`. */
  function Bm25Norm(qFreq: nat, docLen: int, avg: real, k1: real, b: real): real
    requires avg != 0.0
  {
    qFreq as real + k1 * (1.0 - b + b * docLen as real / avg)
  }

  /** BM25's `idf * (q_freq * (k1 + 1) / norm)`. */
  function Bm25Weight(idf: real, qFreq: nat, k1: real, norm: real): real
    requires norm != 0.0
  {
    idf * (qFreq as real * (k1 + 1.0) / norm)
  }

  /** Jelinek-Mercer's `(1 - lamb) * p_ml + lamb * p`. */
  function JmArgument(lamb: real, pMl: real, p: real): real
  {
    (1.0 - lamb) * pMl + lamb * p
  }

  /** Dirichlet's `(f + mu * p) / (doc_len + mu)`. */
  function DirArgument(count: nat, mu: real, p: real, docLen: int): real
    requires docLen as real + mu != 0.0
  {
    (count as real + mu * p) / (docLen as real + mu)
  }

  /** Absolute discount's `max(f - delta, 0) / doc_len + delta * d_u / doc_len * p`. */
  function AbsArgument(count: nat, delta: real, dU: nat, docLen: int, p: real): real
    requires docLen != 0
  {
    Max(count as real - delta, 0.0) / docLen as real + delta * dU as real / docLen as real * p
  }

  /** `score -= log(x)`: `math.log` raises a domain error unless `x` is positive. */
  function LogTerm(x: real, ln: real -> real): Result<real>
  {
    if x <= 0.0 then Err(MathDomainError) else Ok(-ln(x))
  }

  /**
   * What query token `t` adds to a document's score.  BM25 skips a token the
   * document lacks; the three LMIR smoothings skip a token missing from
   * `all_tp`.  A skipped token adds zero.
   */
  function Term(doc: DocModel, t: Token): Result<real>
  {
    match doc
    case Bm25Doc(allIdf, docFreqs, docLen, avg, k1, b) =>
      if t !in docFreqs then Ok(0.0)
      else if avg == 0.0 || Bm25Norm(docFreqs[t], docLen, avg, k1, b) == 0.0 then Err(ZeroDivisionError)
      else Ok(Bm25Weight(Get(allIdf, t), docFreqs[t], k1, Bm25Norm(docFreqs[t], docLen, avg, k1, b)))
    case JmDoc(allTp, pMl, lamb, ln) =>
      if t !in allTp then Ok(0.0)
      else LogTerm(JmArgument(lamb, Get(pMl, t), allTp[t]), ln)
    case DirDoc(allTp, tf, docLen, mu, ln) =>
      if t !in allTp then Ok(0.0)
      else if docLen as real + mu == 0.0 then Err(ZeroDivisionError)
      else LogTerm(DirArgument(GetCount(tf, t), mu, allTp[t], docLen), ln)
    case AbsDoc(allTp, tf, docLen, delta, ln) =>
      if t !in allTp then Ok(0.0)
      else if docLen == 0 then Err(ZeroDivisionError)
      else LogTerm(AbsArgument(GetCount(tf, t), delta, |tf|, docLen, allTp[t]), ln)
  }

  /** The inner loop: the terms of the query tokens, added in query order. */
  function Accumulate(doc: DocModel, query: seq<Token>): Result<real>
  {
    if query == [] then Ok(0.0)
    else match Accumulate(doc, query[..|query| - 1])
      case Err(e) => Err(e)
      case Ok(score) =>
        match Term(doc, query[|query| - 1])
        case Err(e) => Err(e)
        case Ok(c) => Ok(score + c)
  }

  /** The score of document `d`, or IndexError when its tables are missing. */
  function DocScore(s: Scorer, d: nat, query: seq<Token>): Result<real>
  {
    if s.InRange(d) then Accumulate(s.Doc(d), query) else Err(IndexError)
  }

  /** The outer loop over `range(n)`: the scores of documents 0 .. n-1, in order. */
  function Scores(s: Scorer, n: int, query: seq<Token>): Result<seq<real>>
  {
    if n <= 0 then Ok([])
    else match Scores(s, n - 1, query)
      case Err(e) => Err(e)
      case Ok(scores) =>
        match DocScore(s, n - 1, query)
        case Err(e) => Err(e)
        case Ok(score) => Ok(scores + [score])
  }

  // ---------------------------------------------------------------------
  // BM25

  method Bm25(query: seq<Token>, N: int, allIdf: TpTable, corpusTf: seq<TfTable>, corpusLength: seq<int>,
              avgDocLength: real, k1: real, b: real) returns (r: Result<seq<real>>)
    ensures r == Scores(Bm25Scorer(allIdf, corpusTf, corpusLength, avgDocLength, k1, b), N, query)
  {
    ghost var s := Bm25Scorer(allIdf, corpusTf, corpusLength, avgDocLength, k1, b);
    var scores := [];
    var docIdx := 0;
    while docIdx < N
      invariant 0 <= docIdx && (docIdx <= N || docIdx == 0)
      invariant Scores(s, docIdx, query) == Ok(scores)
    {
      if docIdx >= |corpusLength| || docIdx >= |corpusTf| {
        r := Err(IndexError);
        ScoresStep(s, docIdx, N, query, scores);
        return;
      }
      var score := Bm25Document(query, allIdf, corpusTf[docIdx], corpusLength[docIdx], avgDocLength, k1, b);
      ScoresStep(s, docIdx, N, query, scores);
      if score.Err? {
        r := Err(score.error);
        return;
      }
      scores := scores + [score.value];
      docIdx := docIdx + 1;
    }
    r := Ok(scores);
  }

  /** The inner loop of `BM25` for one document. */
  method Bm25Document(query: seq<Token>, allIdf: TpTable, docFreqs: TfTable, docLen: int,
                      avgDocLength: real, k1: real, b: real) returns (r: Result<real>)
    ensures r == Accumulate(Bm25Doc(allIdf, docFreqs, docLen, avgDocLength, k1, b), query)
  {
    ghost var doc := Bm25Doc(allIdf, docFreqs, docLen, avgDocLength, k1, b);
    var score := 0.0;
    for j := 0 to |query|
      invariant Accumulate(doc, query[..j]) == Ok(score)
    {
      var token := query[j];
      AccumulateSnoc(doc, query, j);
      if token !in docFreqs {
        continue;
      }
      var qFreq := docFreqs[token];
      if avgDocLength == 0.0 {
        r := Err(ZeroDivisionError);
        TermFailure(doc, query, j);
        return;
      }
      var norm := Bm25Norm(qFreq, docLen, avgDocLength, k1, b);
      if norm == 0.0 {
        r := Err(ZeroDivisionError);
        TermFailure(doc, query, j);
        return;
      }
      score := score + Bm25Weight(if token in allIdf then allIdf[token] else 0.0, qFreq, k1, norm);
    }
    assert query[..|query|] == query;
    r := Ok(score);
  }

  // ---------------------------------------------------------------------
  // LMIR: Jelinek-Mercer

  method JelinekMercer(query: seq<Token>, N: int, allTp: TpTable, corpusTp: seq<TpTable>, lamb: real, ln: real -> real)
    returns (r: Result<seq<real>>)
    ensures r == Scores(JmScorer(allTp, corpusTp, lamb, ln), N, query)
  {
    ghost var s := JmScorer(allTp, corpusTp, lamb, ln);
    var scores := [];
    var docIdx := 0;
    while docIdx < N
      invariant 0 <= docIdx && (docIdx <= N || docIdx == 0)
      invariant Scores(s, docIdx, query) == Ok(scores)
    {
      if docIdx >= |corpusTp| {
        r := Err(IndexError);
        ScoresStep(s, docIdx, N, query, scores);
        return;
      }
      var score := JelinekMercerDocument(query, allTp, corpusTp[docIdx], lamb, ln);
      ScoresStep(s, docIdx, N, query, scores);
      if score.Err? {
        r := Err(score.error);
        return;
      }
      scores := scores + [score.value];
      docIdx := docIdx + 1;
    }
    r := Ok(scores);
  }

  /** The inner loop of `jelinek_mercer` for one document. */
  method JelinekMercerDocument(query: seq<Token>, allTp: TpTable, pMl: TpTable, lamb: real, ln: real -> real)
    returns (r: Result<real>)
    ensures r == Accumulate(JmDoc(allTp, pMl, lamb, ln), query)
  {
    ghost var doc := JmDoc(allTp, pMl, lamb, ln);
    var score := 0.0;
    for j := 0 to |query|
      invariant Accumulate(doc, query[..j]) == Ok(score)
    {
      var token := query[j];
      AccumulateSnoc(doc, query, j);
      if token !in allTp {
        continue;
      }
      var p := allTp[token];
      var x := JmArgument(lamb, if token in pMl then pMl[token] else 0.0, p);
      if x <= 0.0 {
        r := Err(MathDomainError);
        TermFailure(doc, query, j);
        return;
      }
      score := score - ln(x);
    }
    assert query[..|query|] == query;
    r := Ok(score);
  }

  // ---------------------------------------------------------------------
  // LMIR: Dirichlet

  method Dirichlet(query: seq<Token>, N: int, allTp: TpTable, corpusTf: seq<TfTable>, corpusLength: seq<int>,
                   mu: real, ln: real -> real) returns (r: Result<seq<real>>)
    ensures r == Scores(DirScorer(allTp, corpusTf, corpusLength, mu, ln), N, query)
  {
    ghost var s := DirScorer(allTp, corpusTf, corpusLength, mu, ln);
    var scores := [];
    var docIdx := 0;
    while docIdx < N
      invariant 0 <= docIdx && (docIdx <= N || docIdx == 0)
      invariant Scores(s, docIdx, query) == Ok(scores)
    {
      if docIdx >= |corpusTf| || docIdx >= |corpusLength| {
        r := Err(IndexError);
        ScoresStep(s, docIdx, N, query, scores);
        return;
      }
      var score := DirichletDocument(query, allTp, corpusTf[docIdx], corpusLength[docIdx], mu, ln);
      ScoresStep(s, docIdx, N, query, scores);
      if score.Err? {
        r := Err(score.error);
        return;
      }
      scores := scores + [score.value];
      docIdx := docIdx + 1;
    }
    r := Ok(scores);
  }

  /** The inner loop of `dirichlet` for one document. */
  method DirichletDocument(query: seq<Token>, allTp: TpTable, tf: TfTable, docLen: int, mu: real, ln: real -> real)
    returns (r: Result<real>)
    ensures r == Accumulate(DirDoc(allTp, tf, docLen, mu, ln), query)
  {
    ghost var doc := DirDoc(allTp, tf, docLen, mu, ln);
    var score := 0.0;
    for j := 0 to |query|
      invariant Accumulate(doc, query[..j]) == Ok(score)
    {
      var token := query[j];
      AccumulateSnoc(doc, query, j);
      if token !in allTp {
        continue;
      }
      if docLen as real + mu == 0.0 {
        r := Err(ZeroDivisionError);
        TermFailure(doc, query, j);
        return;
      }
      var x := DirArgument(if token in tf then tf[token] else 0, mu, allTp[token], docLen);
      if x <= 0.0 {
        r := Err(MathDomainError);
        TermFailure(doc, query, j);
        return;
      }
      score := score - ln(x);
    }
    assert query[..|query|] == query;
    r := Ok(score);
  }

  // ---------------------------------------------------------------------
  // LMIR: absolute discount

  method AbsoluteDiscount(query: seq<Token>, N: int, allTp: TpTable, corpusTf: seq<TfTable>, corpusLength: seq<int>,
                          delta: real, ln: real -> real) returns (r: Result<seq<real>>)
    ensures r == Scores(AbsScorer(allTp, corpusTf, corpusLength, delta, ln), N, query)
  {
    ghost var s := AbsScorer(allTp, corpusTf, corpusLength, delta, ln);
    var scores := [];
    var docIdx := 0;
    while docIdx < N
      invariant 0 <= docIdx && (docIdx <= N || docIdx == 0)
      invariant Scores(s, docIdx, query) == Ok(scores)
    {
      if docIdx >= |corpusTf| || docIdx >= |corpusLength| {
        r := Err(IndexError);
        ScoresStep(s, docIdx, N, query, scores);
        return;
      }
      var score := AbsoluteDiscountDocument(query, allTp, corpusTf[docIdx], corpusLength[docIdx], delta, ln);
      ScoresStep(s, docIdx, N, query, scores);
      if score.Err? {
        r := Err(score.error);
        return;
      }
      scores := scores + [score.value];
      docIdx := docIdx + 1;
    }
    r := Ok(scores);
  }

  /** The inner loop of `absolute_discount` for one document; `d_u` is the number of distinct tokens. */
  method AbsoluteDiscountDocument(query: seq<Token>, allTp: TpTable, tf: TfTable, docLen: int, delta: real, ln: real -> real)
    returns (r: Result<real>)
    ensures r == Accumulate(AbsDoc(allTp, tf, docLen, delta, ln), query)
  {
    ghost var doc := AbsDoc(allTp, tf, docLen, delta, ln);
    var dU := |tf|;
    var score := 0.0;
    for j := 0 to |query|
      invariant Accumulate(doc, query[..j]) == Ok(score)
    {
      var token := query[j];
      AccumulateSnoc(doc, query, j);
      if token !in allTp {
        continue;
      }
      if docLen == 0 {
        r := Err(ZeroDivisionError);
        TermFailure(doc, query, j);
        return;
      }
      var x := AbsArgument(if token in tf then tf[token] else 0, delta, dU, docLen, allTp[token]);
      if x <= 0.0 {
        r := Err(MathDomainError);
        TermFailure(doc, query, j);
        return;
      }
      score := score - ln(x);
    }
    assert query[..|query|] == query;
    r := Ok(score);
  }

  // ---------------------------------------------------------------------
  // Loop steps

  /** One step of the inner loop. */
  lemma AccumulateSnoc(doc: DocModel, query: seq<Token>, j: nat)
    requires j < |query|
    ensures Accumulate(doc, query[..j]).Ok? && Term(doc, query[j]).Ok? ==>
              Accumulate(doc, query[..j + 1]) == Ok(Accumulate(doc, query[..j]).value + Term(doc, query[j]).value)
    ensures Accumulate(doc, query[..j]).Ok? && Term(doc, query[j]).Err? ==>
              Accumulate(doc, query[..j + 1]) == Err(Term(doc, query[j]).error)
  {
    assert query[..j + 1][..j] == query[..j];
  }

  /** Once a prefix of the query fails, the whole query fails with the same exception. */
  lemma {:induction false} AccumulatePrefixError(doc: DocModel, query: seq<Token>, j: nat)
    requires j <= |query| && Accumulate(doc, query[..j]).Err?
    ensures Accumulate(doc, query) == Accumulate(doc, query[..j])
    decreases |query|
  {
    if j == |query| {
      assert query[..j] == query;
    } else {
      var init := query[..|query| - 1];
      assert init[..j] == query[..j];
      AccumulatePrefixError(doc, init, j);
    }
  }

  /** Once the documents before `m` fail, every longer run fails with the same exception. */
  lemma {:induction false} ScoresPrefixError(s: Scorer, m: int, n: int, query: seq<Token>)
    requires m <= n && Scores(s, m, query).Err?
    ensures Scores(s, n, query) == Scores(s, m, query)
    decreases n - m
  {
    if m < n {
      ScoresPrefixError(s, m, n - 1, query);
    }
  }

  /** One step of the outer loop: a failing document fails the whole call. */
  lemma ScoresStep(s: Scorer, d: nat, n: int, query: seq<Token>, scores: seq<real>)
    requires d < n && Scores(s, d, query) == Ok(scores)
    ensures DocScore(s, d, query).Ok? ==> Scores(s, d + 1, query) == Ok(scores + [DocScore(s, d, query).value])
    ensures DocScore(s, d, query).Err? ==> Scores(s, n, query) == Err(DocScore(s, d, query).error)
  {
    if DocScore(s, d, query).Err? {
      ScoresPrefixError(s, d + 1, n, query);
    }
  }

  /** A term that raises makes the whole inner loop raise the same exception. */
  lemma TermFailure(doc: DocModel, query: seq<Token>, j: nat)
    requires j < |query| && Accumulate(doc, query[..j]).Ok? && Term(doc, query[j]).Err?
    ensures Accumulate(doc, query) == Err(Term(doc, query[j]).error)
  {
    AccumulateSnoc(doc, query, j);
    AccumulatePrefixError(doc, query, j + 1);
  }

  // ---------------------------------------------------------------------
  // Properties of the scores

  /**
   * A call succeeds exactly when every document's score does, and then
   * returns one score per document of `range(n)`, in document order.
   */
  lemma {:induction false} ScoresShape(s: Scorer, n: int, query: seq<Token>)
    ensures Scores(s, n, query).Ok? <==> forall d: nat :: d < n ==> DocScore(s, d, query).Ok?
    ensures Scores(s, n, query).Ok? ==>
      && |Scores(s, n, query).value| == (if n < 0 then 0 else n)
      && forall d: nat :: d < |Scores(s, n, query).value| ==> DocScore(s, d, query) == Ok(Scores(s, n, query).value[d])
    decreases n
  {
    if n > 0 {
      ScoresShape(s, n - 1, query);
      if Scores(s, n - 1, query).Ok? && DocScore(s, n - 1, query).Ok? {
        var prefix := Scores(s, n - 1, query).value;
        assert Scores(s, n, query).value == prefix + [DocScore(s, n - 1, query).value];
      }
    }
  }

  /** The exception of the lowest-numbered failing document is the one raised. */
  lemma ScoresFirstError(s: Scorer, n: int, query: seq<Token>, d: nat)
    requires d < n && DocScore(s, d, query).Err?
    requires forall i: nat :: i < d ==> DocScore(s, i, query).Ok?
    ensures Scores(s, n, query) == Err(DocScore(s, d, query).error)
  {
    ScoresShape(s, d, query);
    ScoresStep(s, d, n, query, Scores(s, d, query).value);
  }

  /** Running two query parts one after the other: the first exception wins, otherwise the scores add. */
  function Combine(a: Result<real>, b: Result<real>): Result<real>
  {
    if a.Err? then a else if b.Err? then b else Ok(a.value + b.value)
  }

  /** The score of a concatenated query combines the scores of its parts. */
  lemma {:induction false} AccumulateAppend(doc: DocModel, q1: seq<Token>, q2: seq<Token>)
    ensures Accumulate(doc, q1 + q2) == Combine(Accumulate(doc, q1), Accumulate(doc, q2))
    decreases |q2|
  {
    if q2 == [] {
      assert q1 + q2 == q1;
    } else {
      var init := q2[..|q2| - 1];
      assert (q1 + q2)[..|q1 + q2| - 1] == q1 + init;
      AccumulateAppend(doc, q1, init);
    }
  }

  /**
   * A repeated query token is counted once per occurrence: querying with the
   * query written twice doubles every score.
   */
  lemma RepeatedQueryDoubles(doc: DocModel, query: seq<Token>)
    ensures Accumulate(doc, query).Ok? ==> Accumulate(doc, query + query) == Ok(2.0 * Accumulate(doc, query).value)
    ensures Accumulate(doc, query).Err? ==> Accumulate(doc, query + query) == Accumulate(doc, query)
  {
    AccumulateAppend(doc, query, query);
  }

  /** The tokens a scorer skips: BM25 those the document lacks, LMIR those missing from `all_tp`. */
  predicate Skipped(doc: DocModel, t: Token)
  {
    if doc.Bm25Doc? then t !in doc.docFreqs else t !in doc.allTp
  }

  /** The query tokens a document does not skip, in query order. */
  function Kept(doc: DocModel, query: seq<Token>): seq<Token>
  {
    if query == [] then []
    else Kept(doc, query[..|query| - 1]) + (if Skipped(doc, query[|query| - 1]) then [] else [query[|query| - 1]])
  }

  lemma {:induction false} KeptMembers(doc: DocModel, query: seq<Token>)
    ensures forall t :: t in Kept(doc, query) <==> t in query && !Skipped(doc, t)
    ensures (forall t :: t in query ==> Skipped(doc, t)) ==> Kept(doc, query) == []
    decreases |query|
  {
    if query != [] {
      var init := query[..|query| - 1];
      KeptMembers(doc, init);
      assert query == init + [query[|query| - 1]];
    }
  }

  lemma AccumulateLast(doc: DocModel, query: seq<Token>)
    requires query != []
    ensures Accumulate(doc, query) == Combine(Accumulate(doc, query[..|query| - 1]), Term(doc, query[|query| - 1]))
  {
  }

  /** A skipped token leaves the running score as it was. */
  lemma AccumulateSkip(doc: DocModel, query: seq<Token>)
    requires query != [] && Skipped(doc, query[|query| - 1])
    ensures Accumulate(doc, query) == Accumulate(doc, query[..|query| - 1])
  {
    assert Term(doc, query[|query| - 1]) == Ok(0.0);
  }

  /** Dropping the skipped tokens from the query changes neither the score nor the exception. */
  lemma {:induction false} SkippedTokensAddNothing(doc: DocModel, query: seq<Token>)
    ensures Accumulate(doc, query) == Accumulate(doc, Kept(doc, query))
    decreases |query|
  {
    if query != [] {
      var init, t := query[..|query| - 1], query[|query| - 1];
      SkippedTokensAddNothing(doc, init);
      if Skipped(doc, t) {
        assert Kept(doc, query) == Kept(doc, init);
        AccumulateSkip(doc, query);
      } else {
        var k := Kept(doc, init) + [t];
        assert Kept(doc, query) == k;
        assert k[..|k| - 1] == Kept(doc, init) && k[|k| - 1] == t;
        AccumulateLast(doc, query);
        AccumulateLast(doc, k);
      }
    }
  }

  function Zeros(n: int): seq<real>
  {
    seq(if n < 0 then 0 else n, _ => 0.0)
  }

  /**
   * When every document skips every query token, every document scores
   * exactly zero and nothing is raised.
   */
  lemma {:induction false} NothingKeptScoresZero(s: Scorer, n: int, query: seq<Token>)
    requires forall d: nat :: d < n ==> s.InRange(d)
    requires forall d: nat, t :: d < n && t in query ==> s.InRange(d) && Skipped(s.Doc(d), t)
    ensures Scores(s, n, query) == Ok(Zeros(n))
    decreases n
  {
    if n > 0 {
      NothingKeptScoresZero(s, n - 1, query);
      SkippedTokensAddNothing(s.Doc(n - 1), query);
      KeptMembers(s.Doc(n - 1), query);
      assert Zeros(n - 1) + [0.0] == Zeros(n);
    }
  }

  /** BM25: a query sharing no token with any of the first `n` documents scores zero for each of them. */
  lemma Bm25NoSharedTokenScoresZero(allIdf: TpTable, corpusTf: seq<TfTable>, corpusLength: seq<int>,
                                    avgDocLength: real, k1: real, b: real, n: int, query: seq<Token>)
    requires n <= |corpusTf| && n <= |corpusLength|
    requires forall d, t :: 0 <= d < n && t in query ==> t !in corpusTf[d]
    ensures Scores(Bm25Scorer(allIdf, corpusTf, corpusLength, avgDocLength, k1, b), n, query) == Ok(Zeros(n))
  {
    NothingKeptScoresZero(Bm25Scorer(allIdf, corpusTf, corpusLength, avgDocLength, k1, b), n, query);
  }

  /**
   * BM25 reads the idf with `all_idf.get(token, 0)`: a token of the document
   * that has no idf adds zero once its normaliser is defined.
   */
  lemma Bm25UnknownIdfTerm(allIdf: TpTable, docFreqs: TfTable, docLen: int, avg: real, k1: real, b: real, t: Token)
    requires t in docFreqs && t !in allIdf
    requires avg != 0.0 && Bm25Norm(docFreqs[t], docLen, avg, k1, b) != 0.0
    ensures Term(Bm25Doc(allIdf, docFreqs, docLen, avg, k1, b), t) == Ok(0.0)
  {
    assert Get(allIdf, t) == 0.0;
  }

  /** Every term of the query is zero or raises. */
  predicate ZeroOrRaises(doc: DocModel, query: seq<Token>)
  {
    forall j :: 0 <= j < |query| ==> Term(doc, query[j]).Err? || Term(doc, query[j]) == Ok(0.0)
  }

  /** A document whose terms are each zero or raise scores zero whenever it scores at all. */
  lemma {:induction false} ZeroTermsScoreZero(doc: DocModel, query: seq<Token>)
    requires ZeroOrRaises(doc, query) && Accumulate(doc, query).Ok?
    ensures Accumulate(doc, query) == Ok(0.0)
    decreases |query|
  {
    if query != [] {
      var init := query[..|query| - 1];
      assert ZeroOrRaises(doc, init) by {
        forall j | 0 <= j < |init|
          ensures Term(doc, init[j]).Err? || Term(doc, init[j]) == Ok(0.0)
        {
          assert init[j] == query[j];
        }
      }
      ZeroTermsScoreZero(doc, init);
    }
  }

  /** A BM25 term of a token without idf is zero or raises. */
  lemma Bm25UnknownIdfZeroOrRaises(doc: DocModel, query: seq<Token>)
    requires doc.Bm25Doc? && forall t :: t in query ==> t !in doc.allIdf
    ensures ZeroOrRaises(doc, query)
  {
    forall j | 0 <= j < |query|
      ensures Term(doc, query[j]).Err? || Term(doc, query[j]) == Ok(0.0)
    {
      var t := query[j];
      if t in doc.docFreqs && doc.avgDocLength != 0.0
        && Bm25Norm(doc.docFreqs[t], doc.docLen, doc.avgDocLength, doc.k1, doc.b) != 0.0 {
        Bm25UnknownIdfTerm(doc.allIdf, doc.docFreqs, doc.docLen, doc.avgDocLength, doc.k1, doc.b, t);
      }
    }
  }

  /**
   * BM25: a query none of whose tokens has an idf scores zero for every
   * document whenever the scores are defined.
   */
  lemma {:induction false} Bm25UnknownQueryScoresZero(allIdf: TpTable, corpusTf: seq<TfTable>, corpusLength: seq<int>,
                                                      avgDocLength: real, k1: real, b: real, n: int, query: seq<Token>)
    requires forall t :: t in query ==> t !in allIdf
    requires Scores(Bm25Scorer(allIdf, corpusTf, corpusLength, avgDocLength, k1, b), n, query).Ok?
    ensures Scores(Bm25Scorer(allIdf, corpusTf, corpusLength, avgDocLength, k1, b), n, query) == Ok(Zeros(n))
    decreases n
  {
    var s := Bm25Scorer(allIdf, corpusTf, corpusLength, avgDocLength, k1, b);
    if n > 0 {
      Bm25UnknownQueryScoresZero(allIdf, corpusTf, corpusLength, avgDocLength, k1, b, n - 1, query);
      assert s.InRange(n - 1);
      Bm25UnknownIdfZeroOrRaises(s.Doc(n - 1), query);
      ZeroTermsScoreZero(s.Doc(n - 1), query);
      assert Zeros(n - 1) + [0.0] == Zeros(n);
    }
  }

  /** LMIR: a query none of whose tokens is in `all_tp` scores zero for every document. */
  lemma LmirUnknownQueryScoresZero(s: Scorer, n: int, query: seq<Token>)
    requires !s.Bm25Scorer? && forall d: nat :: d < n ==> s.InRange(d)
    requires forall t :: t in query ==> t !in s.allTp
    ensures Scores(s, n, query) == Ok(Zeros(n))
  {
    NothingKeptScoresZero(s, n, query);
  }

  /** A non-empty run of tokens that all raise the same exception raises it. */
  lemma {:induction false} AllTermsFail(doc: DocModel, query: seq<Token>, e: Exception)
    requires query != [] && forall t :: t in query ==> Term(doc, t) == Err(e)
    ensures Accumulate(doc, query) == Err(e)
    decreases |query|
  {
    var init := query[..|query| - 1];
    if init != [] {
      AllTermsFail(doc, init, e);
    }
  }

  /**
   * Absolute discount divides by `doc_len`: a document of length zero raises
   * ZeroDivisionError as soon as the query has a token of `all_tp`.
   */
  lemma EmptyDocumentFailsAbsoluteDiscount(allTp: TpTable, tf: TfTable, delta: real, ln: real -> real, query: seq<Token>)
    requires exists t :: t in query && t in allTp
    ensures Accumulate(AbsDoc(allTp, tf, 0, delta, ln), query) == Err(ZeroDivisionError)
  {
    var doc := AbsDoc(allTp, tf, 0, delta, ln);
    SkippedTokensAddNothing(doc, query);
    var t :| t in query && t in allTp;
    KeptMembers(doc, query);
    assert t in Kept(doc, query);
    AllTermsFail(doc, Kept(doc, query), ZeroDivisionError);
  }

  /**
   * BM25 divides by `avg_doc_length`: with an average of zero, a document
   * sharing a token with the query raises ZeroDivisionError.
   */
  lemma ZeroAverageFailsBm25(allIdf: TpTable, docFreqs: TfTable, docLen: int, k1: real, b: real, query: seq<Token>)
    requires exists t :: t in query && t in docFreqs
    ensures Accumulate(Bm25Doc(allIdf, docFreqs, docLen, 0.0, k1, b), query) == Err(ZeroDivisionError)
  {
    var doc := Bm25Doc(allIdf, docFreqs, docLen, 0.0, k1, b);
    SkippedTokensAddNothing(doc, query);
    var t :| t in query && t in docFreqs;
    KeptMembers(doc, query);
    assert t in Kept(doc, query);
    AllTermsFail(doc, Kept(doc, query), ZeroDivisionError);
  }
}
