/**
 * The class `BM25_LMIR` of Models/Bm25LMIR/source/lmir_bm25.py.  Its
 * constructor stores the hyperparameters and the statistics of a fixed
 * corpus; the four scoring methods hand those stored values to the scorers
 * of `freq_feature`.  Every field is a `const`: nothing changes after
 * construction.
 */
module LmirBm25 {
  import opened Wrappers
  import opened Sums
  import opened FreqFeature
  import opened Scoring
  import opened CorpusFeatures

  const DEFAULT_K1: real := 1.5
  const DEFAULT_B: real := 0.75
  const DEFAULT_LAMB: real := 0.1
  const DEFAULT_MU: real := 2000.0
  const DEFAULT_DELTA: real := 0.7
  const DEFAULT_EPSILON: real := 0.25

  /** The seven values `cal_all_feature_for_BM25_lmir` returns. */
  datatype Features = Features(
    n: int,
    allTp: TpTable,
    allIdf: TpTable,
    corpusTf: seq<TfTable>,
    corpusTp: seq<TpTable>,
    corpusLength: seq<int>,
    avgDocLength: real)

  /**
   * What a successful build holds: one term-frequency table, probability
   * table and length per document; the probabilities of the corpus read as
   * one document; the idf of the sentence-wide aggregate; and the number of
   * tokens over the number of documents.
   */
  ghost function FeaturesOf(corpora: seq<seq<Token>>, epsilon: real, ln: real -> real): Features
    requires HasToken(corpora)
  {
    Features(
      |corpora|,
      DocTp(Concat(corpora)),
      CorpusIdf(corpora, epsilon, ln),
      TfTables(corpora),
      TpTables(corpora),
      Lengths(corpora),
      |Concat(corpora)| as real / |corpora| as real)
  }

  /** `cal_idf_BM25` of the sentence-wide aggregate, which succeeds on a corpus with a token. */
  ghost function CorpusIdf(corpora: seq<seq<Token>>, epsilon: real, ln: real -> real): TpTable
    requires HasToken(corpora)
  {
    SentenceWideAtMostN(corpora);
    SentenceWideEmpty(corpora);
    IdfFailsOnlyWhenEmpty(|corpora|, AllTf(TfTables(corpora), true), epsilon, ln);
    Idf(|corpora|, AllTf(TfTables(corpora), true), epsilon, ln).value
  }

  /**
   * `cal_all_feature_for_BM25_lmir`: one pass over the documents appending
   * their length, tf table and tp table, then the two aggregates, the corpus
   * probabilities, the idf and the average length.  It raises
   * ZeroDivisionError exactly when no document has a token: the idf averages
   * over an empty table before the average length is reached.
   */
  method CalAllFeatureForBm25Lmir(corpora: seq<seq<Token>>, epsilon: real, ln: real -> real)
    returns (r: Result<Features>)
    ensures r.Ok? <==> HasToken(corpora)
    ensures r.Err? ==> r.error == ZeroDivisionError
    ensures r.Ok? ==> r.value == FeaturesOf(corpora, epsilon, ln)
  {
    var n := |corpora|;
    var corpusTf: seq<TfTable> := [];
    var corpusTp: seq<TpTable> := [];
    var corpusLength: seq<int> := [];
    for i := 0 to |corpora|
      invariant corpusTf == TfTables(corpora[..i])
      invariant corpusTp == TpTables(corpora[..i])
      invariant corpusLength == Lengths(corpora[..i])
    {
      var doc := corpora[i];
      assert corpora[..i + 1][..i] == corpora[..i];
      var tf := CalCorpusTf(doc);
      corpusLength := corpusLength + [|doc|];
      corpusTf := corpusTf + [tf];
      var tp := CalCorpusTp(tf);
      DocTpIsTp(doc);
      corpusTp := corpusTp + [tp.value];
    }
    assert corpora[..|corpora|] == corpora;

    var allTfLmir := CalAllCorpusTf(corpusTf, false);
    var allTfBm25 := CalAllCorpusTf(corpusTf, true);

    var allTp := CalCorpusTp(allTfLmir);
    AllTpIsDocTpOfConcat(corpora);
    SentenceWideAtMostN(corpora);
    SentenceWideEmpty(corpora);
    IdfFailsOnlyWhenEmpty(n, allTfBm25, epsilon, ln);
    var allIdf := CalIdfBm25(n, allTfBm25, epsilon, ln);
    if allIdf.Err? {
      return Err(allIdf.error);
    }

    var total := SumInts(corpusLength);
    SumLengths(corpora);
    assert n > 0 by {
      var i :| 0 <= i < |corpora| && corpora[i] != [];
    }
    var avgDocLength := total as real / n as real;
    r := Ok(Features(n, allTp.value, allIdf.value, corpusTf, corpusTp, corpusLength, avgDocLength));
  }

  /**
   * The per-document lists have one entry per document, aligned by index:
   * the length of document `i` is its token count and the sum of its tf
   * table, and its tp table is `cal_corpus_tp` of its tf table.
   */
  lemma FeaturesAligned(corpora: seq<seq<Token>>, epsilon: real, ln: real -> real)
    requires HasToken(corpora)
    ensures var f := FeaturesOf(corpora, epsilon, ln);
      && f.n == |corpora| > 0
      && |f.corpusTf| == |f.corpusTp| == |f.corpusLength| == f.n
      && forall i :: 0 <= i < f.n ==>
           && f.corpusLength[i] == |corpora[i]| == SumNat(f.corpusTf[i])
           && f.corpusTf[i] == Tf(corpora[i])
           && Tp(f.corpusTf[i]) == Ok(f.corpusTp[i])
  {
    forall i | 0 <= i < |corpora|
      ensures Lengths(corpora)[i] == |corpora[i]| == SumNat(TfTables(corpora)[i])
      ensures TfTables(corpora)[i] == Tf(corpora[i])
      ensures Tp(TfTables(corpora)[i]) == Ok(TpTables(corpora)[i])
    {
      TablesAt(corpora, i);
      TfCountsDocument(corpora[i]);
      DocTpIsTp(corpora[i]);
    }
  }

  /** `all_tp` has exactly the corpus's tokens as keys, each with a positive probability. */
  lemma FeaturesAllTp(corpora: seq<seq<Token>>, epsilon: real, ln: real -> real)
    requires HasToken(corpora)
    ensures var allTp := FeaturesOf(corpora, epsilon, ln).allTp;
      && (forall t :: t in allTp <==> t in Concat(corpora))
      && (forall t :: t in allTp ==> allTp[t] > 0.0)
  {
    DocTpPositive(Concat(corpora));
  }

  /**
   * `all_idf` has exactly the corpus's tokens as keys, and each value is the
   * raw BM25 idf of the token's document frequency, or the floor
   * `epsilon * average` when that raw value is negative.
   */
  lemma FeaturesAllIdf(corpora: seq<seq<Token>>, epsilon: real, ln: real -> real)
    requires HasToken(corpora)
    ensures var raw := RawIdfs(|corpora|, AllTf(TfTables(corpora), true), ln);
      && raw != map[]
      && (forall t :: t in raw <==> t in Concat(corpora))
      && FeaturesOf(corpora, epsilon, ln).allIdf == ReplaceNegatives(raw, Floor(epsilon, raw))
  {
    var df := AllTf(TfTables(corpora), true);
    KeysOfTables(corpora);
    SentenceWideAtMostN(corpora);
    SentenceWideEmpty(corpora);
    IdfFailsOnlyWhenEmpty(|corpora|, df, epsilon, ln);
    IdfWhenDefined(|corpora|, df, epsilon, ln);
  }

  /**
   * `avg_doc_length` is `sum(corpus_length) / N` over one or more documents,
   * and that sum is the number of tokens in the corpus.
   */
  lemma FeaturesAverage(corpora: seq<seq<Token>>, epsilon: real, ln: real -> real)
    requires HasToken(corpora)
    ensures var f := FeaturesOf(corpora, epsilon, ln);
      && f.n > 0
      && SumInts(f.corpusLength) == |Concat(corpora)|
      && f.avgDocLength == SumInts(f.corpusLength) as real / f.n as real
  {
    var i :| 0 <= i < |corpora| && corpora[i] != [];
    SumLengths(corpora);
  }

  /** A built `BM25_LMIR`: the hyperparameters and the statistics of one corpus. */
  class Bm25Lmir {
    const k1: real
    const b: real
    const lamb: real
    const mu: real
    const delta: real
    const epsilon: real
    /** `math.log`. */
    const ln: real -> real

    const n: int
    const allTp: TpTable
    const allIdf: TpTable
    const corpusTf: seq<TfTable>
    const corpusTp: seq<TpTable>
    const corpusLength: seq<int>
    const avgDocLength: real

    /** The statistics of `corpora`, as a successful `__init__` leaves them. */
    ghost predicate BuiltFrom(corpora: seq<seq<Token>>)
    {
      HasToken(corpora)
        && Features(n, allTp, allIdf, corpusTf, corpusTp, corpusLength, avgDocLength) == FeaturesOf(corpora, epsilon, ln)
    }

    /** Stores the hyperparameters and the features computed by `cal_all_feature_for_BM25_lmir`. */
    constructor (k1: real, b: real, lamb: real, mu: real, delta: real, epsilon: real, ln: real -> real, f: Features)
      ensures this.k1 == k1 && this.b == b && this.lamb == lamb && this.mu == mu
      ensures this.delta == delta && this.epsilon == epsilon && this.ln == ln
      ensures Features(n, allTp, allIdf, corpusTf, corpusTp, corpusLength, avgDocLength) == f
    {
      this.k1, this.b, this.lamb, this.mu, this.delta, this.epsilon, this.ln := k1, b, lamb, mu, delta, epsilon, ln;
      this.n, this.allTp, this.allIdf := f.n, f.allTp, f.allIdf;
      this.corpusTf, this.corpusTp, this.corpusLength, this.avgDocLength := f.corpusTf, f.corpusTp, f.corpusLength, f.avgDocLength;
    }

    function Bm25Spec(): Scorer { Bm25Scorer(allIdf, corpusTf, corpusLength, avgDocLength, k1, b) }
    function JmSpec(): Scorer { JmScorer(allTp, corpusTp, lamb, ln) }
    function DirSpec(): Scorer { DirScorer(allTp, corpusTf, corpusLength, mu, ln) }
    function AbsSpec(): Scorer { AbsScorer(allTp, corpusTf, corpusLength, delta, ln) }

    /** The wrapper `BM25`: the stored idf, tables, lengths, `k1` and `b`. */
    method Bm25(queryTokens: seq<Token>) returns (r: Result<seq<real>>)
      ensures r == Scores(Bm25Scorer(allIdf, corpusTf, corpusLength, avgDocLength, k1, b), n, queryTokens)
    {
      r := Scoring.Bm25(queryTokens, n, allIdf, corpusTf, corpusLength, avgDocLength, k1, b);
    }

    /** The wrapper `jelinek_mercer`: the stored probabilities and `lamb`. */
    method JelinekMercer(queryTokens: seq<Token>) returns (r: Result<seq<real>>)
      ensures r == Scores(JmScorer(allTp, corpusTp, lamb, ln), n, queryTokens)
    {
      r := Scoring.JelinekMercer(queryTokens, n, allTp, corpusTp, lamb, ln);
    }

    /** The wrapper `dirichlet`: the stored tables, lengths and `mu`. */
    method Dirichlet(queryTokens: seq<Token>) returns (r: Result<seq<real>>)
      ensures r == Scores(DirScorer(allTp, corpusTf, corpusLength, mu, ln), n, queryTokens)
    {
      r := Scoring.Dirichlet(queryTokens, n, allTp, corpusTf, corpusLength, mu, ln);
    }

    /** The wrapper `absolute_discount`: the stored tables, lengths and `delta`. */
    method AbsoluteDiscount(queryTokens: seq<Token>) returns (r: Result<seq<real>>)
      ensures r == Scores(AbsScorer(allTp, corpusTf, corpusLength, delta, ln), n, queryTokens)
    {
      r := Scoring.AbsoluteDiscount(queryTokens, n, allTp, corpusTf, corpusLength, delta, ln);
    }
  }

  /** A model built from a corpus has one document or more, so normalising never meets an empty list. */
  lemma BuiltModelHasDocuments(m: Bm25Lmir, corpora: seq<seq<Token>>)
    requires m.BuiltFrom(corpora)
    ensures m.n == |corpora| > 0
  {
    var i :| 0 <= i < |corpora| && corpora[i] != [];
  }

  /**
   * `BM25_LMIR(corpora, k1, b, lamb, mu, delta, epsilon)`: the construction
   * fails, with ZeroDivisionError, exactly when no document has a token.
   */
  method NewBm25Lmir(corpora: seq<seq<Token>>, k1: real, b: real, lamb: real, mu: real, delta: real,
                     epsilon: real, ln: real -> real) returns (r: Result<Bm25Lmir>)
    ensures r.Ok? <==> HasToken(corpora)
    ensures r.Err? ==> r.error == ZeroDivisionError
    ensures r.Ok? ==> fresh(r.value) && r.value.BuiltFrom(corpora)
    ensures r.Ok? ==> r.value.k1 == k1 && r.value.b == b && r.value.lamb == lamb && r.value.mu == mu
                      && r.value.delta == delta && r.value.epsilon == epsilon && r.value.ln == ln
  {
    var f := CalAllFeatureForBm25Lmir(corpora, epsilon, ln);
    if f.Err? {
      return Err(f.error);
    }
    var m := new Bm25Lmir(k1, b, lamb, mu, delta, epsilon, ln, f.value);
    r := Ok(m);
  }
}
