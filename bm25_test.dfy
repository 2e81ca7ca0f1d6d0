/**
 * `cal_all_feature_for_BM25` of Models/Bm25LMIR/source/Test/bm25.py: the
 * statistics BM25 needs.  It computes the average length before the idf, so
 * an empty corpus fails there; a corpus of empty documents fails in the idf.
 */
module Bm25Test {
  import opened Wrappers
  import opened Sums
  import opened FreqFeature
  import opened Scoring
  import opened CorpusFeatures

  /** The five values `cal_all_feature_for_BM25` returns. */
  datatype Bm25Features = Bm25Features(
    n: int,
    allIdf: TpTable,
    corpusTf: seq<TfTable>,
    corpusLength: seq<int>,
    avgDocLength: real)

  /** `cal_idf_BM25` is called without `epsilon`, so with its default. */
  const IDF_EPSILON: real := 0.25

  ghost function Bm25FeaturesOf(corpora: seq<seq<Token>>, ln: real -> real): Bm25Features
    requires HasToken(corpora)
  {
    SentenceWideAtMostN(corpora);
    SentenceWideEmpty(corpora);
    IdfFailsOnlyWhenEmpty(|corpora|, AllTf(TfTables(corpora), true), IDF_EPSILON, ln);
    Bm25Features(
      |corpora|,
      Idf(|corpora|, AllTf(TfTables(corpora), true), IDF_EPSILON, ln).value,
      TfTables(corpora),
      Lengths(corpora),
      |Concat(corpora)| as real / |corpora| as real)
  }

  /**
   * The loop appends each document's tf table and length; then
   * `avg_doc_length = sum(corpus_length) / N`, the sentence-wide aggregate and
   * its idf.  ZeroDivisionError is raised exactly when no document has a
   * token: at the average for an empty corpus, in the idf otherwise.
   */
  method CalAllFeatureForBm25(corpora: seq<seq<Token>>, ln: real -> real) returns (r: Result<Bm25Features>)
    ensures r.Ok? <==> HasToken(corpora)
    ensures r.Err? ==> r.error == ZeroDivisionError
    ensures r.Ok? ==> r.value == Bm25FeaturesOf(corpora, ln)
  {
    var n := |corpora|;
    var corpusTf: seq<TfTable> := [];
    var corpusLength: seq<int> := [];
    for i := 0 to |corpora|
      invariant corpusTf == TfTables(corpora[..i])
      invariant corpusLength == Lengths(corpora[..i])
    {
      var doc := corpora[i];
      assert corpora[..i + 1][..i] == corpora[..i];
      var tf := CalCorpusTf(doc);
      corpusLength := corpusLength + [|doc|];
      corpusTf := corpusTf + [tf];
    }
    assert corpora[..|corpora|] == corpora;

    if n == 0 {
      return Err(ZeroDivisionError);
    }
    SumLengths(corpora);
    var avgDocLength := SumInts(corpusLength) as real / n as real;

    var allTf := CalAllCorpusTf(corpusTf, true);
    SentenceWideAtMostN(corpora);
    SentenceWideEmpty(corpora);
    IdfFailsOnlyWhenEmpty(n, allTf, IDF_EPSILON, ln);
    var allIdf := CalIdfBm25(n, allTf, IDF_EPSILON, ln);
    if allIdf.Err? {
      return Err(allIdf.error);
    }
    r := Ok(Bm25Features(n, allIdf.value, corpusTf, corpusLength, avgDocLength));
  }

  /** The demo corpus of the script, split on single spaces. */
  function DemoCorpus(): seq<seq<Token>>
  {
    [["Hello", "there", "good", "man!"],
     ["It", "is", "quite", "windy", "in", "London"],
     ["How", "is", "the", "weather", "today?"]]
  }

  /**
   * The demo query "windy London" shares no token with documents 0 and 2,
   * so BM25 scores both exactly 0; document 1 is scored without raising.
   */
  lemma DemoQueryScores(ln: real -> real)
    ensures HasToken(DemoCorpus())
    ensures var f := Bm25FeaturesOf(DemoCorpus(), ln);
      var r := Scores(Bm25Scorer(f.allIdf, f.corpusTf, f.corpusLength, f.avgDocLength, 1.5, 0.75), f.n, ["windy", "London"]);
      r.Ok? && |r.value| == 3 && r.value[0] == 0.0 && r.value[2] == 0.0
  {
    var docs := DemoCorpus();
    assert docs[0] != [];
    var f := Bm25FeaturesOf(docs, ln);
    DemoAverage(ln);
    var s := Bm25Scorer(f.allIdf, f.corpusTf, f.corpusLength, f.avgDocLength, 1.5, 0.75);
    var q: seq<Token> := ["windy", "London"];
    DemoDocumentsScored(s, q);
    ScoresShape(s, 3, q);
  }

  /** The demo documents hold 15 tokens, 5 on average. */
  lemma DemoAverage(ln: real -> real)
    requires HasToken(DemoCorpus())
    ensures var f := Bm25FeaturesOf(DemoCorpus(), ln);
      f.n == 3 && f.avgDocLength == 5.0 && f.corpusTf == TfTables(DemoCorpus()) && f.corpusLength == Lengths(DemoCorpus())
  {
    DemoTokenCount();
    assert 15 as real / 3 as real == 5.0;
  }

  lemma DemoTokenCount()
    ensures |Concat(DemoCorpus())| == 15
  {
    var docs := DemoCorpus();
    assert Concat(docs) == docs[0] + docs[1] + docs[2] by {
      assert docs[..2][..1] == [docs[0]] && docs[..2] == [docs[0], docs[1]];
      assert Concat([docs[0]]) == docs[0];
    }
  }

  lemma DemoDocumentsScored(s: Scorer, q: seq<Token>)
    requires s.Bm25Scorer? && s.avgDocLength == 5.0 && s.k1 == 1.5 && s.b == 0.75
    requires s.corpusTf == TfTables(DemoCorpus()) && s.corpusLength == Lengths(DemoCorpus())
    requires q == ["windy", "London"]
    ensures forall d: nat :: d < 3 ==> DocScore(s, d, q).Ok? && (d != 1 ==> DocScore(s, d, q) == Ok(0.0))
  {
    var docs := DemoCorpus();
    forall d: nat | d < 3 ensures DocScore(s, d, q).Ok? && (d != 1 ==> DocScore(s, d, q) == Ok(0.0)) {
      TablesAt(docs, d);
      TfCountsDocument(docs[d]);
      DemoDocumentScore(s, d, q);
    }
  }

  lemma DemoDocumentScore(s: Scorer, d: nat, q: seq<Token>)
    requires s.Bm25Scorer? && s.avgDocLength == 5.0 && s.k1 == 1.5 && s.b == 0.75
    requires d < 3 && s.InRange(d) && s.corpusLength[d] == |DemoCorpus()[d]|
    requires forall t :: t in s.corpusTf[d] <==> t in DemoCorpus()[d]
    requires forall t :: t in s.corpusTf[d] ==> s.corpusTf[d][t] >= 1
    requires q == ["windy", "London"]
    ensures DocScore(s, d, q).Ok? && (d != 1 ==> DocScore(s, d, q) == Ok(0.0))
  {
    var doc := s.Doc(d);
    SkippedTokensAddNothing(doc, q);
    KeptMembers(doc, q);
    if d != 1 {
      assert "windy" !in DemoCorpus()[d] && "London" !in DemoCorpus()[d];
    } else {
      var k := Kept(doc, q);
      assert q[..1] == ["windy"] && q[..1][..0] == [];
      assert "windy" in DemoCorpus()[1] && "London" in DemoCorpus()[1];
      assert Term(doc, "windy").Ok? && Term(doc, "London").Ok?;
      AccumulateLast(doc, q);
      AccumulateLast(doc, q[..1]);
    }
  }
}
