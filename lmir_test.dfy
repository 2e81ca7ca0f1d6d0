/**
 * `cal_all_feature_for_LIMR` of Models/StatisticModel/source/Test/lmir.py:
 * the statistics the three LMIR smoothings need.  Unlike the BM25 builders it
 * has no idf and no average length, so it never divides by the number of
 * documents and an empty corpus gives empty tables.
 */
module LmirTest {
  import opened Wrappers
  import opened Sums
  import opened FreqFeature
  import opened CorpusFeatures

  /** The five values `cal_all_feature_for_LIMR` returns. */
  datatype LmirFeatures = LmirFeatures(
    n: int,
    allTp: TpTable,
    corpusTf: seq<TfTable>,
    corpusTp: seq<TpTable>,
    corpusLength: seq<int>)

  /**
   * The loop appends each document's length, tf table and tp table; then the
   * token-wide aggregate is turned into probabilities.  The result is the
   * per-document tables aligned with the corpus, and the probability table of
   * the corpus read as one document.
   */
  method CalAllFeatureForLmir(corpora: seq<seq<Token>>) returns (f: LmirFeatures)
    ensures f.n == |corpora|
    ensures f.corpusTf == TfTables(corpora)
    ensures f.corpusTp == TpTables(corpora)
    ensures f.corpusLength == Lengths(corpora)
    ensures f.allTp == DocTp(Concat(corpora))
  {
    var n := |corpora|;
    var corpusTf: seq<TfTable> := [];
    var corpusTp: seq<TpTable> := [];
    var corpusLength: seq<int> := [];
    for i := 0 to |corpora|
      invariant corpusTf == TfTables(corpora[..i])
      invariant corpusTp == TpTables(corpora[..i])
      invariant corpusLength == Lengths(corpora[..i])
    {
      var doc := corpora[i];
      assert corpora[..i + 1][..i] == corpora[..i];
      var tf := CalCorpusTf(doc);
      corpusLength := corpusLength + [|doc|];
      corpusTf := corpusTf + [tf];
      var tp := CalCorpusTp(tf);
      DocTpIsTp(doc);
      corpusTp := corpusTp + [tp.value];
    }
    assert corpora[..|corpora|] == corpora;

    var allTf := CalAllCorpusTf(corpusTf, false);
    var allTp := CalCorpusTp(allTf);
    AllTpIsDocTpOfConcat(corpora);
    f := LmirFeatures(n, allTp.value, corpusTf, corpusTp, corpusLength);
  }

  /**
   * The tables are aligned by document: entry `i` of each list belongs to
   * document `i`, its length is the sum of its counts, and `all_tp` has
   * exactly the corpus's tokens as keys.
   */
  lemma LmirFeaturesAligned(corpora: seq<seq<Token>>, i: int)
    requires 0 <= i < |corpora|
    ensures Lengths(corpora)[i] == |corpora[i]| == SumNat(TfTables(corpora)[i])
    ensures Tp(TfTables(corpora)[i]) == Ok(TpTables(corpora)[i])
    ensures forall t :: t in DocTp(Concat(corpora)) <==> t in Concat(corpora)
  {
    TablesAt(corpora, i);
    TfCountsDocument(corpora[i]);
    DocTpIsTp(corpora[i]);
    DocTpPositive(Concat(corpora));
  }
}
