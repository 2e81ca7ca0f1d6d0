/**
 * Per-corpus tables shared by the three feature builders
 * (`BM25_LMIR.cal_all_feature_for_BM25_lmir`, `cal_all_feature_for_LIMR`
 * and `cal_all_feature_for_BM25`): the lengths, term-frequency tables and
 * term-probability tables of the documents, each aligned with the corpus by
 * document index.
 */
module CorpusFeatures {
  import opened Wrappers
  import opened Sums
  import opened FreqFeature

  /** `len(doc)` for every document, in corpus order. */
  function Lengths(docs: seq<seq<Token>>): (r: seq<int>)
    ensures |r| == |docs|
  {
    if docs == [] then [] else Lengths(docs[..|docs| - 1]) + [|docs[|docs| - 1]|]
  }

  /** The probability table of one document: each count over the document's length. */
  function DocTp(doc: seq<Token>): TpTable
  {
    if doc == [] then map[] else Scaled(Tf(doc), |doc| as real)
  }

  /** `cal_corpus_tp(tf)` for every document, in corpus order. */
  function TpTables(docs: seq<seq<Token>>): (r: seq<TpTable>)
    ensures |r| == |docs|
  {
    if docs == [] then [] else TpTables(docs[..|docs| - 1]) + [DocTp(docs[|docs| - 1])]
  }

  /** `sum(corpus_length)`. */
  function SumInts(s: seq<int>): int
  {
    if s == [] then 0 else SumInts(s[..|s| - 1]) + s[|s| - 1]
  }

  /** Some document has at least one token. */
  predicate HasToken(docs: seq<seq<Token>>)
  {
    exists i :: 0 <= i < |docs| && docs[i] != []
  }

  /** `cal_corpus_tp` never fails on the table of a document, and gives `DocTp`. */
  lemma DocTpIsTp(doc: seq<Token>)
    ensures Tp(Tf(doc)) == Ok(DocTp(doc))
  {
    TfCountsDocument(doc);
    if doc != [] {
      assert doc[0] in Tf(doc);
    }
  }

  /** Position `i` of each per-document list belongs to document `i`. */
  lemma {:induction false} TablesAt(docs: seq<seq<Token>>, i: int)
    requires 0 <= i < |docs|
    ensures TfTables(docs)[i] == Tf(docs[i])
    ensures TpTables(docs)[i] == DocTp(docs[i])
    ensures Lengths(docs)[i] == |docs[i]|
    decreases |docs|
  {
    if i < |docs| - 1 {
      TablesAt(docs[..|docs| - 1], i);
    }
  }

  /** The lengths add up to the number of tokens in the corpus. */
  lemma {:induction false} SumLengths(docs: seq<seq<Token>>)
    ensures SumInts(Lengths(docs)) == |Concat(docs)|
    decreases |docs|
  {
    if docs != [] {
      SumLengths(docs[..|docs| - 1]);
      assert Lengths(docs)[..|docs| - 1] == Lengths(docs[..|docs| - 1]);
    }
  }

  /** The corpus has a token exactly when its documents laid end to end are not empty. */
  lemma {:induction false} HasTokenConcat(docs: seq<seq<Token>>)
    ensures HasToken(docs) <==> Concat(docs) != []
    decreases |docs|
  {
    if docs != [] {
      var init := docs[..|docs| - 1];
      HasTokenConcat(init);
      if HasToken(init) {
        var i :| 0 <= i < |init| && init[i] != [];
        assert docs[i] != [];
      }
      if HasToken(docs) && docs[|docs| - 1] == [] {
        var i :| 0 <= i < |docs| && docs[i] != [];
        assert init[i] != [];
      }
    }
  }

  /** With no token anywhere, the sentence-wide aggregate is empty, and otherwise it is not. */
  lemma SentenceWideEmpty(docs: seq<seq<Token>>)
    ensures AllTf(TfTables(docs), true) == map[] <==> !HasToken(docs)
  {
    KeysOfTables(docs);
    HasTokenConcat(docs);
    var c := Concat(docs);
    if c != [] {
      assert c[0] in AllTf(TfTables(docs), true);
    }
  }

  /** Sentence-wide, no count exceeds the number of documents. */
  lemma SentenceWideAtMostN(docs: seq<seq<Token>>)
    ensures forall w :: w in AllTf(TfTables(docs), true) ==> AllTf(TfTables(docs), true)[w] <= |docs|
  {
    forall w | w in AllTf(TfTables(docs), true)
      ensures AllTf(TfTables(docs), true)[w] <= |docs|
    {
      SentenceWideCountsTables(TfTables(docs), w);
    }
  }

  /**
   * The corpus-wide probability table is the probability table of the
   * corpus read as one document: `cal_corpus_tp` of the token-wide aggregate
   * never fails, and its keys are the tokens of the corpus.
   */
  lemma AllTpIsDocTpOfConcat(docs: seq<seq<Token>>)
    ensures Tp(AllTf(TfTables(docs), false)) == Ok(DocTp(Concat(docs)))
  {
    TokenWideIsTfOfConcatenation(docs);
    DocTpIsTp(Concat(docs));
  }

  /** The probability table of a document has the document's tokens as keys, each with a positive value. */
  lemma DocTpPositive(doc: seq<Token>)
    ensures forall t :: t in DocTp(doc) <==> t in doc
    ensures forall t :: t in DocTp(doc) ==> DocTp(doc)[t] > 0.0
  {
    TfCountsDocument(doc);
  }
}
