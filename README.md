# Image retrieval framework: statistical text retrieval, in Dafny

This project models the text-retrieval core of an image-retrieval framework.
An image is found through the text of its annotations. The core has these parts:

- **Statistics of a tokenised corpus** (`Models/StatisticModel/source/freq_feature.py`): term frequencies per document and for the whole corpus, term probabilities, and the BM25 idf with its epsilon floor.
- **The four scorers**: BM25 and three LMIR smoothings, namely Jelinek-Mercer, Dirichlet and absolute discount.
- **The `BM25_LMIR` engine** (`Models/Bm25LMIR/source/lmir_bm25.py`): it builds all the features at once. Two older feature builders are modelled beside it (`Test/bm25.py`, `Test/lmir.py`).
- **The fusion model** (`Models/Bm25LMIR/lmirBm25Model.py`): it z-scores the four results and adds them with weights. It works for one query or for a list of weighted word lists.
- **The `StatisticModel` API** (`Models/StatisticModel/API/LanguageModelAPI.py`): it min-max normalises each scorer.
- **The Arch dataset index** (`Dataloader/Arch/arch.py`): annotations, images and projects, indexed by id and by label.
- **Three search facades over Arch.**
  - `Models/Bm25LMIR/archLmirBm25Model.py` and `TestModel/archLmirBm25Model.py` tokenise the annotation texts, score a query, rank by score and map the ranking back to annotations and images.
  - `Models/MixModel/archMixModel.py` mixes the statistical score with a feature-model score.
- **Word2Vec text preparation** (`Models/Word2Vec/API/Word2VecModel.py`): lower-casing, stop-word removal and the in-vocabulary filter. Its `standarlization` (`Models/Word2Vec/API/Word2VecModel.py:153-157`) is the same min-max normalisation as the statistical API's, so `Vectors.MinMax` and `Vectors.MinMaxSpread` model it too.
- **Two keyword matchers**: exact keyword search (`Models/StrictlyMatch/API/strictlyMatch.py`) and edit-distance search (`Models/KeywordModel`).
- **Two text filters** from `Preprocess/Filter/source/filterTemplate.py`.

Scores are `real`. The logarithm and the square root are passed in as functions (`ln`, `sqrt`).
Every Python exception the core can raise becomes an `Err` of `Result`. These are division by zero, a math domain error, an index or key error, `NotImplementedError` and numpy's `ValueError`.
Each loop of the source is a `method` with loop invariants. It is proved equal to a specification function, and the properties are proved as lemmas about that function.
Dictionaries are `map`s. Python's list order of dictionary keys is not modelled where only the contents matter.

## Model

| member | source | states |
|---|---|---|
| FreqFeature.CalCorpusTf | Models/StatisticModel/source/freq_feature.py:11-39 | `cal_corpus_tf` returns the count table `Tf(corpus)`. |
| FreqFeature.TfCountsDocument | Models/StatisticModel/source/freq_feature.py:11-39 | The table's keys are exactly the document's tokens. Every count is at least 1, and the counts add up to the document's length. |
| FreqFeature.CalAllCorpusTf | Models/StatisticModel/source/freq_feature.py:42-84 | `cal_all_corpus_tf` returns `AllTf(tfs, sentence_wide)`: for each key, the sum over the tables of its count, or of 1 per table when sentence-wide. |
| FreqFeature.TokenWideIsTfOfConcatenation | Models/StatisticModel/source/freq_feature.py:42-84 | Token-wide merging of the documents' tables equals the count table of all the documents concatenated. |
| FreqFeature.AggregateCountsOccurrences | Models/StatisticModel/source/freq_feature.py:78-83 | The token-wide total of a key is its number of occurrences in the corpus. |
| FreqFeature.SentenceWideCountsTables | Models/StatisticModel/source/freq_feature.py:80-81 | A sentence-wide total is between 1 and the number of tables. |
| FreqFeature.AggregateBound | Models/StatisticModel/source/freq_feature.py:80-81 | A sentence-wide total is at most the number of tables. It is positive exactly when some table holds the key. |
| FreqFeature.KeysOfTables | Models/StatisticModel/source/freq_feature.py:78-79 | The merged keys are exactly the corpus's tokens. |
| FreqFeature.AggregateZeroOutside | Models/StatisticModel/source/freq_feature.py:78-83 | A key no table holds totals 0. |
| FreqFeature.TokenWideExample | Models/StatisticModel/source/freq_feature.py:52-65 | The docstring example merges token-wide to cat 3, dog 6, wolf 1. |
| FreqFeature.SentenceWideExample | Models/StatisticModel/source/freq_feature.py:52-71 | The same example merges sentence-wide to cat 3, dog 2, wolf 1. |
| FreqFeature.ExampleKeys | Models/StatisticModel/source/freq_feature.py:52-54 | The example's keys are cat, dog and wolf. |
| FreqFeature.ExampleAggregates | Models/StatisticModel/source/freq_feature.py:78-83 | On the example, a total is the sum of the three tables' contributions. |
| FreqFeature.CalCorpusTp | Models/StatisticModel/source/freq_feature.py:87-117 | `cal_corpus_tp` returns `Tp(tf)`: each count divided by the total, or `ZeroDivisionError` when the total is 0. |
| FreqFeature.TpSumsToOne | Models/StatisticModel/source/freq_feature.py:87-117 | For a non-empty table with a positive total, the probabilities add up to 1. |
| FreqFeature.TpOfDocument | Models/StatisticModel/source/freq_feature.py:87-117 | For a document's table, the probabilities exist, keep the keys, and equal occurrences divided by the length. |
| FreqFeature.CalIdfBm25 | Models/StatisticModel/source/freq_feature.py:122-172 | `cal_idf_BM25` returns `Idf(N, all_tf, epsilon)`. That is a math domain error when some `N - freq + 0.5 <= 0` and `ZeroDivisionError` for an empty table. Otherwise it is the raw idfs with every negative one replaced by epsilon times their mean. |
| FreqFeature.RawIdfPass | Models/StatisticModel/source/freq_feature.py:155-165 | The first loop succeeds exactly when no logarithm argument is out of domain. It then yields the raw idfs, their sum, and exactly the words whose idf is negative. |
| FreqFeature.ReplaceAll | Models/StatisticModel/source/freq_feature.py:170-171 | The second loop sets each listed word to `eps` and leaves every other word alone. |
| FreqFeature.ReplacedExactlyNegatives | Models/StatisticModel/source/freq_feature.py:159-171 | Replacing exactly the negative words gives `ReplaceNegatives(raw, eps)`. |
| FreqFeature.IdfWhenDefined | Models/StatisticModel/source/freq_feature.py:160-172 | Without a domain error and for a non-empty table, the result is the raw idfs with the negatives floored at `epsilon * mean`. |
| FreqFeature.MeanBetween | Models/StatisticModel/source/freq_feature.py:168 | `average_idf` lies between the least and the greatest raw idf. |
| FreqFeature.FloorBetween | Models/StatisticModel/source/freq_feature.py:168-169 | With `epsilon >= 0`, the replacement value `eps` lies between `epsilon` times the least raw idf and `epsilon` times the greatest. |
| FreqFeature.FloorNonNegative | Models/StatisticModel/source/freq_feature.py:168-169 | With `epsilon >= 0` and a non-negative sum, the floor is non-negative. |
| FreqFeature.IdfReplacesNegatives | Models/StatisticModel/source/freq_feature.py:126-127 | If no raw idf is negative, the result is the raw idfs. With a non-negative floor, no idf is negative. |
| FreqFeature.IdfFailsOnlyWhenEmpty | Models/StatisticModel/source/freq_feature.py:161-168 | When no frequency exceeds `N` (as in a sentence-wide table), the idf fails exactly for the empty table, with `ZeroDivisionError`. |
| Scoring.Bm25 | Models/StatisticModel/source/freq_feature.py:372-433 | `BM25` returns `Scores` of the BM25 scorer over `N` documents, or the first error. |
| Scoring.Bm25Document | Models/StatisticModel/source/freq_feature.py:421-431 | The inner loop sums the BM25 term of each query token that occurs in the document. |
| Scoring.JelinekMercer | Models/StatisticModel/source/freq_feature.py:182-237 | `jelinek_mercer` returns `Scores` of the JM scorer. |
| Scoring.JelinekMercerDocument | Models/StatisticModel/source/freq_feature.py:225-235 | The inner loop subtracts `log((1-lamb)*p_ml + lamb*p)` for each query token that `all_tp` holds. |
| Scoring.Dirichlet | Models/StatisticModel/source/freq_feature.py:239-298 | `dirichlet` returns `Scores` of the Dirichlet scorer. |
| Scoring.DirichletDocument | Models/StatisticModel/source/freq_feature.py:287-296 | The inner loop subtracts `log((tf + mu*p) / (doc_len + mu))` for each query token that `all_tp` holds. |
| Scoring.AbsoluteDiscount | Models/StatisticModel/source/freq_feature.py:300-362 | `absolute_discount` returns `Scores` of the absolute-discount scorer. |
| Scoring.AbsoluteDiscountDocument | Models/StatisticModel/source/freq_feature.py:347-360 | The inner loop subtracts the absolute-discount logarithm for each query token that `all_tp` holds. |
| Scoring.ScoresShape | Models/StatisticModel/source/freq_feature.py:217-220 | Scoring succeeds exactly when every document's score does. It then gives `N` scores, one per document in order (none for a negative `N`). |
| Scoring.ScoresFirstError | Models/StatisticModel/source/freq_feature.py:223-237 | The error raised is the one of the first failing document. |
| Scoring.ScoresPrefixError | Models/StatisticModel/source/freq_feature.py:223-237 | Once a prefix of the documents fails, scoring more documents fails with the same error. |
| Scoring.TermFailure | Models/StatisticModel/source/freq_feature.py:227-233 | A document's score fails with the error of its first failing term. |
| Scoring.AccumulatePrefixError | Models/StatisticModel/source/freq_feature.py:227-233 | A failing prefix of the query makes the whole query fail the same way. |
| Scoring.AccumulateSnoc | Models/StatisticModel/source/freq_feature.py:227-233 | One more query token adds its term, or raises its error. |
| Scoring.AccumulateAppend | Models/StatisticModel/source/freq_feature.py:227-233 | The score of a concatenated query is the sum of the two scores, or the first error. |
| Scoring.RepeatedQueryDoubles | Models/StatisticModel/source/freq_feature.py:227-233 | Repeating a query doubles each score: duplicate query tokens count every time. |
| Scoring.KeptMembers | Models/StatisticModel/source/freq_feature.py:228-229 | The tokens that contribute are exactly the query tokens the scorer does not skip. |
| Scoring.SkippedTokensAddNothing | Models/StatisticModel/source/freq_feature.py:228-229 | Skipped tokens change neither the score nor the error. |
| Scoring.AccumulateLast | Models/StatisticModel/source/freq_feature.py:227-233 | A score is the score of the query without its last token, combined with that token's term. |
| Scoring.AccumulateSkip | Models/StatisticModel/source/freq_feature.py:228-229 | A skipped last token adds nothing. |
| Scoring.AllTermsFail | Models/StatisticModel/source/freq_feature.py:227-233 | If every term raises the same error, the score raises it too. |
| Scoring.NothingKeptScoresZero | Models/StatisticModel/source/freq_feature.py:190-192 | When every query token is skipped in every document, every score is 0. |
| Scoring.Bm25NoSharedTokenScoresZero | Models/StatisticModel/source/freq_feature.py:425-426 | A query sharing no token with any document scores 0 everywhere under BM25. |
| Scoring.Bm25UnknownIdfTerm | Models/StatisticModel/source/freq_feature.py:425-429 | A document token with no entry in `all_idf` adds 0, because `all_idf.get(token, 0)` reads 0, whenever its normaliser is defined. |
| Scoring.ZeroTermsScoreZero | Models/StatisticModel/source/freq_feature.py:424-431 | If every term of a query is 0 or raises, a document that scores without raising scores exactly 0. |
| Scoring.Bm25UnknownQueryScoresZero | Models/StatisticModel/source/freq_feature.py:420-433 | Under BM25, a query none of whose tokens is in `all_idf` scores 0 for every document whenever the scores are defined. |
| Scoring.LmirUnknownQueryScoresZero | Models/StatisticModel/source/freq_feature.py:228-229 | A query with no token of the corpus table scores 0 everywhere under each LMIR scorer. |
| Scoring.EmptyDocumentFailsAbsoluteDiscount | Models/StatisticModel/source/freq_feature.py:355-358 | An empty document (`doc_len` 0) makes absolute discount raise `ZeroDivisionError` as soon as a query token is in the corpus table. |
| Scoring.ZeroAverageFailsBm25 | Models/StatisticModel/source/freq_feature.py:429-430 | An average document length of 0 makes BM25 raise `ZeroDivisionError` as soon as a query token is in the document. |
| CorpusFeatures.DocTpIsTp | Models/StatisticModel/source/freq_feature.py:87-117 | A document's probability table never fails, not even for an empty document: `Tp(Tf(doc))` is `Ok(DocTp(doc))`. |
| CorpusFeatures.DocTpPositive | Models/StatisticModel/source/freq_feature.py:110-116 | A document's probability table has exactly its tokens as keys, each with a positive probability. |
| CorpusFeatures.TablesAt | Models/Bm25LMIR/source/lmir_bm25.py:101-105 | The i-th count table, probability table and length all belong to the i-th document. |
| CorpusFeatures.SumLengths | Models/Bm25LMIR/source/lmir_bm25.py:116 | The lengths add up to the total number of tokens. |
| CorpusFeatures.HasTokenConcat | Models/Bm25LMIR/source/lmir_bm25.py:108-113 | Some document has a token exactly when the concatenated corpus is non-empty. |
| CorpusFeatures.SentenceWideEmpty | Models/Bm25LMIR/source/lmir_bm25.py:109 | The sentence-wide table is empty exactly when no document has a token. |
| CorpusFeatures.SentenceWideAtMostN | Models/Bm25LMIR/source/lmir_bm25.py:109-113 | No sentence-wide count exceeds `N`, so no idf logarithm is out of domain. |
| CorpusFeatures.AllTpIsDocTpOfConcat | Models/Bm25LMIR/source/lmir_bm25.py:108-112 | `all_tp` is the probability table of all documents concatenated. |
| LmirBm25.CalAllFeatureForBm25Lmir | Models/Bm25LMIR/source/lmir_bm25.py:55-118 | The features are built exactly when some document has a token. Otherwise the idf's `len(idf)` raises `ZeroDivisionError`, and so does the average length for an empty corpus. On success the result is `FeaturesOf(corpora)`. |
| LmirBm25.FeaturesAligned | Models/Bm25LMIR/source/lmir_bm25.py:89-105 | `N` is the number of documents. Each document has its count table, probability table and length at its own position, and the counts add up to the length. |
| LmirBm25.FeaturesAllTp | Models/Bm25LMIR/source/lmir_bm25.py:108-112 | `all_tp` covers exactly the corpus's tokens, each with a positive probability. |
| LmirBm25.FeaturesAllIdf | Models/Bm25LMIR/source/lmir_bm25.py:109-113 | `all_idf` is the sentence-wide raw idf of exactly the corpus's tokens, with negatives floored at `epsilon` times the mean. |
| LmirBm25.FeaturesAverage | Models/Bm25LMIR/source/lmir_bm25.py:115-116 | `avg_doc_length` is `sum(corpus_length) / N` with `N > 0`, and that sum is the total number of tokens. |
| LmirBm25.Bm25Lmir.constructor | Models/Bm25LMIR/source/lmir_bm25.py:35-50 | Stores the hyperparameters and the seven features. |
| LmirBm25.Bm25Lmir.Bm25 | Models/Bm25LMIR/source/lmir_bm25.py:120-129 | The wrapper scores with the stored idf, tables, lengths, average, `k1` and `b`. |
| LmirBm25.Bm25Lmir.JelinekMercer | Models/Bm25LMIR/source/lmir_bm25.py:131-137 | The wrapper scores with the stored `all_tp`, `corpus_tp` and `lamb`. |
| LmirBm25.Bm25Lmir.Dirichlet | Models/Bm25LMIR/source/lmir_bm25.py:139-146 | The wrapper scores with the stored `all_tp`, counts, lengths and `mu`. |
| LmirBm25.Bm25Lmir.AbsoluteDiscount | Models/Bm25LMIR/source/lmir_bm25.py:148-155 | The wrapper scores with the stored `all_tp`, counts, lengths and `delta`. |
| LmirBm25.BuiltModelHasDocuments | Models/Bm25LMIR/source/lmir_bm25.py:89-116 | A built engine has `N` equal to the number of documents, and `N > 0`. |
| LmirBm25.NewBm25Lmir | Models/Bm25LMIR/source/lmir_bm25.py:6-52 | `BM25_LMIR(corpora, ...)` succeeds exactly when some document has a token, and otherwise raises `ZeroDivisionError`. On success it is built from `corpora` with the given hyperparameters. |
| Bm25Test.CalAllFeatureForBm25 | Models/Bm25LMIR/source/Test/bm25.py:3-52 | The BM25-only builder succeeds exactly when some document has a token, and otherwise raises `ZeroDivisionError`. |
| Bm25Test.DemoQueryScores | Models/Bm25LMIR/source/Test/bm25.py:54-82 | The demo query "windy London" gives three scores, and the first and third are 0. The source's comment expects `[0, 0.937..., 0]`. |
| Bm25Test.DemoDocumentScore | Models/Bm25LMIR/source/Test/bm25.py:74-82 | The demo documents without "windy" or "London" score 0, and every demo document's score is defined. |
| LmirTest.CalAllFeatureForLmir | Models/StatisticModel/source/Test/lmir.py:4-50 | The LMIR-only builder never fails. It gives `N`, each document's tables and length, and `all_tp` as the probability table of the concatenation. |
| LmirTest.LmirFeaturesAligned | Models/StatisticModel/source/Test/lmir.py:39-48 | Each document's length is the sum of its counts, and its probability table is derived from its count table. `all_tp` covers exactly the corpus's tokens. |
| LmirBm25Fusion.ZScoreCentred | Models/Bm25LMIR/lmirBm25Model.py:46-49 | `standardization` with a non-zero deviation gives values that add up to 0. |
| LmirBm25Fusion.ZScoreMonotone | Models/Bm25LMIR/lmirBm25Model.py:46-49 | With a positive deviation, `standardization` keeps the order of any two entries. |
| LmirBm25Fusion.ZScoreConstant | Models/Bm25LMIR/lmirBm25Model.py:49 | A constant array has deviation 0 and comes back unchanged. |
| LmirBm25Fusion.LmirBm25Model.constructor | Models/Bm25LMIR/lmirBm25Model.py:35-44 | Stores the engine and `modelWeight`. |
| LmirBm25Fusion.LmirBm25Model.Forward | Models/Bm25LMIR/lmirBm25Model.py:51-95 | `forward` succeeds exactly when all four scorers succeed and there are at least four model weights. Otherwise it raises the first scorer's error in the order BM25, JM, DIR, ABS, or `IndexError` for the weights. All five arrays hold one value per document. |
| LmirBm25Fusion.LmirBm25Model.ForwardOrders | Models/Bm25LMIR/lmirBm25Model.py:65-79 | When a scorer's deviation is positive, its normalised BM25 array keeps the raw order. The three LMIR arrays reverse it, because a smaller LMIR score is better. |
| LmirBm25Fusion.LmirBm25Model.ForwardAll | Models/Bm25LMIR/lmirBm25Model.py:81-86 | "ALL" keeps the order of the weighted sum of the four arrays. Unless that sum is constant, its values add up to 0. |
| LmirBm25Fusion.LmirBm25Model.PerWordShaped | Models/Bm25LMIR/lmirBm25Model.py:123-125 | When every word's `forward` succeeds, every per-word result has one value per document. |
| LmirBm25Fusion.LmirBm25Model.ForwardEachWord | Models/Bm25LMIR/lmirBm25Model.py:120-125 | The first loop of `forwardWords` collects `forward([X[i]])` for every word, stopping at the first error. |
| LmirBm25Fusion.LmirBm25Model.ForwardWords | Models/Bm25LMIR/lmirBm25Model.py:97-153 | `forwardWords` returns `ForwardWordsOf(X, weight)`. That propagates a word's error. It raises `IndexError` when there are fewer weights than words. Otherwise it gives, per model, the weight-summed arrays and "ALL" as their model-weighted sum, which is not standardised. With no words every value is the scalar 0, or `IndexError` when there are fewer than four model weights. |
| LmirBm25Fusion.LmirBm25Model.ForwardWordsSingle | Models/Bm25LMIR/lmirBm25Model.py:138-151 | One word with weight 1 gives that word's four arrays, and as "ALL" their model-weighted sum without the final standardisation `forward` applies. |
| LmirBm25Fusion.LmirBm25Model.ForwardWordsShortWeights | Models/Bm25LMIR/lmirBm25Model.py:132-133 | More words than weights raise `IndexError`. |
| LmirBm25Fusion.LmirBm25Model.ForwardWordsExtraWeights | Models/Bm25LMIR/lmirBm25Model.py:132-133 | Weights beyond the number of words are ignored. |
| LmirBm25Fusion.WeightedSum | Models/Bm25LMIR/lmirBm25Model.py:127-135 | `weightedSum` raises `IndexError` exactly when there are more rows than weights. It gives the scalar 0 for no rows, and otherwise the sum of `weight[k]` times row k's array. |
| LmirBm25Fusion.WeightedRowsPrefix | Models/Bm25LMIR/lmirBm25Model.py:131-135 | The weighted sum reads only the first weights, one per row. |
| LmirBm25Fusion.CollectAt | Models/Bm25LMIR/lmirBm25Model.py:123-125 | When collection succeeds, entry k is word k's result. |
| LmirBm25Fusion.CollectError | Models/Bm25LMIR/lmirBm25Model.py:123-125 | An error in a prefix of the words is the error of the whole loop. |
| LmirBm25Fusion.NewLmirBm25Model | Models/Bm25LMIR/lmirBm25Model.py:21-44 | `lmirBm25Model(corpora, ...)` succeeds exactly when some document has a token, and otherwise raises `ZeroDivisionError`. It keeps the weights and hyperparameters. |
| LanguageModelApi.Standarlization | Models/StatisticModel/API/LanguageModelAPI.py:32-44 | `standarlization` fails with numpy's `ValueError` exactly for an empty array, passes on a scorer's error, and keeps the length. |
| LanguageModelApi.NegatedStandarlization | Models/StatisticModel/API/LanguageModelAPI.py:74-75 | `standarlization(-raw)` has the same failure cases and keeps the length. |
| LanguageModelApi.NegConstant | Models/StatisticModel/API/LanguageModelAPI.py:43 | Negation keeps an array constant or not constant, so it takes the same branch of the guard. |
| LanguageModelApi.StandarlizationRanks | Models/StatisticModel/API/LanguageModelAPI.py:40-44 | For a non-constant array, every result lies in [0, 1] and the order is kept. A result is 1 exactly for the highest scores. |
| LanguageModelApi.NegatedStandarlizationRanks | Models/StatisticModel/API/LanguageModelAPI.py:74-75 | For a non-constant array of LMIR scores, every result lies in [0, 1] and the order is reversed. A result is 1 exactly for the lowest raw scores. |
| LanguageModelApi.StatisticModel.constructor | Models/StatisticModel/API/LanguageModelAPI.py:30 | Stores the engine. |
| LanguageModelApi.StatisticModel.BestMatch25 | Models/StatisticModel/API/LanguageModelAPI.py:46-60 | `bestMatch25` succeeds exactly when BM25 does and there is a document. It then gives one value per document. |
| LanguageModelApi.StatisticModel.JelinekMercer | Models/StatisticModel/API/LanguageModelAPI.py:62-76 | `jelinekMercer` succeeds exactly when JM does and there is a document. It then gives one value per document. |
| LanguageModelApi.StatisticModel.Dirichlet | Models/StatisticModel/API/LanguageModelAPI.py:78-92 | `dirichlet` succeeds exactly when Dirichlet does and there is a document. It then gives one value per document. |
| LanguageModelApi.StatisticModel.AbsoluteDiscount | Models/StatisticModel/API/LanguageModelAPI.py:94-108 | `absoluteDiscount` succeeds exactly when absolute discount does and there is a document. It then gives one value per document. |
| LanguageModelApi.NewStatisticModel | Models/StatisticModel/API/LanguageModelAPI.py:6-30 | `StatisticModel(corpora)` succeeds exactly when some document has a token, with the default hyperparameters, and otherwise raises `ZeroDivisionError`. |
| Vectors.MinIsLeast | Models/StatisticModel/API/LanguageModelAPI.py:41 | `np.min` is an entry of the array, and no entry lies below it. |
| Vectors.MaxIsGreatest | Models/StatisticModel/API/LanguageModelAPI.py:42 | `np.max` is an entry of the array, and no entry lies above it. |
| Vectors.MinMax | Models/StatisticModel/API/LanguageModelAPI.py:40-44 | The guarded min-max normalisation raises `ValueError` exactly for an empty array and otherwise keeps the length. |
| Vectors.ConstantIffNoSpread | Models/StatisticModel/API/LanguageModelAPI.py:43 | The spread `max - min` is 0 exactly when every entry is equal. |
| Vectors.MinMaxConstant | Models/StatisticModel/API/LanguageModelAPI.py:43 | A constant array comes back unchanged. |
| Vectors.MinMaxSpread | Models/StatisticModel/API/LanguageModelAPI.py:43 | For a non-constant array, results lie in [0, 1] and the order is kept. The minimum entries map to exactly 0 and the maximum entries to exactly 1. |
| Vectors.RescaledAt | Models/StatisticModel/API/LanguageModelAPI.py:43 | `(x - min) / (max - min)` lies in [0, 1]. It is 0 exactly at the minimum and 1 exactly at the maximum. |
| Vectors.RescaledMonotone | Models/StatisticModel/API/LanguageModelAPI.py:43 | Rescaling keeps the order. |
| Vectors.MinMaxUnguarded | Models/Bm25LMIR/archLmirBm25Model.py:35-36 | The unguarded normalisation raises `ValueError` exactly for an empty array and otherwise keeps the length. |
| Vectors.UnguardedAgreesWithGuarded | Models/Bm25LMIR/archLmirBm25Model.py:35-36 | Without the guard, the result is all NaN exactly for a constant array, and otherwise it equals the guarded result. |
| ArchDataset.LastLabels | Dataloader/Arch/arch.py:88-100 | `extractLastLabel` of `None` is empty. Otherwise each label adds at most four entries, and a missing level raises `KeyError`. |
| ArchDataset.ExtractLastLabel | Dataloader/Arch/arch.py:88-100 | The nested loop returns `LastLabels(labels)`. |
| ArchDataset.LabelEntries | Dataloader/Arch/arch.py:92-99 | Levels 1 to i-1 add at most i-1 entries. A missing key raises `KeyError`. |
| ArchDataset.LabelsPrefix | Dataloader/Arch/arch.py:91-99 | The first k labels add at most 4k entries, or raise `KeyError`. |
| ArchDataset.LabelEntriesError | Dataloader/Arch/arch.py:95-96 | A `KeyError` at some level is a `KeyError` for the whole label. |
| ArchDataset.LabelsPrefixError | Dataloader/Arch/arch.py:91-96 | A label raising `KeyError` makes every longer list raise it. |
| ArchDataset.LabelsPrefixOk | Dataloader/Arch/arch.py:91-96 | The first k labels are read without error exactly when each has all five levels. |
| ArchDataset.LabelEntriesOk | Dataloader/Arch/arch.py:92-96 | One label is read without error exactly when it has keys "label1" to "label5". |
| ArchDataset.LabelChain | Dataloader/Arch/arch.py:97-98 | A hierarchy set down to level k < 5 and null below yields exactly its level-k label. |
| ArchDataset.LabelAllSet | Dataloader/Arch/arch.py:92-98 | A hierarchy with all five levels set yields nothing, because the loop stops at level 4. |
| ArchDataset.LabelSeveralEntries | Dataloader/Arch/arch.py:97-99 | A hierarchy with gaps yields every level that is followed by a null. |
| ArchDataset.Append | Dataloader/Arch/arch.py:57 | `defaultdict(list)[k].append(v)` adds `v` to the end of `k`'s list and leaves the other keys alone. |
| ArchDataset.IndexByLastWins | Dataloader/Arch/arch.py:58 | `anns` has exactly the ids of the list as keys. Each maps to the last record with that id. |
| ArchDataset.KeyOrderValid | Dataloader/Arch/arch.py:58 | The insertion order of `anns` lists each key once, and exactly the keys. |
| ArchDataset.GroupByFilter | Dataloader/Arch/arch.py:57 | `imgToAnns[id]` lists, in order, the records with that image id. Keys are exactly the ids that occur. |
| ArchDataset.AppendAllCount | Dataloader/Arch/arch.py:59-60 | Appending a value under each label of a list adds it to a label's list once per occurrence of the label. |
| ArchDataset.LabelIndexContents | Dataloader/Arch/arch.py:56-60 | The category table is built exactly when every record's labels can be read, and otherwise raises `KeyError`. Each label's list holds the records carrying that label, in order. |
| ArchDataset.LabelIndexPrefixError | Dataloader/Arch/arch.py:56-60 | The first unreadable label aborts the category table. |
| ArchDataset.IndexOfOk | Dataloader/Arch/arch.py:50-86 | Over records that carry their id and label fields, `createIndex` fails, with `KeyError`, exactly when some annotation's or project's labels are incomplete. A record missing one of those keys is not modelled (see "Left out"). |
| ArchDataset.IndexValid | Dataloader/Arch/arch.py:58 | After indexing, the annotation order lists each key of `anns` once. |
| ArchDataset.Arch.constructor | Dataloader/Arch/arch.py:39-40 | `Arch()` without a file has an empty dataset and empty tables. |
| ArchDataset.BuildIndex | Dataloader/Arch/arch.py:50-86 | The loops over annotations, images and projects compute exactly `IndexOf(dataset)`, and the only error is `KeyError` from an incomplete label. |
| ArchDataset.Arch.CreateIndex | Dataloader/Arch/arch.py:50-86 | `createIndex` keeps the dataset and replaces the tables by `IndexOf(dataset)`. On `KeyError` the tables are unchanged, because they are assigned only at the end. After a successful call `annOrder` lists each key of `anns` once, and a call never breaks that invariant. |
| ArchDataset.IndexAnnotations | Dataloader/Arch/arch.py:55-60 | The annotation loop builds `anns`, its order, `imgToAnns` and `imgCatToImgs`, or raises `KeyError`. |
| ArchDataset.IndexImages | Dataloader/Arch/arch.py:62-64 | The image loop builds `imgs` keyed by image id. |
| ArchDataset.IndexProjects | Dataloader/Arch/arch.py:66-70 | The project loop builds `pojs` and `pojCatToPojs`, or raises `KeyError`. |
| ArchDataset.LinkProjects | Dataloader/Arch/arch.py:72-74 | The linking loop groups image ids by project id. |
| ArchDataset.AddLabels | Dataloader/Arch/arch.py:59-60 | The inner loop appends the value under each extracted label. |
| ArchDataset.NewArch | Dataloader/Arch/arch.py:28-48 | `Arch(annotationFile)` with a loaded dataset succeeds exactly when `createIndex` does (else `KeyError`), and its tables are `IndexOf(dataset)`. |
| Ranking.BuildLists | Models/Bm25LMIR/archLmirBm25Model.py:21-28 | The loop over `anns.items()` gives `annIdList` in the dict's order, each id once. Entry i of the token lists and of the text lists belongs to annotation `annIdList[i]`. |
| Ranking.CutAll | Models/Bm25LMIR/archLmirBm25Model.py:45-49 | The query strings' tokens, concatenated in order. |
| Ranking.TokensAppend | Models/Bm25LMIR/archLmirBm25Model.py:46-48 | Tokenising a concatenation of string lists concatenates their tokens. |
| Ranking.ArgsortDescending | Models/Bm25LMIR/archLmirBm25Model.py:54 | `np.argsort(all)[::-1]` is a permutation of the positions along which the scores do not increase. |
| Ranking.InsertRanked | Models/Bm25LMIR/archLmirBm25Model.py:54 | Inserting a new position after every position with a score at least as high keeps the prefix ranked. |
| Ranking.AlongRanking | Models/Bm25LMIR/archLmirBm25Model.py:54-55 | The scores along the ranking (`np.sort(all)[::-1]`) do not increase, are scores of `all`, and start with the maximum. |
| Ranking.AlongConstant | Models/Bm25LMIR/archLmirBm25Model.py:55 | The sorted scores are constant exactly when the scores are. |
| Ranking.RankedScoresNormalized | TestModel/archLmirBm25Model.py:35-38 | Normalising the sorted scores leaves constant scores as they are. Otherwise the results do not increase, lie in [0, 1], start at 1 and end at 0. |
| Ranking.MapByIndex | Models/Bm25LMIR/archLmirBm25Model.py:57-64 | The result loop returns `MappedPrefix(index)`, the texts, annotation ids and image ids by rank, or the first lookup error. |
| Ranking.MappedPrefix | Models/Bm25LMIR/archLmirBm25Model.py:61-64 | Mapping the first k ranks gives three lists of length k. |
| Ranking.MappedPrefixError | Models/Bm25LMIR/archLmirBm25Model.py:61-64 | A lookup error at one rank is the error of the whole loop. |
| Ranking.MappedPrefixErrors | Models/Bm25LMIR/archLmirBm25Model.py:62-64 | A failing lookup is an `IndexError` (list position) or a `KeyError` (`anns`). |
| Ranking.MappedAligned | Models/Bm25LMIR/archLmirBm25Model.py:61-64 | With aligned lists and valid positions, no lookup fails. Rank j gives the annotation at position `index[j]`, its cleaned text and its image id. |
| Ranking.RankGuarded | TestModel/archLmirBm25Model.py:55-68 | Ranking with the guarded normalisation raises `ValueError` for no scores. On success it gives a descending ranking, the normalised sorted scores and the by-rank lookups. With aligned lists of matching length it always succeeds. |
| Ranking.RankUnguarded | Models/Bm25LMIR/archLmirBm25Model.py:53-66 | The same, with the unguarded normalisation of `standardization` at lines 35-36. |
| ArchLmirBm25Search.ArchLmirBm25Model.constructor | Models/Bm25LMIR/archLmirBm25Model.py:18-33 | Stores the dataset, the lists, the weights and the fusion model. |
| ArchLmirBm25Search.ArchLmirBm25Model.ValidShape | Models/Bm25LMIR/archLmirBm25Model.py:25-33 | In a built model there is one score per annotation, there is at least one annotation, and the lists are aligned with `anns`. |
| ArchLmirBm25Search.ArchLmirBm25Model.SearchSentence | Models/Bm25LMIR/archLmirBm25Model.py:38-66 | `searchSentence` propagates the error of `forward` on the concatenated tokens. Otherwise it returns a descending ranking of "ALL", the unguarded normalisation of the sorted scores (all NaN when they are constant), and the texts, annotation ids and image ids by rank. It always succeeds on a built model when `forward` does. |
| ArchLmirBm25Search.ArchLmirBm25Model.SearchWords | Models/Bm25LMIR/archLmirBm25Model.py:68-97 | `searchWords` propagates the error of `forwardWords`. With no words it raises `IndexError` (argsort of a 0-d scalar). Otherwise it returns the same ranking result over the summed "ALL". |
| ArchLmirBm25Search.ListsHaveToken | Models/Bm25LMIR/archLmirBm25Model.py:25-33 | Some document of `corporaList` has a token exactly when some annotation has a non-empty `cutConcateText`. |
| ArchLmirBm25Search.NewArchLmirBm25Model | Models/Bm25LMIR/archLmirBm25Model.py:8-33 | Building the model over an indexed dataset succeeds exactly when some annotation has tokens, and otherwise raises `ZeroDivisionError`. On success the lists follow `anns`' order, the weights are kept and the default hyperparameters are used. |
| TestArchLmirBm25Search.CutWordsOf | TestModel/archLmirBm25Model.py:71-96 | `cut_words` raises `IndexError` when there are more strings than weights. It raises `ZeroDivisionError` when the first string has no token, because the divisor is the running `len(cutWords)`. On success the words are all tokens in order, and the weights outnumber them as soon as there are two strings. |
| TestArchLmirBm25Search.CutWords | TestModel/archLmirBm25Model.py:83-96 | The loop returns `CutWordsOf`. |
| TestArchLmirBm25Search.CutWordsStep | TestModel/archLmirBm25Model.py:87-95 | Each string appends its tokens and `len(cutWords)` copies of `weights[i] / len(cutWords)`. |
| TestArchLmirBm25Search.CutWordsSplitsOneString | TestModel/archLmirBm25Model.py:75-81 | The docstring example: "中国红花" with weight 1 gives ["中国", "红花"] with weights [0.5, 0.5]. |
| TestArchLmirBm25Search.CutWordsLaterStrings | TestModel/archLmirBm25Model.py:92-95 | A second string divides its weight by the running token count and adds that many weights: 3 words but 5 weights. |
| TestArchLmirBm25Search.CutWordsFirstString | TestModel/archLmirBm25Model.py:92-95 | The first string's tokens each get `weights[0]` divided by their number. |
| TestArchLmirBm25Search.TestArchLmirBm25Model.constructor | TestModel/archLmirBm25Model.py:18-33 | Stores the dataset, the lists, the weights and the fusion model. |
| TestArchLmirBm25Search.TestArchLmirBm25Model.ValidShape | TestModel/archLmirBm25Model.py:25-33 | In a built model there is one score per annotation, at least one annotation, and aligned lists. |
| TestArchLmirBm25Search.TestArchLmirBm25Model.SearchSentence | TestModel/archLmirBm25Model.py:40-68 | As the other facade, but with the guarded normalisation, which leaves constant scores unchanged. |
| TestArchLmirBm25Search.TestArchLmirBm25Model.SearchWords | TestModel/archLmirBm25Model.py:99-126 | `searchWords` propagates `cut_words`' error, then that of `forwardWords` on the cut words and their weights. With no words it raises `IndexError`. Otherwise it returns the guarded ranking result. |
| TestArchLmirBm25Search.NewTestArchLmirBm25Model | TestModel/archLmirBm25Model.py:8-33 | Succeeds exactly when some annotation has tokens, and otherwise raises `ZeroDivisionError`. The lists follow `anns`' order. |
| ArchMixSearch.BroadcastAdd | Models/MixModel/archMixModel.py:61-62 | numpy's `+` on two 1-d arrays succeeds exactly when the lengths are equal or one of them is 1. It then adds position by position, repeating a length-1 operand. Otherwise it raises `ValueError`. |
| ArchMixSearch.MixWeighted | Models/MixModel/archMixModel.py:61-62 | `resultStatic * w[0] + resultFeature * w[1]` raises `IndexError` for fewer than two weights and `ValueError` for shapes that cannot be broadcast. With equal lengths it is the weighted sum at each position. |
| ArchMixSearch.MinMaxOrders | Models/MixModel/archMixModel.py:40-43 | The guarded normalisation keeps the order of any two entries. Its results lie in [0, 1] unless the array is constant. |
| ArchMixSearch.ArchMixModel.constructor | Models/MixModel/archMixModel.py:21-37 | Stores the dataset, the lists, the weights, the statistical model and the feature model. |
| ArchMixSearch.ArchMixModel.ValidShape | Models/MixModel/archMixModel.py:28-36 | In a built model there is one statistical score per annotation, at least one annotation, and aligned lists. |
| ArchMixSearch.ArchMixModel.Forward | Models/MixModel/archMixModel.py:45-70 | `forward` fails with the statistical model's error first, then `IndexError` (weights), then `ValueError` (shapes). An empty mix fails in the normalisation. Otherwise it returns both components unchanged and "ALL" with the broadcast length. |
| ArchMixSearch.ArchMixModel.ForwardRanks | Models/MixModel/archMixModel.py:61-64 | "ALL" orders the documents exactly as the weighted mix does, and lies in [0, 1] unless the mix is constant. |
| ArchMixSearch.ArchMixModel.ForwardNormalises | Models/MixModel/archMixModel.py:61-64 | "ALL" is the guarded min-max normalisation of the weighted mix. |
| ArchMixSearch.ArchMixModel.ForwardWords | Models/MixModel/archMixModel.py:73-96 | `forwardWords` always raises `NotImplementedError`. |
| ArchMixSearch.ArchMixModel.SearchSentence | Models/MixModel/archMixModel.py:98-126 | `searchSentence` propagates `forward`'s error. Otherwise it returns the descending ranking of "ALL", the normalised sorted scores and the by-rank lookups. It succeeds on a built model whose feature model gives one score per annotation. |
| ArchMixSearch.ArchMixModel.SearchWords | Models/MixModel/archMixModel.py:128-157 | `searchWords` always raises `NotImplementedError`, from `forwardWords`. |
| ArchMixSearch.NewArchMixModel | Models/MixModel/archMixModel.py:9-37 | Building succeeds exactly when some annotation has tokens, and otherwise raises `ZeroDivisionError` from the statistical model. The static model uses the default weights and hyperparameters. |
| Word2VecText.Lower | Models/Word2Vec/API/Word2VecModel.py:75 | `lower()` keeps the length and lower-cases each ASCII capital. |
| Word2VecText.LowerIdempotent | Models/Word2Vec/API/Word2VecModel.py:75 | Lower-casing twice is lower-casing once. |
| Word2VecText.ContainsEmpty | Models/Word2Vec/API/Word2VecModel.py:76 | The stop-word test is substring search in the whole stop-word file, so the empty word always counts as a stop word. |
| Word2VecText.ProcessCorpora | Models/Word2Vec/API/Word2VecModel.py:55-80 | `process_corpora` gives one string per document: its lower-cased words that are not in the stop-word text, joined by spaces. |
| Word2VecText.KeptMembers | Models/Word2Vec/API/Word2VecModel.py:72-79 | Every kept word is lower-case, non-empty, not in the stop-word text, and the lowered form of a document word. Every lowered document word not in the stop-word text is kept. |
| Word2VecText.SplitJoin | Models/Word2Vec/API/Word2VecModel.py:79 | Splitting the joined string at spaces gives back the words when none contains a space. |
| Word2VecText.FirstSpaceAfter | Models/Word2Vec/API/Word2VecModel.py:79 | In `w + " " + rest` with no space in `w`, the first space comes right after `w`. |
| Word2VecText.ProcessQuery | Models/Word2Vec/API/Word2VecModel.py:104-110 | The query loop of `w2v_match` joins, in order, the lower-cased tokens that are in the word2vec vocabulary. |
| Word2VecText.InVocabularyMembers | Models/Word2Vec/API/Word2VecModel.py:105-109 | A word is kept exactly when it is in the vocabulary and is the lowered form of a query token. |
| StrictlyMatch.StrictlyMatchModel.constructor | Models/StrictlyMatch/API/strictlyMatch.py:2-15 | Stores the corpus. |
| StrictlyMatch.StrictlyMatchModel.Retrieve | Models/StrictlyMatch/API/strictlyMatch.py:17-44 | `retrieve` returns `Retrieved(corpora, keyword_list)`. For each sentence in order, every keyword occurring in it as a token is appended under the sentence's key. |
| StrictlyMatch.AddFoundStep | Models/StrictlyMatch/API/strictlyMatch.py:39-42 | Appending a keyword creates the key on the first match and extends the list afterwards. |
| StrictlyMatch.MatchedMembers | Models/StrictlyMatch/API/strictlyMatch.py:36-37 | A keyword is listed for a sentence exactly when it is in the keyword list and is a token of the sentence. |
| StrictlyMatch.RetrievedKeys | Models/StrictlyMatch/API/strictlyMatch.py:37-42 | A sentence is a key exactly when it is in the corpus and contains some keyword. |
| StrictlyMatch.RetrievedValues | Models/StrictlyMatch/API/strictlyMatch.py:35-42 | A sentence's list holds its matched keywords once per occurrence of the sentence in the corpus. |
| StrictlyMatch.MatchedNone | Models/StrictlyMatch/API/strictlyMatch.py:36-37 | A sentence containing no keyword matches nothing. |
| StrictlyMatch.NoMatchEmpty | Models/StrictlyMatch/API/strictlyMatch.py:31 | When no sentence contains a keyword, the result is the empty dict. |
| KeywordMatch.LevenshteinSelf | Models/KeywordModel/source/kwMatch.py:3-17 | A word is at distance 0 from itself. |
| KeywordMatch.LevenshteinSymmetric | Models/KeywordModel/source/kwMatch.py:3-17 | The edit distance is symmetric. |
| KeywordMatch.LevenshteinBounds | Models/KeywordModel/source/kwMatch.py:3-17 | The distance to the empty word is the length, and no distance exceeds the longer length. |
| KeywordMatch.LevenshteinLengthGap | Models/KeywordModel/source/kwMatch.py:3-17 | No distance is below the difference of the lengths. |
| KeywordMatch.LevenshteinZero | Models/KeywordModel/source/kwMatch.py:3-17 | The distance is 0 exactly for equal words. |
| KeywordMatch.StrictMatchDistance | Models/KeywordModel/source/kwMatch.py:19-29 | A strict match has distance 0. |
| KeywordMatch.BasicKeywordModel.constructor | Models/KeywordModel/API/BasicKeywordModel.py:4-24 | Stores the keyword list. |
| KeywordMatch.BasicKeywordModel.ApproxSearch | Models/KeywordModel/API/BasicKeywordModel.py:26-53 | `approxSearch` returns `[keyWord]` when the list holds it (the early return). Otherwise it returns the entries within the threshold, in order. |
| KeywordMatch.NearMembers | Models/KeywordModel/API/BasicKeywordModel.py:48-49 | An entry is collected exactly when it is in the list and within the threshold. |
| KeywordMatch.NearSubsequence | Models/KeywordModel/API/BasicKeywordModel.py:45-49 | The collected entries keep the list's order. |
| KeywordMatch.SubsequenceDropLast | Models/KeywordModel/API/BasicKeywordModel.py:45-49 | Dropping the last entry of an ordered selection leaves an ordered selection. |
| KeywordMatch.SubsequenceWeaken | Models/KeywordModel/API/BasicKeywordModel.py:45-49 | An ordered selection stays one when the list grows. |
| KeywordMatch.SingletonSubsequence | Models/KeywordModel/API/BasicKeywordModel.py:46-47 | A single entry of the list is an ordered selection. |
| KeywordMatch.ApproxResultSpec | Models/KeywordModel/API/BasicKeywordModel.py:29-41 | The three documented cases: the exact keyword alone, else exactly the entries within the threshold, possibly none, always in list order. |
| TextFilter.ReplaceNoneCharactorAt | Preprocess/Filter/source/filterTemplate.py:3-18 | With a one-character replacement the length is kept. Letters, CJK U+4E00 to U+9FA5 and '^' stay in place, and every other character becomes the replacement. |
| TextFilter.ReplaceNoneCharactorIdempotent | Preprocess/Filter/source/filterTemplate.py:15-17 | Filtering twice with " " is filtering once. |
| TextFilter.ReplaceNoneCharactorExample | Preprocess/Filter/source/filterTemplate.py:3-18 | "中文《》English" becomes "中文  English". |
| TextFilter.ReplaceHTMLNoTag | Preprocess/Filter/source/filterTemplate.py:21-34 | Text without '<' comes back unchanged. |
| TextFilter.NoCloseKept | Preprocess/Filter/source/filterTemplate.py:32-33 | Filtering with " " adds no '>' to a line that had none. |
| TextFilter.ReplaceHTMLLeavesNoTag | Preprocess/Filter/source/filterTemplate.py:32-33 | After filtering with " ", no '<' has a '>' after it on the same line. |
| TextFilter.ReplaceHTMLTwoTags | Preprocess/Filter/source/filterTemplate.py:21-34 | "<p></p>" holds two tags and becomes two copies of the replacement. With the default that is two spaces, not the single space the docstring shows at line 24. |

## Left out

- File and network I/O is not modelled: the JSON annotation file, the stop-word file, model files, `print` and timing. The loaded dataset, the stop-word text and the vocabulary are parameters.
- The jieba tokenizer is the parameter `tokenize`. `math.log` and the square root in `np.std` are the parameters `ln` and `sqrt`. Floating point is modelled as exact reals, so rounding, infinities and overflow are not modelled. NaN is modelled only where the unguarded normalisation divides 0 by 0 (`AllNaN`).
- `np.argsort` is modelled as some descending ranking. The order among equal scores is not modelled.
- `Arch.reverseCharForAllContext` (regular expressions and jieba) is not modelled. Each annotation carries `concateText` and `cutConcateText` as given. Its `fileSeg.append("\n")` after storing the list makes every `cutConcateText` end with "\n", so in the source no annotation is ever without tokens. The model keeps the case where the lists are empty.
- The facades take an indexed `Arch` rather than a file path (`Arch(annotationFile=...)` plus `reverseCharForAllContext`).
- `doc2vecModel`, gensim, sklearn's TF-IDF and cosine distances, `fit_tfidf`, `token2vec`, `corpora2vec` and `CT_recom` are not modelled. The mix model's feature model is an abstract function from tokens to scores. `w2v_match` is modelled up to the joined query string.
- Word2VecText.Lower: only ASCII capitals are lower-cased; Python's full Unicode `lower()` is not modelled.
- ArchDataset.IndexOfOk: every annotation, image and project record carries the keys `createIndex` reads (`imageId`, `annotationId`, `labels`, `projectId`, `projectLabels`), because the record datatypes have these fields. The `KeyError` that a record missing one of them raises at `Dataloader/Arch/arch.py:57-59`, `64`, `68-69` or `74` is not modelled; only a JSON `null` (`None`) value is.
- The weights of `cut_words` are reals, so `float(weight)` parsing of strings is not modelled.
- The order of dictionary keys is not modelled where the source only builds dicts: `Retrieved` and the category tables are maps. The order of `anns` is kept as `annOrder`.
- KeywordMatch.Levenshtein: the `editdistance` library is not part of this model. Its distance is taken to be the standard Levenshtein recurrence.
- `TestModel/lmirBm25Model.py` is not part of this model. The test facade uses the fusion model of `Models/Bm25LMIR/lmirBm25Model.py`.
- In `replaceNoneCharactor` and `replaceHTML` the replacement is taken literally. Backslash escapes that `re.sub` would process in it are not modelled.
- `replaceURL`, `replaceJsonKey` and `replaceMultiSpace` of `filterTemplate.py` are not modelled (further regular-expression substitutions).
- `np.std` and `np.mean` of an empty array (NaN with a warning) are not modelled. `standardization` in the fusion model is only applied to arrays with one value per document.
