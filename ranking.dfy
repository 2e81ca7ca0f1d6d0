/**
 * The glue the three architecture search models share
 * (Models/Bm25LMIR/archLmirBm25Model.py, TestModel/archLmirBm25Model.py and
 * Models/MixModel/archMixModel.py): the per-annotation lists built from
 * `anns.items()`, the concatenation of the tokens of every query string,
 * the descending ranking `np.argsort(all)[::-1]`, the scores along it
 * (`np.sort(all)[::-1]`), and the lookups of ids and texts by rank.
 *
 * The tokenizer is the parameter `tokenize`.
 */
module Ranking {
  import opened Wrappers
  import opened ArchDataset
  import opened Vectors

  // ---------------------------------------------------------------------
  // the lists built in the constructors

  /** `annIdList`, `corporaList` and `notCutCorporaList`, position by position. */
  datatype AnnLists = AnnLists(annIdList: seq<Id>, corporaList: seq<seq<string>>, notCutCorporaList: seq<string>)
  {
    /** The three lists have one entry per annotation, and entry `i` of each comes from annotation `annIdList[i]`. */
    ghost predicate AlignedWith(anns: map<Id, Ann>)
    {
      && |corporaList| == |annIdList| && |notCutCorporaList| == |annIdList|
      && forall i :: 0 <= i < |annIdList| ==>
           && annIdList[i] in anns
           && corporaList[i] == anns[annIdList[i]].cutConcateText
           && notCutCorporaList[i] == anns[annIdList[i]].concateText
    }
  }

  /**
   * The loop `for annotation, content in anns.items()` of the constructors:
   * the lists follow the dict's order, and every annotation appears once.
   */
  method BuildLists(arch: Arch) returns (lists: AnnLists)
    requires arch.Valid()
    ensures lists.annIdList == arch.annOrder
    ensures lists.AlignedWith(arch.anns)
    ensures forall id :: id in arch.anns <==> id in lists.annIdList
  {
    var annIdList: seq<Id> := [];
    var corporaList: seq<seq<string>> := [];
    var notCutCorporaList: seq<string> := [];
    for i := 0 to |arch.annOrder|
      invariant annIdList == arch.annOrder[..i]
      invariant AnnLists(annIdList, corporaList, notCutCorporaList).AlignedWith(arch.anns)
    {
      var annotation := arch.annOrder[i];
      var content := arch.anns[annotation];
      annIdList := annIdList + [annotation];
      corporaList := corporaList + [content.cutConcateText];
      notCutCorporaList := notCutCorporaList + [content.concateText];
    }
    assert arch.annOrder[..|arch.annOrder|] == arch.annOrder;
    lists := AnnLists(annIdList, corporaList, notCutCorporaList);
  }

  // ---------------------------------------------------------------------
  // query tokens

  /** The tokens of every query string, in order. */
  function Tokens(listWords: seq<string>, tokenize: string -> seq<string>): seq<string>
  {
    if listWords == [] then [] else Tokens(listWords[..|listWords| - 1], tokenize) + tokenize(listWords[|listWords| - 1])
  }

  /** `to_search += list(jieba.cut(i, True))` for each query string. */
  method CutAll(listWords: seq<string>, tokenize: string -> seq<string>) returns (toSearch: seq<string>)
    ensures toSearch == Tokens(listWords, tokenize)
  {
    toSearch := [];
    for i := 0 to |listWords|
      invariant toSearch == Tokens(listWords[..i], tokenize)
    {
      assert listWords[..i + 1][..i] == listWords[..i];
      toSearch := toSearch + tokenize(listWords[i]);
    }
    assert listWords[..|listWords|] == listWords;
  }

  /** Each query string's tokens come in order, right after those of the strings before it. */
  lemma {:induction false} TokensAppend(a: seq<string>, b: seq<string>, tokenize: string -> seq<string>)
    ensures Tokens(a + b, tokenize) == Tokens(a, tokenize) + Tokens(b, tokenize)
    decreases |b|
  {
    if b != [] {
      var init := b[..|b| - 1];
      assert (a + b)[..|a + b| - 1] == a + init;
      assert (a + b)[|a + b| - 1] == b[|b| - 1];
      TokensAppend(a, init, tokenize);
      var last := tokenize(b[|b| - 1]);
      assert Tokens(a, tokenize) + Tokens(init, tokenize) + last == Tokens(a, tokenize) + (Tokens(init, tokenize) + last);
    } else {
      assert a + b == a;
    }
  }

  // ---------------------------------------------------------------------
  // ranking

  /** `index` lists each position of `scores` once. */
  predicate IsPermutation(index: seq<int>, n: int)
  {
    && |index| == n
    && (forall j :: 0 <= j < |index| ==> 0 <= index[j] < n)
    && (forall j, k :: 0 <= j < k < |index| ==> index[j] != index[k])
    && (forall i :: 0 <= i < n ==> i in index)
  }

  /** The scores along `index` never increase. */
  predicate NonIncreasingAlong(index: seq<int>, scores: seq<real>)
    requires forall j :: 0 <= j < |index| ==> 0 <= index[j] < |scores|
  {
    forall j, k :: 0 <= j < k < |index| ==> scores[index[j]] >= scores[index[k]]
  }

  /** `index` ranks the positions of `scores` from the highest score to the lowest. */
  predicate IsDescendingRanking(index: seq<int>, scores: seq<real>)
  {
    IsPermutation(index, |scores|) && NonIncreasingAlong(index, scores)
  }

  /**
   * `np.argsort(scores)[::-1]`: a permutation of the positions with the
   * scores along it non-increasing.  numpy's sort is not stable and the
   * order among equal scores is not specified; this one places each new
   * position after every earlier position with a score at least as high.
   */
  method ArgsortDescending(scores: seq<real>) returns (index: seq<int>)
    ensures IsDescendingRanking(index, scores)
  {
    index := [];
    for i := 0 to |scores|
      invariant RankedPrefix(index, scores, i)
    {
      var p := 0;
      while p < |index| && scores[index[p]] >= scores[i]
        invariant 0 <= p <= |index|
        invariant forall q :: 0 <= q < p ==> scores[index[q]] >= scores[i]
      {
        p := p + 1;
      }
      InsertRanked(index, scores, i, p);
      index := index[..p] + [i] + index[p..];
    }
  }

  /** `index` ranks positions `0 .. i-1` of `scores`, highest score first. */
  predicate RankedPrefix(index: seq<int>, scores: seq<real>, i: int)
  {
    && 0 <= i <= |scores|
    && IsPermutation(index, i)
    && NonIncreasingAlong(index, scores)
  }

  /**
   * Inserting position `i` after the positions whose scores are at least
   * its own, and before a lower one, ranks positions `0 .. i`.
   */
  lemma InsertRanked(index: seq<int>, scores: seq<real>, i: int, p: int)
    requires i < |scores| && RankedPrefix(index, scores, i) && 0 <= p <= |index|
    requires forall q :: 0 <= q < p ==> scores[index[q]] >= scores[i]
    requires p < |index| ==> scores[index[p]] < scores[i]
    ensures RankedPrefix(index[..p] + [i] + index[p..], scores, i + 1)
  {
    InsertedPermutation(index, i, p);
    InsertedOrder(index, scores, i, p);
  }

  /** Position `i` inserted anywhere into a permutation of `0 .. i-1` gives one of `0 .. i`. */
  lemma InsertedPermutation(index: seq<int>, i: int, p: int)
    requires IsPermutation(index, i) && 0 <= p <= |index|
    ensures IsPermutation(index[..p] + [i] + index[p..], i + 1)
  {
    var next := index[..p] + [i] + index[p..];
    assert forall j :: 0 <= j < |next| ==> next[j] == if j < p then index[j] else if j == p then i else index[j - 1];
    forall m | 0 <= m < i + 1
      ensures m in next
    {
      if m < i {
        assert m in index;
        var j :| 0 <= j < |index| && index[j] == m;
        assert next[if j < p then j else j + 1] == m;
      } else {
        assert next[p] == m;
      }
    }
  }

  /** Inserting `i` between the scores at least its own and a lower one keeps the order. */
  lemma InsertedOrder(index: seq<int>, scores: seq<real>, i: int, p: int)
    requires 0 <= i < |scores| && 0 <= p <= |index|
    requires forall j :: 0 <= j < |index| ==> 0 <= index[j] < |scores|
    requires NonIncreasingAlong(index, scores)
    requires forall q :: 0 <= q < p ==> scores[index[q]] >= scores[i]
    requires p < |index| ==> scores[index[p]] < scores[i]
    ensures var next := index[..p] + [i] + index[p..];
      && (forall j :: 0 <= j < |next| ==> 0 <= next[j] < |scores|)
      && NonIncreasingAlong(next, scores)
  {
    var next := index[..p] + [i] + index[p..];
    assert forall j :: 0 <= j < |next| ==> next[j] == if j < p then index[j] else if j == p then i else index[j - 1];
  }

  /** The scores along a ranking: `np.sort(scores)[::-1]`. */
  function Along(scores: seq<real>, index: seq<int>): (r: seq<real>)
    requires forall j :: 0 <= j < |index| ==> 0 <= index[j] < |scores|
    ensures |r| == |index|
  {
    seq(|index|, j requires 0 <= j < |index| => scores[index[j]])
  }

  /**
   * Along a descending ranking, the scores come sorted from highest to
   * lowest and each is a score of the input: the first is the maximum.
   */
  lemma AlongRanking(scores: seq<real>, index: seq<int>)
    requires IsDescendingRanking(index, scores)
    ensures var s := Along(scores, index);
      && (forall j, k :: 0 <= j < k < |s| ==> s[j] >= s[k])
      && (forall j :: 0 <= j < |s| ==> s[j] in scores)
      && (|s| > 0 ==> forall i :: 0 <= i < |scores| ==> scores[i] <= s[0])
  {
    var s := Along(scores, index);
    forall i | 0 <= i < |scores| && |s| > 0
      ensures scores[i] <= s[0]
    {
      assert i in index;
      var j :| 0 <= j < |index| && index[j] == i;
      assert j == 0 || s[0] >= s[j];
    }
  }

  // ---------------------------------------------------------------------
  // the lookups by rank

  /** The three lists the search methods return beside the scores and the ranking. */
  datatype Mapped = Mapped(copora: seq<string>, annoId: seq<Id>, imageId: seq<Id>)

  /**
   * Entries `index[..k]` looked up: `annIdList[i]`, `notCutCorporaList[i]`
   * and `anns[annIdList[i]]["imageId"]` for each `i`, or the exception of the
   * first lookup that fails (IndexError for a position past a list, KeyError
   * for an id `anns` lacks).
   */
  function MappedPrefix(index: seq<int>, k: nat, lists: AnnLists, anns: map<Id, Ann>): (r: Result<Mapped>)
    requires k <= |index|
    ensures r.Ok? ==> |r.value.copora| == k && |r.value.annoId| == k && |r.value.imageId| == k
  {
    if k == 0 then Ok(Mapped([], [], []))
    else match MappedPrefix(index, k - 1, lists, anns)
      case Err(e) => Err(e)
      case Ok(m) =>
        var i := index[k - 1];
        if !(0 <= i < |lists.annIdList|) || !(0 <= i < |lists.notCutCorporaList|) then Err(IndexError)
        else if lists.annIdList[i] !in anns then Err(KeyError)
        else Ok(Mapped(m.copora + [lists.notCutCorporaList[i]], m.annoId + [lists.annIdList[i]],
                       m.imageId + [anns[lists.annIdList[i]].imageId]))
  }

  /** The loop `for i in index:` that fills `annoId`, `copora` and `imageId`. */
  method MapByIndex(index: seq<int>, lists: AnnLists, anns: map<Id, Ann>) returns (r: Result<Mapped>)
    ensures r == MappedPrefix(index, |index|, lists, anns)
  {
    var imageId: seq<Id> := [];
    var annoId: seq<Id> := [];
    var copora: seq<string> := [];
    for k := 0 to |index|
      invariant MappedPrefix(index, k, lists, anns) == Ok(Mapped(copora, annoId, imageId))
    {
      var i := index[k];
      if !(0 <= i < |lists.annIdList|) || !(0 <= i < |lists.notCutCorporaList|) {
        MappedPrefixError(index, k + 1, |index|, lists, anns);
        return Err(IndexError);
      }
      annoId := annoId + [lists.annIdList[i]];
      copora := copora + [lists.notCutCorporaList[i]];
      if lists.annIdList[i] !in anns {
        MappedPrefixError(index, k + 1, |index|, lists, anns);
        return Err(KeyError);
      }
      imageId := imageId + [anns[lists.annIdList[i]].imageId];
    }
    r := Ok(Mapped(copora, annoId, imageId));
  }

  lemma {:induction false} MappedPrefixError(index: seq<int>, k: nat, m: nat, lists: AnnLists, anns: map<Id, Ann>)
    requires k <= m <= |index| && MappedPrefix(index, k, lists, anns).Err?
    ensures MappedPrefix(index, m, lists, anns) == MappedPrefix(index, k, lists, anns)
    decreases m - k
  {
    if k < m {
      MappedPrefixError(index, k, m - 1, lists, anns);
    }
  }

  /**
   * With lists aligned to `anns` and a ranking of their positions, nothing
   * fails, and rank `j` holds the id, the uncut text and the image id of
   * the annotation at position `index[j]`.
   */
  lemma {:induction false} MappedAligned(index: seq<int>, k: nat, lists: AnnLists, anns: map<Id, Ann>)
    requires k <= |index| && lists.AlignedWith(anns)
    requires forall j :: 0 <= j < |index| ==> 0 <= index[j] < |lists.annIdList|
    ensures MappedPrefix(index, k, lists, anns).Ok?
    ensures var m := MappedPrefix(index, k, lists, anns).value;
      forall j :: 0 <= j < k ==>
        && m.annoId[j] == lists.annIdList[index[j]]
        && m.copora[j] == lists.notCutCorporaList[index[j]]
        && m.annoId[j] in anns
        && m.imageId[j] == anns[m.annoId[j]].imageId
        && m.copora[j] == anns[m.annoId[j]].concateText
    decreases k
  {
    if k > 0 {
      MappedAligned(index, k - 1, lists, anns);
    }
  }

  /** What a search returns: `sortedResult, index, copora, annoId, imageId`. */
  datatype SearchResult<S> = SearchResult(sortedResult: S, index: seq<int>, copora: seq<string>, annoId: seq<Id>,
                                          imageId: seq<Id>)

  /**
   * The tail of every search method with the guarded `standardization`:
   * rank, normalise the ranked scores, and look the ranked positions up.
   * numpy raises ValueError for the minimum of an empty array.
   */
  method RankGuarded(all: seq<real>, lists: AnnLists, anns: map<Id, Ann>) returns (r: Result<SearchResult<seq<real>>>)
    ensures all == [] ==> r == Err(ValueError)
    ensures r.Ok? ==> && IsDescendingRanking(r.value.index, all)
                      && r.value.sortedResult == MinMax(Along(all, r.value.index)).value
                      && MappedPrefix(r.value.index, |all|, lists, anns)
                         == Ok(Mapped(r.value.copora, r.value.annoId, r.value.imageId))
    ensures r.Err? && all != [] ==> r.error == IndexError || r.error == KeyError
    ensures all != [] && lists.AlignedWith(anns) && |lists.annIdList| == |all| ==> r.Ok?
  {
    var index := ArgsortDescending(all);
    var sortedResult := MinMax(Along(all, index));
    if sortedResult.Err? {
      return Err(sortedResult.error);
    }
    var mapped := MapByIndex(index, lists, anns);
    if lists.AlignedWith(anns) && |lists.annIdList| == |all| {
      MappedAligned(index, |index|, lists, anns);
    }
    if mapped.Err? {
      MappedPrefixErrors(index, |index|, lists, anns);
      return Err(mapped.error);
    }
    r := Ok(SearchResult(sortedResult.value, index, mapped.value.copora, mapped.value.annoId, mapped.value.imageId));
  }

  /** The same tail with the unguarded min-max normalisation. */
  method RankUnguarded(all: seq<real>, lists: AnnLists, anns: map<Id, Ann>) returns (r: Result<SearchResult<Normalized>>)
    ensures all == [] ==> r == Err(ValueError)
    ensures r.Ok? ==> && IsDescendingRanking(r.value.index, all)
                      && r.value.sortedResult == MinMaxUnguarded(Along(all, r.value.index)).value
                      && MappedPrefix(r.value.index, |all|, lists, anns)
                         == Ok(Mapped(r.value.copora, r.value.annoId, r.value.imageId))
    ensures r.Err? && all != [] ==> r.error == IndexError || r.error == KeyError
    ensures all != [] && lists.AlignedWith(anns) && |lists.annIdList| == |all| ==> r.Ok?
  {
    var index := ArgsortDescending(all);
    var sortedResult := MinMaxUnguarded(Along(all, index));
    if sortedResult.Err? {
      return Err(sortedResult.error);
    }
    var mapped := MapByIndex(index, lists, anns);
    if lists.AlignedWith(anns) && |lists.annIdList| == |all| {
      MappedAligned(index, |index|, lists, anns);
    }
    if mapped.Err? {
      MappedPrefixErrors(index, |index|, lists, anns);
      return Err(mapped.error);
    }
    r := Ok(SearchResult(sortedResult.value, index, mapped.value.copora, mapped.value.annoId, mapped.value.imageId));
  }

  lemma {:induction false} MappedPrefixErrors(index: seq<int>, k: nat, lists: AnnLists, anns: map<Id, Ann>)
    requires k <= |index|
    ensures MappedPrefix(index, k, lists, anns).Err? ==>
              MappedPrefix(index, k, lists, anns).error == IndexError || MappedPrefix(index, k, lists, anns).error == KeyError
    decreases k
  {
    if k > 0 {
      MappedPrefixErrors(index, k - 1, lists, anns);
    }
  }

  /** The scores along a ranking are constant exactly when the scores are. */
  lemma AlongConstant(scores: seq<real>, index: seq<int>)
    requires IsDescendingRanking(index, scores)
    ensures Constant(Along(scores, index)) <==> Constant(scores)
  {
    var s := Along(scores, index);
    if !Constant(scores) {
      var i, j :| 0 <= i < |scores| && 0 <= j < |scores| && scores[i] != scores[j];
      assert i in index && j in index;
      var a :| 0 <= a < |index| && index[a] == i;
      var b :| 0 <= b < |index| && index[b] == j;
      assert s[a] != s[b];
    }
  }

  /**
   * `sortedResult` of a guarded search over scores that are not all equal:
   * the normalised scores from highest to lowest, starting at 1 and ending
   * at 0.  Over equal scores it is the ranked scores themselves.
   */
  lemma RankedScoresNormalized(scores: seq<real>, index: seq<int>)
    requires scores != [] && IsDescendingRanking(index, scores)
    ensures var s := Along(scores, index);
      var r := MinMax(s).value;
      && (Constant(scores) ==> r == s)
      && (!Constant(scores) ==>
            && (forall j, k :: 0 <= j < k < |r| ==> 1.0 >= r[j] >= r[k] >= 0.0)
            && r[0] == 1.0 && r[|r| - 1] == 0.0)
  {
    var s := Along(scores, index);
    AlongConstant(scores, index);
    AlongRanking(scores, index);
    if Constant(scores) {
      MinMaxConstant(s);
    } else {
      DescendingNormalized(s);
    }
  }

  /** Normalising scores sorted from highest to lowest, not all equal: from 1 down to 0. */
  lemma DescendingNormalized(s: seq<real>)
    requires s != [] && !Constant(s) && forall j, k :: 0 <= j < k < |s| ==> s[j] >= s[k]
    ensures var r := MinMax(s).value;
      && (forall j, k :: 0 <= j < k < |r| ==> 1.0 >= r[j] >= r[k] >= 0.0)
      && r[0] == 1.0 && r[|r| - 1] == 0.0
  {
    MinMaxSpread(s);
    MinIsLeast(s);
    MaxIsGreatest(s);
    var hi :| 0 <= hi < |s| && s[hi] == Max(s);
    var lo :| 0 <= lo < |s| && s[lo] == Min(s);
    assert s[0] >= s[hi];
    assert s[lo] >= s[|s| - 1];
  }
}
