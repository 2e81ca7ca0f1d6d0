/**
 * The keyword matchers of Models/KeywordModel/source/kwMatch.py and the
 * `BasicKeywordModel` of Models/KeywordModel/API/BasicKeywordModel.py:
 * exact comparison, the Levenshtein edit distance (defined here by its
 * recurrence; the source calls the `editdistance` library), and a search
 * that returns the exact match if there is one and otherwise every keyword
 * within a distance threshold.
 */
module KeywordMatch {

  /** `strictMatch`: the two words are the same string. */
  predicate StrictMatch(keyWord: string, targetWord: string)
  {
    keyWord == targetWord
  }

  function Min3(x: nat, y: nat, z: nat): nat
  {
    if x <= y && x <= z then x else if y <= z then y else z
  }

  /**
   * `levenshteinDistance`: the fewest single-character insertions,
   * deletions and substitutions that turn `a` into `b`.
   */
  function Levenshtein(a: string, b: string): nat
    decreases |a| + |b|
  {
    if a == [] then |b|
    else if b == [] then |a|
    else Min3(Levenshtein(a[1..], b) + 1,
              Levenshtein(a, b[1..]) + 1,
              Levenshtein(a[1..], b[1..]) + (if a[0] == b[0] then 0 else 1))
  }

  /** A word is at distance 0 from itself. */
  lemma {:induction false} LevenshteinSelf(a: string)
    ensures Levenshtein(a, a) == 0
    decreases |a|
  {
    if a != [] {
      LevenshteinSelf(a[1..]);
    }
  }

  /** The distance does not depend on the order of the two words. */
  lemma {:induction false} LevenshteinSymmetric(a: string, b: string)
    ensures Levenshtein(a, b) == Levenshtein(b, a)
    decreases |a| + |b|
  {
    if a != [] && b != [] {
      LevenshteinSymmetric(a[1..], b);
      LevenshteinSymmetric(a, b[1..]);
      LevenshteinSymmetric(a[1..], b[1..]);
    }
  }

  /** The distance to the empty word is the length, and no distance exceeds the longer length. */
  lemma {:induction false} LevenshteinBounds(a: string, b: string)
    ensures Levenshtein(a, []) == |a| && Levenshtein([], b) == |b|
    ensures Levenshtein(a, b) <= if |a| <= |b| then |b| else |a|
    decreases |a| + |b|
  {
    if a != [] && b != [] {
      LevenshteinBounds(a[1..], b[1..]);
    }
  }

  /** The distance is at least the difference of the lengths. */
  lemma {:induction false} LevenshteinLengthGap(a: string, b: string)
    ensures Levenshtein(a, b) >= |a| - |b| && Levenshtein(a, b) >= |b| - |a|
    decreases |a| + |b|
  {
    if a != [] && b != [] {
      LevenshteinLengthGap(a[1..], b);
      LevenshteinLengthGap(a, b[1..]);
      LevenshteinLengthGap(a[1..], b[1..]);
    }
  }

  /** Distance 0 means the same word, and the same word means distance 0. */
  lemma {:induction false} LevenshteinZero(a: string, b: string)
    ensures Levenshtein(a, b) == 0 <==> a == b
    decreases |a| + |b|
  {
    if a == b {
      LevenshteinSelf(a);
    } else if a != [] && b != [] {
      assert a == [a[0]] + a[1..] && b == [b[0]] + b[1..];
      LevenshteinZero(a[1..], b[1..]);
    }
  }

  /** `strictMatch` implies distance 0. */
  lemma StrictMatchDistance(a: string, b: string)
    requires StrictMatch(a, b)
    ensures Levenshtein(a, b) == 0
  {
    LevenshteinSelf(a);
  }

  // ---------------------------------------------------------------------
  // BasicKeywordModel

  /** The default `threshold` of `approxSearch`. */
  const DEFAULT_THRESHOLD: int := 1

  /** The entries of `corpora` within `threshold` of `keyWord`, in corpus order. */
  function Near(corpora: seq<string>, keyWord: string, threshold: int): (r: seq<string>)
    ensures |r| <= |corpora|
  {
    if corpora == [] then []
    else
      var last := corpora[|corpora| - 1];
      Near(corpora[..|corpora| - 1], keyWord, threshold) + (if Levenshtein(keyWord, last) <= threshold then [last] else [])
  }

  /**
   * What `approxSearch` returns: the keyword itself when the corpus holds
   * it, otherwise every entry within the threshold.
   */
  function ApproxResult(corpora: seq<string>, keyWord: string, threshold: int): seq<string>
  {
    if keyWord in corpora then [keyWord] else Near(corpora, keyWord, threshold)
  }

  class BasicKeywordModel {
    const corpora: seq<string>

    constructor (corpora: seq<string>)
      ensures this.corpora == corpora
    {
      this.corpora := corpora;
    }

    /** `approxSearch`: the loop with its early return on the first exact match. */
    method ApproxSearch(keyWord: string, threshold: int) returns (keyWordList: seq<string>)
      ensures keyWordList == ApproxResult(corpora, keyWord, threshold)
    {
      keyWordList := [];
      for i := 0 to |corpora|
        invariant keyWord !in corpora[..i]
        invariant keyWordList == Near(corpora[..i], keyWord, threshold)
      {
        assert corpora[..i + 1][..i] == corpora[..i];
        if StrictMatch(keyWord, corpora[i]) {
          return [corpora[i]];
        } else if Levenshtein(keyWord, corpora[i]) <= threshold {
          keyWordList := keyWordList + [corpora[i]];
        }
      }
      assert corpora[..|corpora|] == corpora;
    }
  }

  /** An entry is near exactly when it is in the corpus and within the threshold. */
  lemma {:induction false} NearMembers(corpora: seq<string>, keyWord: string, threshold: int)
    ensures forall w :: w in Near(corpora, keyWord, threshold) <==> w in corpora && Levenshtein(keyWord, w) <= threshold
    decreases |corpora|
  {
    if corpora != [] {
      var init := corpora[..|corpora| - 1];
      NearMembers(init, keyWord, threshold);
      assert corpora == init + [corpora[|corpora| - 1]];
    }
  }

  /** `sub` is `s` with some entries left out, the rest in order. */
  predicate Subsequence(sub: seq<string>, s: seq<string>)
    decreases |s|
  {
    if sub == [] then true
    else if s == [] then false
    else if sub[|sub| - 1] == s[|s| - 1] then Subsequence(sub[..|sub| - 1], s[..|s| - 1])
    else Subsequence(sub, s[..|s| - 1])
  }

  lemma {:induction false} NearSubsequence(corpora: seq<string>, keyWord: string, threshold: int)
    ensures Subsequence(Near(corpora, keyWord, threshold), corpora)
    decreases |corpora|
  {
    if corpora != [] {
      var init := corpora[..|corpora| - 1];
      var near := Near(init, keyWord, threshold);
      NearSubsequence(init, keyWord, threshold);
      var last := corpora[|corpora| - 1];
      if Levenshtein(keyWord, last) <= threshold {
        assert (near + [last])[..|near|] == near;
      } else {
        assert near + [] == near;
        if near != [] && near[|near| - 1] == last {
          SubsequenceDropLast(near, init);
        }
      }
    }
  }

  /** A subsequence of `s` without its last entry is a subsequence of `s` plus that entry. */
  lemma {:induction false} SubsequenceDropLast(sub: seq<string>, s: seq<string>)
    requires sub != [] && Subsequence(sub, s)
    ensures Subsequence(sub[..|sub| - 1], s)
    decreases |s|, 0
  {
    if sub[|sub| - 1] == s[|s| - 1] {
      SubsequenceWeaken(sub[..|sub| - 1], s[..|s| - 1], s[|s| - 1]);
    } else {
      SubsequenceDropLast(sub, s[..|s| - 1]);
      SubsequenceWeaken(sub[..|sub| - 1], s[..|s| - 1], s[|s| - 1]);
    }
  }

  lemma {:induction false} SubsequenceWeaken(sub: seq<string>, s: seq<string>, x: string)
    requires Subsequence(sub, s)
    ensures Subsequence(sub, s + [x])
    decreases |s|, 1
  {
    var t := s + [x];
    assert t[..|t| - 1] == s;
    if sub != [] && sub[|sub| - 1] == x {
      SubsequenceDropLast(sub, s);
    }
  }

  lemma {:induction false} SingletonSubsequence(x: string, s: seq<string>)
    requires x in s
    ensures Subsequence([x], s)
    decreases |s|
  {
    if s[|s| - 1] != x {
      assert x in s[..|s| - 1] by {
        var i :| 0 <= i < |s| && s[i] == x;
        assert i < |s| - 1;
        assert s[..|s| - 1][i] == x;
      }
      SingletonSubsequence(x, s[..|s| - 1]);
    } else {
      assert [x][..0] == [];
    }
  }

  /**
   * `approxSearch` returns `[keyWord]` when the corpus holds it, otherwise
   * exactly the entries within the threshold (none when none is near), and
   * always a subsequence of the corpus.
   */
  lemma ApproxResultSpec(corpora: seq<string>, keyWord: string, threshold: int)
    ensures var r := ApproxResult(corpora, keyWord, threshold);
      && (keyWord in corpora ==> r == [keyWord])
      && (keyWord !in corpora ==>
            forall w :: w in r <==> w in corpora && Levenshtein(keyWord, w) <= threshold)
      && Subsequence(r, corpora)
  {
    NearMembers(corpora, keyWord, threshold);
    if keyWord in corpora {
      SingletonSubsequence(keyWord, corpora);
    } else {
      NearSubsequence(corpora, keyWord, threshold);
    }
  }
}
