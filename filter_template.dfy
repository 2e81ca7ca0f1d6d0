/**
 * Two of the regular-expression filters of
 * Preprocess/Filter/source/filterTemplate.py, written as character scans:
 * `replaceNoneCharactor` (the class `[^一-龥^a-z^A-Z]`) and
 * `replaceHTML` (the pattern `<.*?>`, whose `.` stops at a newline).
 */
module TextFilter {
  import opened Wrappers

  // ---------------------------------------------------------------------
  // replaceNoneCharactor

  /**
   * The characters the class leaves alone: the CJK range U+4E00 to U+9FA5,
   * the ASCII letters, and '^', which the class lists literally.
   */
  predicate Kept(c: char)
  {
    ('\U{4E00}' <= c <= '\U{9FA5}') || ('a' <= c <= 'z') || ('A' <= c <= 'Z') || c == '^'
  }

  /** `replaceNoneCharactor(rawText, toReplace)`: every other character becomes `toReplace`. */
  function ReplaceNoneCharactor(rawText: string, toReplace: string): (r: string)
  {
    if rawText == [] then []
    else
      var c := rawText[|rawText| - 1];
      ReplaceNoneCharactor(rawText[..|rawText| - 1], toReplace) + (if Kept(c) then [c] else toReplace)
  }

  /**
   * With a one-character replacement the length is kept, the kept
   * characters stay where they were, and every other one becomes the
   * replacement.
   */
  lemma {:induction false} ReplaceNoneCharactorAt(rawText: string, toReplace: string)
    requires |toReplace| == 1
    ensures var r := ReplaceNoneCharactor(rawText, toReplace);
      && |r| == |rawText|
      && forall i :: 0 <= i < |rawText| ==> r[i] == if Kept(rawText[i]) then rawText[i] else toReplace[0]
    decreases |rawText|
  {
    if rawText != [] {
      ReplaceNoneCharactorAt(rawText[..|rawText| - 1], toReplace);
    }
  }

  /** Filtering twice with the default " " is filtering once: a space is itself replaced by a space. */
  lemma ReplaceNoneCharactorIdempotent(rawText: string)
    ensures ReplaceNoneCharactor(ReplaceNoneCharactor(rawText, " "), " ") == ReplaceNoneCharactor(rawText, " ")
  {
    var once := ReplaceNoneCharactor(rawText, " ");
    ReplaceNoneCharactorAt(rawText, " ");
    ReplaceNoneCharactorAt(once, " ");
  }

  /** The docstring's example: "中文《》English" becomes "中文  English". */
  lemma ReplaceNoneCharactorExample()
    ensures ReplaceNoneCharactor("中文《》English", " ") == "中文  English"
  {
    ReplaceNoneCharactorAt("中文《》English", " ");
  }

  // ---------------------------------------------------------------------
  // replaceHTML

  /** The index of the first '>' of `s` before any newline. */
  function FirstClose(s: string): (r: Option<nat>)
    ensures r.Some? ==> r.value < |s| && s[r.value] == '>'
  {
    if s == [] then None
    else if s[0] == '>' then Some(0)
    else if s[0] == '\n' then None
    else match FirstClose(s[1..])
      case None => None
      case Some(j) => Some(j + 1)
  }

  /**
   * `replaceHTML(rawText, toReplace)`: scanning from the left, a '<' with a
   * '>' after it on the same line starts a tag, which ends at the first
   * such '>' and is replaced as a whole; the scan goes on after it.
   */
  function ReplaceHTML(rawText: string, toReplace: string): string
    decreases |rawText|
  {
    if rawText == [] then []
    else if rawText[0] == '<' && FirstClose(rawText[1..]).Some? then
      toReplace + ReplaceHTML(rawText[FirstClose(rawText[1..]).value + 2..], toReplace)
    else
      [rawText[0]] + ReplaceHTML(rawText[1..], toReplace)
  }

  /** Without a '<' there is no tag, and the text comes back unchanged. */
  lemma {:induction false} ReplaceHTMLNoTag(rawText: string, toReplace: string)
    requires '<' !in rawText
    ensures ReplaceHTML(rawText, toReplace) == rawText
    decreases |rawText|
  {
    if rawText != [] {
      assert '<' !in rawText[1..] by {
        forall i | 0 <= i < |rawText| - 1 ensures rawText[1..][i] != '<' {
          assert rawText[1..][i] == rawText[i + 1];
        }
      }
      ReplaceHTMLNoTag(rawText[1..], toReplace);
    }
  }

  /** No '<' of `s` has a '>' after it on the same line. */
  predicate NoTag(s: string)
  {
    forall i :: 0 <= i < |s| && s[i] == '<' ==> FirstClose(s[i + 1..]).None?
  }

  /** If a line holds no '>', filtering with " " puts none into it. */
  lemma {:induction false} NoCloseKept(s: string)
    requires FirstClose(s).None?
    ensures FirstClose(ReplaceHTML(s, " ")).None?
    decreases |s|
  {
    if s != [] && s[0] != '\n' {
      assert FirstClose(s[1..]).None?;
      NoCloseKept(s[1..]);
      var r := ReplaceHTML(s, " ");
      assert r == [s[0]] + ReplaceHTML(s[1..], " ");
      assert r[1..] == ReplaceHTML(s[1..], " ");
    }
  }

  /** With the default " ", no tag is left: every remaining '<' has no '>' after it on its line. */
  lemma {:induction false} ReplaceHTMLLeavesNoTag(rawText: string)
    ensures NoTag(ReplaceHTML(rawText, " "))
    decreases |rawText|
  {
    if rawText != [] {
      var r := ReplaceHTML(rawText, " ");
      if rawText[0] == '<' && FirstClose(rawText[1..]).Some? {
        var rest := rawText[FirstClose(rawText[1..]).value + 2..];
        ReplaceHTMLLeavesNoTag(rest);
        var tail := ReplaceHTML(rest, " ");
        assert r == " " + tail;
        forall i | 0 <= i < |r| && r[i] == '<'
          ensures FirstClose(r[i + 1..]).None?
        {
          assert r[i] == tail[i - 1];
          assert r[i + 1..] == tail[i - 1 + 1..];
        }
      } else {
        var tail := ReplaceHTML(rawText[1..], " ");
        ReplaceHTMLLeavesNoTag(rawText[1..]);
        assert r == [rawText[0]] + tail;
        forall i | 0 <= i < |r| && r[i] == '<'
          ensures FirstClose(r[i + 1..]).None?
        {
          if i == 0 {
            NoCloseKept(rawText[1..]);
            assert r[1..] == tail;
          } else {
            assert r[i] == tail[i - 1];
            assert r[i + 1..] == tail[i - 1 + 1..];
          }
        }
      }
    }
  }

  /**
   * "<p></p>" holds two tags, so it becomes two copies of the replacement:
   * two spaces by default, where the function's own example shows one.
   */
  lemma ReplaceHTMLTwoTags(toReplace: string)
    ensures ReplaceHTML("<p></p>", toReplace) == toReplace + toReplace
  {
    var s := "<p></p>";
    assert s[1..] == "p></p>";
    assert FirstClose("/p>") == Some(2);
    assert FirstClose("p></p>") == Some(1);
    assert s[3..] == "</p>";
    assert "</p>"[1..] == "/p>";
    assert "</p>"[4..] == [];
    assert ReplaceHTML("</p>", toReplace) == toReplace + [];
  }
}
