/**
 * The class `Arch` of Dataloader/Arch/arch.py: an architecture dataset of
 * image annotations, images and project annotations, indexed by id
 * (`anns`, `imgs`, `pojs`) and grouped into lists (`imgToAnns`,
 * `pojToImgs`, and the category tables `imgCatToImgs` and `pojCatToPojs`
 * keyed by the deepest label of each label hierarchy).
 *
 * A `defaultdict(list)` is a `map` from key to list in which a missing key
 * reads as the empty list (`Lookup`).  Python dicts remember insertion
 * order; `annOrder` holds the keys of `anns` in that order, which is the
 * order `anns.items()` yields them.
 */
module ArchDataset {
  import opened Wrappers
  import opened Multisets

  type Id = int

  /**
   * A label hierarchy: the values of the keys "label1" .. "label5", keyed
   * here by level number; a level that is present but null is `None`, a
   * level missing altogether raises KeyError when it is read.
   */
  type Label = map<int, Option<string>>

  /**
   * An image annotation.  `concateText` and `cutConcateText` are the
   * cleaned text and its tokens that `reverseCharForAllContext` stores.
   */
  datatype Ann = Ann(annotationId: Id, imageId: Id, projectId: Id, labels: Option<seq<Label>>,
                     concateText: string, cutConcateText: seq<string>)

  datatype Image = Image(imageId: Id)

  datatype Project = Project(projectId: Id, projectLabels: Option<seq<Label>>)

  /** The loaded JSON object; a section missing from it is `None`. */
  datatype Dataset = Dataset(imageAnnotations: Option<seq<Ann>>, images: Option<seq<Image>>,
                             projectAnnotations: Option<seq<Project>>)

  function AnnId(a: Ann): Id { a.annotationId }
  function AnnImage(a: Ann): Id { a.imageId }
  function AnnProject(a: Ann): Id { a.projectId }
  function AnnLabels(a: Ann): Option<seq<Label>> { a.labels }
  function AnnItself(a: Ann): Ann { a }
  function ImageId(i: Image): Id { i.imageId }
  function ProjectId(p: Project): Id { p.projectId }
  function ProjectLabels(p: Project): Option<seq<Label>> { p.projectLabels }

  // ---------------------------------------------------------------------
  // extractLastLabel

  /** What level `i` of one label adds: `label{i}` when it is set and `label{i+1}` is not. */
  function Entry(lab: Label, i: int): seq<string>
    requires i in lab && i + 1 in lab
  {
    if lab[i].Some? && lab[i + 1].None? then [lab[i].value] else []
  }

  /**
   * The entries levels 1 .. i-1 of one label add, for 1 <= i <= 5, or
   * KeyError when one of the levels read is missing.
   */
  function LabelEntries(lab: Label, i: int): (r: Result<seq<string>>)
    requires 1 <= i <= 5
    ensures r.Ok? ==> |r.value| <= i - 1
    ensures r.Err? ==> r.error == KeyError
    decreases i
  {
    if i == 1 then Ok([])
    else match LabelEntries(lab, i - 1)
      case Err(e) => Err(e)
      case Ok(s) =>
        if i - 1 !in lab || i !in lab then Err(KeyError) else Ok(s + Entry(lab, i - 1))
  }

  /** The entries of the first `k` labels, in order. */
  function LabelsPrefix(labels: seq<Label>, k: nat): (r: Result<seq<string>>)
    requires k <= |labels|
    ensures r.Ok? ==> |r.value| <= 4 * k
    ensures r.Err? ==> r.error == KeyError
  {
    if k == 0 then Ok([])
    else match LabelsPrefix(labels, k - 1)
      case Err(e) => Err(e)
      case Ok(s) =>
        match LabelEntries(labels[k - 1], 5)
        case Err(e) => Err(e)
        case Ok(t) => Ok(s + t)
  }

  /**
   * `extractLastLabel`: no labels give no entries; otherwise each label
   * adds at most four.
   */
  function LastLabels(labels: Option<seq<Label>>): (r: Result<seq<string>>)
    ensures labels.None? ==> r == Ok([])
    ensures r.Ok? && labels.Some? ==> |r.value| <= 4 * |labels.value|
    ensures r.Err? ==> r.error == KeyError
  {
    if labels.None? then Ok([]) else LabelsPrefix(labels.value, |labels.value|)
  }

  /** `extractLastLabel`: for each label and each level 1 .. 4, the nested loop of the source. */
  method ExtractLastLabel(labels: Option<seq<Label>>) returns (r: Result<seq<string>>)
    ensures r == LastLabels(labels)
  {
    var lastLabels: seq<string> := [];
    if labels.Some? {
      var ls := labels.value;
      for k := 0 to |ls|
        invariant LabelsPrefix(ls, k) == Ok(lastLabels)
      {
        var lab := ls[k];
        ghost var before := lastLabels;
        for i := 1 to 5
          invariant LabelEntries(lab, i).Ok? && lastLabels == before + LabelEntries(lab, i).value
        {
          if i !in lab || i + 1 !in lab {
            assert LabelEntries(lab, i + 1) == Err(KeyError);
            LabelEntriesError(lab, i + 1);
            LabelsPrefixError(ls, k, |ls|);
            return Err(KeyError);
          }
          assert LabelEntries(lab, i + 1) == Ok(LabelEntries(lab, i).value + Entry(lab, i));
          assert before + (LabelEntries(lab, i).value + Entry(lab, i)) == lastLabels + Entry(lab, i);
          if lab[i].Some? && lab[i + 1].None? {
            lastLabels := lastLabels + [lab[i].value];
          } else {
            assert lastLabels + Entry(lab, i) == lastLabels;
          }
        }
        assert LabelsPrefix(ls, k + 1) == Ok(before + LabelEntries(lab, 5).value);
      }
    }
    r := Ok(lastLabels);
  }

  lemma {:induction false} LabelEntriesError(lab: Label, i: int)
    requires 1 <= i <= 5 && LabelEntries(lab, i).Err?
    ensures LabelEntries(lab, 5) == Err(KeyError)
    decreases 5 - i
  {
    if i < 5 {
      LabelEntriesError(lab, i + 1);
    }
  }

  lemma {:induction false} LabelsPrefixError(labels: seq<Label>, k: nat, m: nat)
    requires k < m <= |labels| && LabelsPrefix(labels, k).Ok? && LabelEntries(labels[k], 5) == Err(KeyError)
    ensures LabelsPrefix(labels, m) == Err(KeyError)
    decreases m - k
  {
    if m > k + 1 {
      LabelsPrefixError(labels, k, m - 1);
    }
  }

  /** A label with all five levels present. */
  predicate Complete(lab: Label)
  {
    forall i :: 1 <= i <= 5 ==> i in lab
  }

  /** Labels fail exactly when one of them lacks a level; every failure is KeyError. */
  lemma {:induction false} LabelsPrefixOk(labels: seq<Label>, k: nat)
    requires k <= |labels|
    ensures LabelsPrefix(labels, k).Ok? <==> forall j :: 0 <= j < k ==> Complete(labels[j])
    decreases k
  {
    if k > 0 {
      LabelsPrefixOk(labels, k - 1);
      LabelEntriesOk(labels[k - 1]);
    }
  }

  lemma LabelEntriesOk(lab: Label)
    ensures LabelEntries(lab, 5).Ok? <==> Complete(lab)
  {
    if !Complete(lab) {
      var i :| 1 <= i <= 5 && i !in lab;
      if i == 1 {
        assert LabelEntries(lab, 2).Err?;
      } else {
        assert LabelEntries(lab, i).Err?;
      }
      LabelEntriesError(lab, if i == 1 then 2 else i);
    }
  }

  /**
   * A complete label whose levels 1 .. k are set and the rest null
   * (1 <= k <= 4) adds exactly `label{k}`.
   */
  lemma LabelChain(lab: Label, k: int)
    requires 1 <= k <= 4 && Complete(lab)
    requires forall i :: 1 <= i <= 5 ==> (lab[i].Some? <==> i <= k)
    ensures LabelEntries(lab, 5) == Ok([lab[k].value])
  {
    forall i | 1 <= i <= 4
      ensures Entry(lab, i) == if i == k then [lab[k].value] else []
    {
    }
    assert LabelEntries(lab, 1) == Ok([]);
    assert LabelEntries(lab, 2) == Ok([] + Entry(lab, 1));
    assert LabelEntries(lab, 3) == Ok([] + Entry(lab, 1) + Entry(lab, 2));
    assert LabelEntries(lab, 4) == Ok([] + Entry(lab, 1) + Entry(lab, 2) + Entry(lab, 3));
    assert LabelEntries(lab, 5) == Ok([] + Entry(lab, 1) + Entry(lab, 2) + Entry(lab, 3) + Entry(lab, 4));
    if k == 1 {
      assert [] + [lab[k].value] + [] + [] + [] == [lab[k].value];
    } else if k == 2 {
      assert [] + [] + [lab[k].value] + [] + [] == [lab[k].value];
    } else if k == 3 {
      assert [] + [] + [] + [lab[k].value] + [] == [lab[k].value];
    } else {
      assert [] + [] + [] + [] + [lab[k].value] == [lab[k].value];
    }
  }

  /** A complete label with all five levels set adds nothing. */
  lemma LabelAllSet(lab: Label)
    requires Complete(lab) && forall i :: 1 <= i <= 5 ==> lab[i].Some?
    ensures LabelEntries(lab, 5) == Ok([])
  {
    assert LabelEntries(lab, 1) == Ok([]);
    assert LabelEntries(lab, 2) == Ok([] + []);
    assert LabelEntries(lab, 3) == Ok([] + [] + []);
    assert LabelEntries(lab, 4) == Ok([] + [] + [] + []);
  }

  /**
   * `continue` does not leave the level loop, so one label can add several
   * entries: levels "a", null, "c", null, null add "a" and then "c".
   */
  lemma LabelSeveralEntries()
    ensures LabelEntries(map[1 := Some("a"), 2 := None, 3 := Some("c"), 4 := None, 5 := None], 5) == Ok(["a", "c"])
  {
    var lab: Label := map[1 := Some("a"), 2 := None, 3 := Some("c"), 4 := None, 5 := None];
    assert Entry(lab, 1) == ["a"] && Entry(lab, 2) == [] && Entry(lab, 3) == ["c"] && Entry(lab, 4) == [];
    assert LabelEntries(lab, 1) == Ok([]);
    assert LabelEntries(lab, 2) == Ok([] + ["a"]);
    assert [] + ["a"] == ["a"] && ["a"] + [] == ["a"] && ["a"] + ["c"] == ["a", "c"] && ["a", "c"] + [] == ["a", "c"];
    assert LabelEntries(lab, 3) == Ok(["a"]);
    assert LabelEntries(lab, 4) == Ok(["a", "c"]);
  }

  // ---------------------------------------------------------------------
  // the index tables of createIndex

  /** A `defaultdict(list)` read: a missing key is the empty list. */
  function Lookup<K, V>(m: map<K, seq<V>>, k: K): seq<V>
  {
    if k in m then m[k] else []
  }

  /** `m[k].append(v)` on a `defaultdict(list)`. */
  function Append<K(!new), V>(m: map<K, seq<V>>, k: K, v: V): (r: map<K, seq<V>>)
    ensures r.Keys == m.Keys + {k}
    ensures Lookup(r, k) == Lookup(m, k) + [v]
    ensures forall k' :: k' != k ==> Lookup(r, k') == Lookup(m, k')
  {
    m[k := Lookup(m, k) + [v]]
  }

  /** `d[key(x)] = x` for each `x` in order: the last element with a key wins. */
  function IndexBy<T>(s: seq<T>, key: T -> Id): map<Id, T>
  {
    if s == [] then map[] else IndexBy(s[..|s| - 1], key)[key(s[|s| - 1]) := s[|s| - 1]]
  }

  /** The keys of `IndexBy(s, key)` in the order a Python dict remembers them: first insertion. */
  function KeyOrder<T>(s: seq<T>, key: T -> Id): seq<Id>
  {
    if s == [] then []
    else
      var o := KeyOrder(s[..|s| - 1], key);
      if key(s[|s| - 1]) in o then o else o + [key(s[|s| - 1])]
  }

  /** `d[key(x)].append(value(x))` for each `x` in order. */
  function GroupBy<T, V>(s: seq<T>, key: T -> Id, value: T -> V): map<Id, seq<V>>
  {
    if s == [] then map[] else Append(GroupBy(s[..|s| - 1], key, value), key(s[|s| - 1]), value(s[|s| - 1]))
  }

  /** `m[k].append(v)` for each `k` of `ks`, in order. */
  function AppendAll<V>(m: map<string, seq<V>>, ks: seq<string>, v: V): map<string, seq<V>>
  {
    if ks == [] then m else Append(AppendAll(m, ks[..|ks| - 1], v), ks[|ks| - 1], v)
  }

  /**
   * For each `x` in order, `d[label].append(value(x))` for every label
   * `extractLastLabel` gives for `x`; KeyError at the first incomplete label.
   */
  function LabelIndex<T>(s: seq<T>, labelsOf: T -> Option<seq<Label>>, value: T -> Id): Result<map<string, seq<Id>>>
  {
    if s == [] then Ok(map[])
    else match LabelIndex(s[..|s| - 1], labelsOf, value)
      case Err(e) => Err(e)
      case Ok(m) =>
        match LastLabels(labelsOf(s[|s| - 1]))
        case Err(e) => Err(e)
        case Ok(ls) => Ok(AppendAll(m, ls, value(s[|s| - 1])))
  }

  /** A key is indexed iff some element has it, and it maps to the last such element. */
  lemma {:induction false} IndexByLastWins<T>(s: seq<T>, key: T -> Id)
    ensures forall id :: id in IndexBy(s, key) <==> exists k :: 0 <= k < |s| && key(s[k]) == id
    ensures forall k :: 0 <= k < |s| && (forall j :: k < j < |s| ==> key(s[j]) != key(s[k])) ==>
              IndexBy(s, key)[key(s[k])] == s[k]
    decreases |s|
  {
    if s != [] {
      var init := s[..|s| - 1];
      IndexByLastWins(init, key);
      forall id | id in IndexBy(s, key)
        ensures exists k :: 0 <= k < |s| && key(s[k]) == id
      {
        if id != key(s[|s| - 1]) {
          var k :| 0 <= k < |init| && key(init[k]) == id;
          assert key(s[k]) == id;
        }
      }
      forall k | 0 <= k < |s| && (forall j :: k < j < |s| ==> key(s[j]) != key(s[k]))
        ensures IndexBy(s, key)[key(s[k])] == s[k]
      {
        if k < |s| - 1 {
          assert init[k] == s[k];
        }
      }
    }
  }

  /** The remembered order lists every key once. */
  lemma {:induction false} KeyOrderValid<T>(s: seq<T>, key: T -> Id)
    ensures forall i, j :: 0 <= i < j < |KeyOrder(s, key)| ==> KeyOrder(s, key)[i] != KeyOrder(s, key)[j]
    ensures forall id :: id in KeyOrder(s, key) <==> id in IndexBy(s, key)
    decreases |s|
  {
    if s != [] {
      KeyOrderValid(s[..|s| - 1], key);
    }
  }

  /** The elements of `s` with key `id`, in order. */
  function WithKey<T, V>(s: seq<T>, key: T -> Id, value: T -> V, id: Id): seq<V>
  {
    if s == [] then []
    else WithKey(s[..|s| - 1], key, value, id) + (if key(s[|s| - 1]) == id then [value(s[|s| - 1])] else [])
  }

  /** Grouping lists, under each key, the values of the elements with that key in input order. */
  lemma {:induction false} GroupByFilter<T, V>(s: seq<T>, key: T -> Id, value: T -> V, id: Id)
    ensures Lookup(GroupBy(s, key, value), id) == WithKey(s, key, value, id)
    ensures id in GroupBy(s, key, value) <==> exists k :: 0 <= k < |s| && key(s[k]) == id
    decreases |s|
  {
    if s != [] {
      var init := s[..|s| - 1];
      GroupByFilter(init, key, value, id);
      if id in GroupBy(init, key, value) {
        var k :| 0 <= k < |init| && key(init[k]) == id;
        assert key(s[k]) == id;
      }
      if (exists k :: 0 <= k < |s| && key(s[k]) == id) && key(s[|s| - 1]) != id {
        var k :| 0 <= k < |s| && key(s[k]) == id;
        assert key(init[k]) == id;
      }
    }
  }

  /** `v` repeated `n` times. */
  function Repeat<V>(v: V, n: nat): (r: seq<V>)
    ensures |r| == n && forall i :: 0 <= i < n ==> r[i] == v
  {
    if n == 0 then [] else Repeat(v, n - 1) + [v]
  }

  /** Appending under a list of labels adds one copy of `v` under a label per occurrence of it. */
  lemma {:induction false} AppendAllCount<V>(m: map<string, seq<V>>, ks: seq<string>, v: V, lab: string)
    ensures Lookup(AppendAll(m, ks, v), lab) == Lookup(m, lab) + Repeat(v, multiset(ks)[lab])
    decreases |ks|
  {
    if ks != [] {
      var init := ks[..|ks| - 1];
      var last, k := ks[|ks| - 1], multiset(init)[lab];
      AppendAllCount(m, init, v, lab);
      CountLast(ks, lab);
      var before := AppendAll(m, init, v);
      assert AppendAll(m, ks, v) == Append(before, last, v);
      if last == lab {
        assert Lookup(m, lab) + Repeat(v, k) + [v] == Lookup(m, lab) + Repeat(v, k + 1);
      }
    }
  }

  /** The values of the elements of `s`, each repeated once per time its labels name `label`. */
  function Labelled<T>(s: seq<T>, labelsOf: T -> Option<seq<Label>>, value: T -> Id, lab: string): seq<Id>
    requires forall k :: 0 <= k < |s| ==> LastLabels(labelsOf(s[k])).Ok?
  {
    if s == [] then []
    else Labelled(s[..|s| - 1], labelsOf, value, lab)
         + Repeat(value(s[|s| - 1]), multiset(LastLabels(labelsOf(s[|s| - 1])).value)[lab])
  }

  /**
   * The category index fails (with KeyError) exactly when some element has
   * a label that lacks a level; otherwise each label lists the values of
   * the elements naming it, once per occurrence, in order.
   */
  lemma {:induction false} LabelIndexContents<T>(s: seq<T>, labelsOf: T -> Option<seq<Label>>, value: T -> Id, lab: string)
    ensures LabelIndex(s, labelsOf, value).Ok? <==> forall k :: 0 <= k < |s| ==> LastLabels(labelsOf(s[k])).Ok?
    ensures LabelIndex(s, labelsOf, value).Err? ==> LabelIndex(s, labelsOf, value).error == KeyError
    ensures LabelIndex(s, labelsOf, value).Ok? ==>
              Lookup(LabelIndex(s, labelsOf, value).value, lab) == Labelled(s, labelsOf, value, lab)
    decreases |s|
  {
    if s != [] {
      var init := s[..|s| - 1];
      var last := s[|s| - 1];
      LabelIndexContents(init, labelsOf, value, lab);
      if labelsOf(last).Some? {
        LabelsPrefixOk(labelsOf(last).value, |labelsOf(last).value|);
      }
      if LabelIndex(s, labelsOf, value).Ok? {
        AppendAllCount(LabelIndex(init, labelsOf, value).value, LastLabels(labelsOf(last)).value, value(last), lab);
      }
      if forall k :: 0 <= k < |s| ==> LastLabels(labelsOf(s[k])).Ok? {
        assert forall k :: 0 <= k < |init| ==> init[k] == s[k];
      }
      if !(forall k :: 0 <= k < |s| ==> LastLabels(labelsOf(s[k])).Ok?) && LastLabels(labelsOf(last)).Ok? {
        var k :| 0 <= k < |s| && LastLabels(labelsOf(s[k])).Err?;
        assert init[k] == s[k];
      }
    }
  }

  /** The tables `createIndex` assigns, as functions of the dataset. */
  datatype Index = Index(anns: map<Id, Ann>, annOrder: seq<Id>, imgs: map<Id, Image>, pojs: map<Id, Project>,
                         imgToAnns: map<Id, seq<Ann>>, pojToImgs: map<Id, seq<Id>>,
                         imgCatToImgs: map<string, seq<Id>>, pojCatToPojs: map<string, seq<Id>>)

  /**
   * `createIndex` on a dataset: every section that is present is indexed;
   * `pojToImgs` only when both annotation sections are present.  KeyError
   * from an incomplete label aborts it.
   */
  function IndexOf(d: Dataset): Result<Index>
  {
    var annList := if d.imageAnnotations.Some? then d.imageAnnotations.value else [];
    var imgList := if d.images.Some? then d.images.value else [];
    var pojList := if d.projectAnnotations.Some? then d.projectAnnotations.value else [];
    match LabelIndex(annList, AnnLabels, AnnImage)
    case Err(e) => Err(e)
    case Ok(imgCat) =>
      match LabelIndex(pojList, ProjectLabels, ProjectId)
      case Err(e) => Err(e)
      case Ok(pojCat) =>
        Ok(Index(IndexBy(annList, AnnId), KeyOrder(annList, AnnId), IndexBy(imgList, ImageId),
                 IndexBy(pojList, ProjectId), GroupBy(annList, AnnImage, AnnItself),
                 if d.imageAnnotations.Some? && d.projectAnnotations.Some? then GroupBy(annList, AnnProject, AnnImage) else map[],
                 imgCat, pojCat))
  }

  /** `createIndex` fails, with KeyError, exactly when some annotation or project has an incomplete label. */
  lemma IndexOfOk(d: Dataset)
    ensures var annList := if d.imageAnnotations.Some? then d.imageAnnotations.value else [];
      var pojList := if d.projectAnnotations.Some? then d.projectAnnotations.value else [];
      IndexOf(d).Ok? <==> (forall k :: 0 <= k < |annList| ==> LastLabels(annList[k].labels).Ok?)
                          && (forall k :: 0 <= k < |pojList| ==> LastLabels(pojList[k].projectLabels).Ok?)
    ensures IndexOf(d).Err? ==> IndexOf(d).error == KeyError
  {
    var annList := if d.imageAnnotations.Some? then d.imageAnnotations.value else [];
    var pojList := if d.projectAnnotations.Some? then d.projectAnnotations.value else [];
    LabelIndexContents(annList, AnnLabels, AnnImage, "");
    LabelIndexContents(pojList, ProjectLabels, ProjectId, "");
  }

  /** `Arch`: the dataset and its index tables, which `createIndex` replaces. */
  class Arch {
    var dataset: Dataset
    var anns: map<Id, Ann>
    var annOrder: seq<Id>
    var imgs: map<Id, Image>
    var pojs: map<Id, Project>
    var imgToAnns: map<Id, seq<Ann>>
    var pojToImgs: map<Id, seq<Id>>
    var imgCatToImgs: map<string, seq<Id>>
    var pojCatToPojs: map<string, seq<Id>>

    /** The tables, as one value. */
    function Tables(): Index
      reads this
    {
      Index(anns, annOrder, imgs, pojs, imgToAnns, pojToImgs, imgCatToImgs, pojCatToPojs)
    }

    /** `annOrder` lists each key of `anns` once. */
    ghost predicate Valid()
      reads this
    {
      (forall i, j :: 0 <= i < j < |annOrder| ==> annOrder[i] != annOrder[j])
        && forall id :: id in annOrder <==> id in anns
    }

    /** `Arch()` with no annotation file: every table empty. */
    constructor ()
      ensures dataset == Dataset(None, None, None)
      ensures Tables() == Index(map[], [], map[], map[], map[], map[], map[], map[])
      ensures Valid()
    {
      dataset := Dataset(None, None, None);
      anns, annOrder, imgs, pojs := map[], [], map[], map[];
      imgToAnns, pojToImgs, imgCatToImgs, pojCatToPojs := map[], map[], map[], map[];
    }

    /**
     * `createIndex`: builds every table in local variables and assigns all
     * of them at the end, so KeyError leaves the object unchanged.
     */
    method CreateIndex() returns (r: Result<()>)
      modifies this
      ensures dataset == old(dataset)
      ensures r.Ok? <==> IndexOf(dataset).Ok?
      ensures r.Err? ==> r.error == KeyError && Tables() == old(Tables())
      ensures r.Ok? ==> Tables() == IndexOf(dataset).value
      ensures r.Ok? ==> Valid()
      ensures old(Valid()) ==> Valid()
    {
      var index := BuildIndex(dataset);
      if index.Err? {
        return Err(index.error);
      }
      var x := index.value;
      anns, annOrder, imgs, pojs := x.anns, x.annOrder, x.imgs, x.pojs;
      imgToAnns, pojToImgs, imgCatToImgs, pojCatToPojs := x.imgToAnns, x.pojToImgs, x.imgCatToImgs, x.pojCatToPojs;
      IndexValid(dataset);
      r := Ok(());
    }
  }

  /** The loops of `createIndex`, filling local tables; KeyError from an incomplete label. */
  method BuildIndex(d: Dataset) returns (r: Result<Index>)
    ensures r == IndexOf(d)
    ensures r.Err? ==> r.error == KeyError
  {
    var annList := if d.imageAnnotations.Some? then d.imageAnnotations.value else [];
    var imgList := if d.images.Some? then d.images.value else [];
    var pojList := if d.projectAnnotations.Some? then d.projectAnnotations.value else [];
    IndexOfOk(d);
    var annTables := IndexAnnotations(annList);
    if annTables.Err? {
      return Err(annTables.error);
    }
    var imgsNew := IndexImages(imgList);
    var pojTables := IndexProjects(pojList);
    if pojTables.Err? {
      return Err(pojTables.error);
    }
    var pojToImgsNew: map<Id, seq<Id>> := map[];
    if d.imageAnnotations.Some? && d.projectAnnotations.Some? {
      pojToImgsNew := LinkProjects(annList);
    }
    var t, p := annTables.value, pojTables.value;
    r := Ok(Index(t.anns, t.order, imgsNew, p.pojs, t.imgToAnns, pojToImgsNew, t.imgCat, p.pojCat));
  }

  /** The tables the loop over `imageAnnotations` fills. */
  datatype AnnTables = AnnTables(anns: map<Id, Ann>, order: seq<Id>, imgToAnns: map<Id, seq<Ann>>,
                                 imgCat: map<string, seq<Id>>)

  /** The tables the loop over `projectAnnotations` fills. */
  datatype PojTables = PojTables(pojs: map<Id, Project>, pojCat: map<string, seq<Id>>)

  /** The loop of `createIndex` over `imageAnnotations`. */
  method IndexAnnotations(annList: seq<Ann>) returns (r: Result<AnnTables>)
    ensures r.Ok? <==> LabelIndex(annList, AnnLabels, AnnImage).Ok?
    ensures r.Err? ==> r.error == KeyError
    ensures r.Ok? ==> r.value == AnnTables(IndexBy(annList, AnnId), KeyOrder(annList, AnnId),
                                           GroupBy(annList, AnnImage, AnnItself),
                                           LabelIndex(annList, AnnLabels, AnnImage).value)
  {
    var annsNew: map<Id, Ann> := map[];
    var order: seq<Id> := [];
    var imgToAnnsNew: map<Id, seq<Ann>> := map[];
    var imgCat: map<string, seq<Id>> := map[];
    for k := 0 to |annList|
      invariant annsNew == IndexBy(annList[..k], AnnId) && order == KeyOrder(annList[..k], AnnId)
      invariant imgToAnnsNew == GroupBy(annList[..k], AnnImage, AnnItself)
      invariant LabelIndex(annList[..k], AnnLabels, AnnImage) == Ok(imgCat)
    {
      var ann := annList[k];
      assert annList[..k + 1][..k] == annList[..k];
      imgToAnnsNew := Append(imgToAnnsNew, ann.imageId, ann);
      if ann.annotationId !in order {
        order := order + [ann.annotationId];
      }
      annsNew := annsNew[ann.annotationId := ann];
      var labels := ExtractLastLabel(ann.labels);
      if labels.Err? {
        LabelIndexPrefixError(annList, AnnLabels, AnnImage, k + 1);
        LabelIndexContents(annList, AnnLabels, AnnImage, "");
        return Err(labels.error);
      }
      imgCat := AddLabels(imgCat, labels.value, ann.imageId);
    }
    assert annList[..|annList|] == annList;
    r := Ok(AnnTables(annsNew, order, imgToAnnsNew, imgCat));
  }

  /** The loop of `createIndex` over `images`. */
  method IndexImages(imgList: seq<Image>) returns (imgs: map<Id, Image>)
    ensures imgs == IndexBy(imgList, ImageId)
  {
    imgs := map[];
    for k := 0 to |imgList|
      invariant imgs == IndexBy(imgList[..k], ImageId)
    {
      assert imgList[..k + 1][..k] == imgList[..k];
      imgs := imgs[imgList[k].imageId := imgList[k]];
    }
    assert imgList[..|imgList|] == imgList;
  }

  /** The loop of `createIndex` over `projectAnnotations`. */
  method IndexProjects(pojList: seq<Project>) returns (r: Result<PojTables>)
    ensures r.Ok? <==> LabelIndex(pojList, ProjectLabels, ProjectId).Ok?
    ensures r.Err? ==> r.error == KeyError
    ensures r.Ok? ==> r.value == PojTables(IndexBy(pojList, ProjectId), LabelIndex(pojList, ProjectLabels, ProjectId).value)
  {
    var pojsNew: map<Id, Project> := map[];
    var pojCat: map<string, seq<Id>> := map[];
    for k := 0 to |pojList|
      invariant pojsNew == IndexBy(pojList[..k], ProjectId)
      invariant LabelIndex(pojList[..k], ProjectLabels, ProjectId) == Ok(pojCat)
    {
      var poj := pojList[k];
      assert pojList[..k + 1][..k] == pojList[..k];
      pojsNew := pojsNew[poj.projectId := poj];
      var labels := ExtractLastLabel(poj.projectLabels);
      if labels.Err? {
        LabelIndexPrefixError(pojList, ProjectLabels, ProjectId, k + 1);
        LabelIndexContents(pojList, ProjectLabels, ProjectId, "");
        return Err(labels.error);
      }
      pojCat := AddLabels(pojCat, labels.value, poj.projectId);
    }
    assert pojList[..|pojList|] == pojList;
    r := Ok(PojTables(pojsNew, pojCat));
  }

  /** The loop of `createIndex` that fills `pojToImgs`. */
  method LinkProjects(annList: seq<Ann>) returns (pojToImgs: map<Id, seq<Id>>)
    ensures pojToImgs == GroupBy(annList, AnnProject, AnnImage)
  {
    pojToImgs := map[];
    for k := 0 to |annList|
      invariant pojToImgs == GroupBy(annList[..k], AnnProject, AnnImage)
    {
      assert annList[..k + 1][..k] == annList[..k];
      pojToImgs := Append(pojToImgs, annList[k].projectId, annList[k].imageId);
    }
    assert annList[..|annList|] == annList;
  }

  /** The inner loop `for label in ...: d[label].append(value)`. */
  method AddLabels(m: map<string, seq<Id>>, labels: seq<string>, value: Id) returns (r: map<string, seq<Id>>)
    ensures r == AppendAll(m, labels, value)
  {
    r := m;
    for i := 0 to |labels|
      invariant r == AppendAll(m, labels[..i], value)
    {
      assert labels[..i + 1][..i] == labels[..i];
      r := Append(r, labels[i], value);
    }
    assert labels[..|labels|] == labels;
  }

  lemma {:induction false} LabelIndexPrefixError<T>(s: seq<T>, labelsOf: T -> Option<seq<Label>>, value: T -> Id, k: nat)
    requires 0 < k <= |s| && LabelIndex(s[..k - 1], labelsOf, value).Ok? && LastLabels(labelsOf(s[k - 1])).Err?
    ensures LabelIndex(s, labelsOf, value).Err?
    decreases |s| - k
  {
    assert s[..k][..k - 1] == s[..k - 1];
    if k == |s| {
      assert s[..k] == s;
    } else {
      LabelIndexContents(s[..k], labelsOf, value, "");
      LabelIndexContents(s, labelsOf, value, "");
      assert s[k - 1] == s[..k][k - 1];
    }
  }

  /** Indexing keeps `annOrder` a duplicate-free list of the keys of `anns`. */
  lemma IndexValid(d: Dataset)
    requires IndexOf(d).Ok?
    ensures var t := IndexOf(d).value;
      (forall i, j :: 0 <= i < j < |t.annOrder| ==> t.annOrder[i] != t.annOrder[j])
        && forall id :: id in t.annOrder <==> id in t.anns
  {
    var annList := if d.imageAnnotations.Some? then d.imageAnnotations.value else [];
    KeyOrderValid(annList, AnnId);
  }

  /**
   * `NewArch(dataset)`: `Arch(annotationFile)` once the JSON is loaded:
   * the empty object, then `createIndex`; KeyError escapes the constructor.
   */
  method NewArch(dataset: Dataset) returns (r: Result<Arch>)
    ensures r.Ok? <==> IndexOf(dataset).Ok?
    ensures r.Err? ==> r.error == KeyError
    ensures r.Ok? ==> fresh(r.value) && r.value.dataset == dataset && r.value.Tables() == IndexOf(dataset).value
                      && r.value.Valid()
  {
    var a := new Arch();
    a.dataset := dataset;
    var created := a.CreateIndex();
    if created.Err? {
      return Err(created.error);
    }
    r := Ok(a);
  }
}
