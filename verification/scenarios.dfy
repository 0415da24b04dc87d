/**
 Concrete cases: the documentation test of the repository, a nested
 example (a changed `owner` dict and a changed `size`, compared and
 filtered), and a list whose elements only changed order.
 */
module Scenarios {

  import opened Wrappers
  import opened Trees
  import opened Paths
  import opened Deltas
  import opened DictNs
  import opened Recording
  import opened CompareLaws

  // ---------------------------------------------------------------------
  // documentNamespace on {'a': [{'b': {'c': 1}}]}
  // ---------------------------------------------------------------------

  const Listed: map<string, Tree> := map["a" := Arr([Obj(map["b" := Obj(map["c" := Int(1)])])])]

  lemma PickSingle(k: string)
    ensures Pick({k}) == k
  {
  }

  lemma DocumentSingle(n: map<string, Tree>, parent: Option<string>, k: string)
    requires n.Keys == {k}
    ensures DocumentLines(n, parent) == DocItem(AppendToParent(parent, k), n[k])
  {
    PickSingle(k);
    assert DocumentKeys(n, parent, {}) == [];
    assert DocumentKeys(n, parent, {k}) == DocItem(AppendToParent(parent, k), n[k]) + [];
  }

  const ListedLines: seq<Line> :=
    [Line("a", "list"), Line("a[i]", "dict"), Line("a[i].b", "dict"), Line("a[i].b.c", "int")]

  lemma ListedInner()
    ensures DocItem("a[i]", Obj(map["b" := Obj(map["c" := Int(1)])])) == ListedLines[1..]
  {
    var c := map["c" := Int(1)];
    var b := map["b" := Obj(c)];
    DocumentSingle(c, Some("a[i].b"), "c");
    assert AppendToParent(Some("a[i].b"), "c") == "a[i].b.c";
    assert DocItem("a[i].b.c", Int(1)) == [Line("a[i].b.c", "int")];
    DocumentSingle(b, Some("a[i]"), "b");
    assert AppendToParent(Some("a[i]"), "b") == "a[i].b";
    assert DocItem("a[i].b", Obj(c)) == [Line("a[i].b", "dict"), Line("a[i].b.c", "int")];
  }

  /** The documentation test, line by line: `a` is a list, documented through its first element under `a[i]`. */
  lemma DocumentListedLines()
    ensures DocumentLines(Listed, None) == ListedLines
  {
    var b := map["b" := Obj(map["c" := Int(1)])];
    ListedInner();
    assert "a" + "[i]" == "a[i]";
    assert DocItem("a", Arr([Obj(b)])) == [Line("a", "list")] + DocItem("a[i]", Obj(b));
    DocumentSingle(Listed, None, "a");
  }

  /** Rendering one more line in front puts its text in front. */
  lemma RenderCons(l: Line, text: string, rest: seq<Line>, tail: string)
    requires text == l.path + " -> " + l.typeName + "\n"
    requires Render(rest) == tail
    ensures Render([l] + rest) == text + tail
  {
    assert ([l] + rest)[1..] == rest;
  }

  lemma RenderListed()
    ensures Render(ListedLines) == "a -> list\n" + "a[i] -> dict\n" + "a[i].b -> dict\n" + "a[i].b.c -> int\n"
  {
    var l0, l1, l2, l3 := Line("a", "list"), Line("a[i]", "dict"), Line("a[i].b", "dict"), Line("a[i].b.c", "int");
    RenderCons(l3, "a[i].b.c -> int\n", [], "");
    assert [l3] + [] == [l3];
    RenderCons(l2, "a[i].b -> dict\n", [l3], "a[i].b.c -> int\n");
    RenderCons(l1, "a[i] -> dict\n", [l2, l3], "a[i].b -> dict\n" + "a[i].b.c -> int\n");
    assert [l1] + [l2, l3] == ListedLines[1..];
    RenderCons(l0, "a -> list\n", ListedLines[1..], "a[i] -> dict\n" + ("a[i].b -> dict\n" + "a[i].b.c -> int\n"));
    assert [l0] + ListedLines[1..] == ListedLines;
  }

  /** The documentation test as text: dicts are reported as `dict`, the integer leaf as `int`. */
  lemma DocumentListed()
    ensures DocumentNamespace(Listed, None) == "a -> list\n" + "a[i] -> dict\n" + "a[i].b -> dict\n" + "a[i].b.c -> int\n"
  {
    DocumentListedLines();
    RenderListed();
  }

  // ---------------------------------------------------------------------
  // compareNamespace and filterDelta on a nested example: a changed `owner` dict and a changed `size`
  // ---------------------------------------------------------------------

  const OwnerBefore: map<string, Tree> := map["name" := Str("bob"), "age" := Int(12), "nationality" := Str("French")]
  const OwnerAfter: map<string, Tree> := map["name" := Str("john"), "age" := Int(12), "genre" := Str("M")]
  const Before: map<string, Tree> :=
    map["color" := Str("red"), "size" := Int(5), "form" := Str("square"), "owner" := Obj(OwnerBefore)]
  const After: map<string, Tree> :=
    map["color" := Str("red"), "size" := Int(8), "owner" := Obj(OwnerAfter), "protected" := Bool(true)]

  /** A key that is not a dict on both sides records its own path and nothing below it. */
  lemma LeafRecorded(before: map<string, Tree>, after: map<string, Tree>, parent: Option<string>,
                     k: string, st: State)
    requires !(Get(before, k).Obj? && Get(after, k).Obj?)
    ensures RecordedFor(before, after, parent, k, st)
         == if Classify(before, after, k) == st then {AppendToParent(parent, k)} else {}
  {
  }

  /** What each key of the two `owner` dicts records. */
  lemma OwnerKeys(st: State)
    ensures RecordedFor(OwnerBefore, OwnerAfter, Some("owner"), "name", st)
         == if st == Changed then {"owner.name"} else {}
    ensures RecordedFor(OwnerBefore, OwnerAfter, Some("owner"), "age", st)
         == if st == Unchanged then {"owner.age"} else {}
    ensures RecordedFor(OwnerBefore, OwnerAfter, Some("owner"), "nationality", st)
         == if st == Removed then {"owner.nationality"} else {}
    ensures RecordedFor(OwnerBefore, OwnerAfter, Some("owner"), "genre", st)
         == if st == Added then {"owner.genre"} else {}
  {
    var b, a, p := OwnerBefore, OwnerAfter, Some("owner");
    assert Classify(b, a, "name") == Changed;
    assert Classify(b, a, "age") == Unchanged;
    assert Classify(b, a, "nationality") == Removed;
    assert Classify(b, a, "genre") == Added;
    assert AppendToParent(p, "name") == "owner.name";
    assert AppendToParent(p, "age") == "owner.age";
    assert AppendToParent(p, "nationality") == "owner.nationality";
    assert AppendToParent(p, "genre") == "owner.genre";
    LeafRecorded(b, a, p, "name", st);
    LeafRecorded(b, a, p, "age", st);
    LeafRecorded(b, a, p, "nationality", st);
    LeafRecorded(b, a, p, "genre", st);
  }

  lemma RecordedOne(before: map<string, Tree>, after: map<string, Tree>, parent: Option<string>,
                    k: string, st: State)
    ensures RecordedOver(before, after, parent, {k}, st) == RecordedFor(before, after, parent, k, st)
  {
    RecordedOverSplit(before, after, parent, {k}, k, st);
    assert {k} - {k} == {};
    RecordedOverNone(before, after, parent, st);
  }

  /** A level with four keys records what its four keys record. */
  lemma RecordedFour(before: map<string, Tree>, after: map<string, Tree>, parent: Option<string>,
                     k1: string, k2: string, k3: string, k4: string, st: State)
    requires before.Keys + after.Keys == {k1, k2, k3, k4}
    ensures Recorded(before, after, parent, st)
         == RecordedFor(before, after, parent, k1, st) + RecordedFor(before, after, parent, k2, st)
          + RecordedFor(before, after, parent, k3, st) + RecordedFor(before, after, parent, k4, st)
  {
    assert {k1, k2, k3, k4} == {k1} + {k2} + {k3} + {k4};
    RecordedOverUnion(before, after, parent, {k1} + {k2} + {k3}, {k4}, st);
    RecordedOverUnion(before, after, parent, {k1} + {k2}, {k3}, st);
    RecordedOverUnion(before, after, parent, {k1}, {k2}, st);
    RecordedOne(before, after, parent, k1, st);
    RecordedOne(before, after, parent, k2, st);
    RecordedOne(before, after, parent, k3, st);
    RecordedOne(before, after, parent, k4, st);
  }

  /** The paths the comparison of the two `owner` dicts records, bucket by bucket. */
  lemma OwnerRecorded(st: State)
    ensures Recorded(OwnerBefore, OwnerAfter, Some("owner"), st)
         == (if st == Changed then {"owner.name"} else {})
          + (if st == Unchanged then {"owner.age"} else {})
          + (if st == Removed then {"owner.nationality"} else {})
          + (if st == Added then {"owner.genre"} else {})
  {
    assert OwnerBefore.Keys + OwnerAfter.Keys == {"name", "age", "nationality", "genre"};
    RecordedFour(OwnerBefore, OwnerAfter, Some("owner"), "name", "age", "nationality", "genre", st);
    OwnerKeys(st);
  }

  /** A level with five keys records what its five keys record. */
  lemma RecordedFive(before: map<string, Tree>, after: map<string, Tree>, parent: Option<string>,
                     k1: string, k2: string, k3: string, k4: string, k5: string, st: State)
    requires before.Keys + after.Keys == {k1, k2, k3, k4, k5}
    ensures Recorded(before, after, parent, st)
         == RecordedFor(before, after, parent, k1, st) + RecordedFor(before, after, parent, k2, st)
          + RecordedFor(before, after, parent, k3, st) + RecordedFor(before, after, parent, k4, st)
          + RecordedFor(before, after, parent, k5, st)
  {
    assert {k1, k2, k3, k4, k5} == {k1} + {k2} + {k3} + {k4} + {k5};
    RecordedOverUnion(before, after, parent, {k1} + {k2} + {k3} + {k4}, {k5}, st);
    RecordedOverUnion(before, after, parent, {k1} + {k2} + {k3}, {k4}, st);
    RecordedOverUnion(before, after, parent, {k1} + {k2}, {k3}, st);
    RecordedOverUnion(before, after, parent, {k1}, {k2}, st);
    RecordedOne(before, after, parent, k1, st);
    RecordedOne(before, after, parent, k2, st);
    RecordedOne(before, after, parent, k3, st);
    RecordedOne(before, after, parent, k4, st);
    RecordedOne(before, after, parent, k5, st);
  }

  /** What each key of the example records; `owner`, a dict on both sides, adds what its child comparison records. */
  lemma TopKeys(st: State)
    ensures RecordedFor(Before, After, None, "color", st) == if st == Unchanged then {"color"} else {}
    ensures RecordedFor(Before, After, None, "size", st) == if st == Changed then {"size"} else {}
    ensures RecordedFor(Before, After, None, "form", st) == if st == Removed then {"form"} else {}
    ensures RecordedFor(Before, After, None, "protected", st) == if st == Added then {"protected"} else {}
    ensures RecordedFor(Before, After, None, "owner", st)
         == (if st == Changed then {"owner"} else {}) + Recorded(OwnerBefore, OwnerAfter, Some("owner"), st)
  {
    var b, a := Before, After;
    assert Classify(b, a, "color") == Unchanged;
    assert Classify(b, a, "size") == Changed;
    assert Classify(b, a, "form") == Removed;
    assert Classify(b, a, "protected") == Added;
    assert OwnerBefore != OwnerAfter by { assert "genre" in OwnerAfter; }
    assert Classify(b, a, "owner") == Changed;
    assert Recurses(b, a, "owner");
    LeafRecorded(b, a, None, "color", st);
    LeafRecorded(b, a, None, "size", st);
    LeafRecorded(b, a, None, "form", st);
    LeafRecorded(b, a, None, "protected", st);
  }

  lemma TopSplit(st: State)
    ensures Recorded(Before, After, None, st)
         == RecordedFor(Before, After, None, "color", st) + RecordedFor(Before, After, None, "size", st)
          + RecordedFor(Before, After, None, "form", st) + RecordedFor(Before, After, None, "owner", st)
          + RecordedFor(Before, After, None, "protected", st)
  {
    assert Before.Keys + After.Keys == {"color", "size", "form", "owner", "protected"};
    RecordedFive(Before, After, None, "color", "size", "form", "owner", "protected", st);
  }

  /** The set algebra of `TopRecorded`, apart from the functions it is about. */
  lemma TopAssemble(st: State, color: set<string>, size: set<string>, form: set<string>,
                    owner: set<string>, protected: set<string>)
    requires color == if st == Unchanged then {"color"} else {}
    requires size == if st == Changed then {"size"} else {}
    requires form == if st == Removed then {"form"} else {}
    requires protected == if st == Added then {"protected"} else {}
    requires owner == (if st == Changed then {"owner"} else {})
                    + ((if st == Changed then {"owner.name"} else {})
                     + (if st == Unchanged then {"owner.age"} else {})
                     + (if st == Removed then {"owner.nationality"} else {})
                     + (if st == Added then {"owner.genre"} else {}))
    ensures color + size + form + owner + protected
         == (if st == Changed then {"size", "owner", "owner.name"} else {})
          + (if st == Unchanged then {"color", "owner.age"} else {})
          + (if st == Removed then {"form", "owner.nationality"} else {})
          + (if st == Added then {"protected", "owner.genre"} else {})
  {
  }

  /** The paths the comparison of the example records, bucket by bucket, before filtering. */
  lemma TopRecorded(st: State)
    ensures Recorded(Before, After, None, st)
         == (if st == Changed then {"size", "owner", "owner.name"} else {})
          + (if st == Unchanged then {"color", "owner.age"} else {})
          + (if st == Removed then {"form", "owner.nationality"} else {})
          + (if st == Added then {"protected", "owner.genre"} else {})
  {
    TopSplit(st);
    TopKeys(st);
    OwnerRecorded(st);
    TopAssemble(st, RecordedFor(Before, After, None, "color", st), RecordedFor(Before, After, None, "size", st),
                RecordedFor(Before, After, None, "form", st), RecordedFor(Before, After, None, "owner", st),
                RecordedFor(Before, After, None, "protected", st));
  }

  /** The delta of the example, before filtering. */
  ghost const Diff: Delta := CompareNamespace(Before, After, None)

  /** The delta of the two `owner` dicts, which the example's delta embeds. */
  ghost const OwnerDiff: Delta := CompareNamespace(OwnerBefore, OwnerAfter, Some("owner"))

  lemma ExampleDotFree()
    ensures KeysDotFree(Before.Keys + After.Keys)
    ensures KeysDotFree(OwnerBefore.Keys + OwnerAfter.Keys)
    ensures Recurses(Before, After, "owner")
    ensures Before["owner"].fields == OwnerBefore && After["owner"].fields == OwnerAfter
  {
    assert Before.Keys + After.Keys == {"color", "size", "form", "owner", "protected"};
    assert OwnerBefore.Keys + OwnerAfter.Keys == {"name", "age", "nationality", "genre"};
    assert OwnerBefore != OwnerAfter by { assert "genre" in OwnerAfter; }
  }

  lemma OwnerChanged()
    ensures Classify(Before, After, "owner") == Changed
  {
    assert OwnerBefore != OwnerAfter by { assert "genre" in OwnerAfter; }
  }

  /** A top-level key of the example is recorded under its own name, with no parent. */
  lemma TopEntry(k: string)
    requires k in Before || k in After
    ensures k in Diff.Get(Classify(Before, After, k))
    ensures Diff.Get(Classify(Before, After, k))[k] == Entry(None, Get(Before, k), Get(After, k))
  {
    ExampleDotFree();
    CompareRecordsKey(Before, After, None, k);
  }

  /** A key of the `owner` dicts is recorded under `owner.<key>`, with parent `owner`, in the example's delta. */
  lemma OwnerEntry(k: string)
    requires k in OwnerBefore || k in OwnerAfter
    ensures "owner." + k in Diff.Get(Classify(OwnerBefore, OwnerAfter, k))
    ensures Diff.Get(Classify(OwnerBefore, OwnerAfter, k))["owner." + k]
         == Entry(Some("owner"), Get(OwnerBefore, k), Get(OwnerAfter, k))
  {
    var st := Classify(OwnerBefore, OwnerAfter, k);
    var q := "owner." + k;
    ExampleDotFree();
    CompareRecordsKey(OwnerBefore, OwnerAfter, Some("owner"), k);
    assert AppendToParent(Some("owner"), k) == q;
    assert q in OwnerDiff.Get(st) && OwnerDiff.Get(st)[q] == Entry(Some("owner"), Get(OwnerBefore, k), Get(OwnerAfter, k));
    assert AppendToParent(None, "owner") == "owner";
    CompareEmbedsChild(Before, After, None, "owner", st, q);
  }

  /** Filtering a bucket of two entries, neither the parent of the other, keeps both. */
  lemma PruneTwo(b: Bucket, x: string, y: string)
    requires b.Keys == {x, y}
    requires b[x].parent != Some(y) && b[y].parent != Some(x)
    requires b[x].parent != Some(x) && b[y].parent != Some(y)
    ensures Prune(b) == map[x := b[x], y := b[y]]
  {
  }

  /** Filtering a bucket whose entry `y` names `o` as its parent drops `o` and keeps the others. */
  lemma PruneThree(b: Bucket, x: string, o: string, y: string)
    requires b.Keys == {x, o, y}
    requires b[y].parent == Some(o)
    requires forall j :: j in b ==> b[j].parent != Some(x) && b[j].parent != Some(y)
    ensures Prune(b) == map[x := b[x], y := b[y]]
  {
  }

  /**
   The example after filtering, changed bucket: `size` and `owner.name`;
   `owner` itself is dropped because `owner.name` names it as its parent.
   */
  lemma ExampleChanged()
    ensures Diff.changed.Keys == {"size", "owner", "owner.name"}
    ensures Prune(Diff.changed)
         == map["size" := Entry(None, Int(5), Int(8)),
                "owner.name" := Entry(Some("owner"), Str("bob"), Str("john"))]
  {
    CompareKeys(Before, After, None, Changed);
    TopRecorded(Changed);
    ChangedEntries();
    PruneThree(Diff.changed, "size", "owner", "owner.name");
  }

  lemma ChangedEntries()
    ensures "size" in Diff.changed && Diff.changed["size"] == Entry(None, Int(5), Int(8))
    ensures "owner" in Diff.changed && Diff.changed["owner"].parent == None
    ensures "owner.name" in Diff.changed
         && Diff.changed["owner.name"] == Entry(Some("owner"), Str("bob"), Str("john"))
  {
    assert Classify(Before, After, "size") == Changed;
    TopEntry("size");
    OwnerChanged();
    TopEntry("owner");
    assert Classify(OwnerBefore, OwnerAfter, "name") == Changed;
    OwnerEntry("name");
    assert "owner." + "name" == "owner.name";
  }

  /** A bucket of one top-level entry and one entry under `o`, neither of them `o` itself, survives filtering whole. */
  lemma PruneTopAndOwner(b: Bucket, x: string, y: string, o: string)
    requires b.Keys == {x, y}
    requires b[x].parent == None && b[y].parent == Some(o)
    requires o != x && o != y
    ensures Prune(b) == map[x := b[x], y := b[y]]
  {
    PruneTwo(b, x, y);
  }

  /** The example after filtering, unchanged bucket: `color` and `owner.age`. */
  lemma ExampleKept()
    ensures Prune(Diff.kept)
         == map["color" := Entry(None, Str("red"), Str("red")),
                "owner.age" := Entry(Some("owner"), Int(12), Int(12))]
  {
    KeptEntries();
    PruneTopAndOwner(Diff.kept, "color", "owner.age", "owner");
  }

  lemma KeptKeys()
    ensures Diff.kept.Keys == {"color", "owner.age"}
  {
    CompareKeys(Before, After, None, Unchanged);
    TopRecorded(Unchanged);
  }

  lemma KeptEntries()
    ensures Diff.kept.Keys == {"color", "owner.age"}
    ensures Diff.kept["color"] == Entry(None, Str("red"), Str("red"))
    ensures Diff.kept["owner.age"] == Entry(Some("owner"), Int(12), Int(12))
  {
    KeptKeys();
    assert Classify(Before, After, "color") == Unchanged;
    assert Classify(OwnerBefore, OwnerAfter, "age") == Unchanged;
    TopEntry("color");
    OwnerEntry("age");
  }

  /** The example after filtering, added bucket: `protected` and `owner.genre`, with no old value. */
  lemma ExampleAdded()
    ensures Prune(Diff.added)
         == map["protected" := Entry(None, Null, Bool(true)),
                "owner.genre" := Entry(Some("owner"), Null, Str("M"))]
  {
    AddedEntries();
    PruneTopAndOwner(Diff.added, "protected", "owner.genre", "owner");
  }

  lemma AddedKeys()
    ensures Diff.added.Keys == {"protected", "owner.genre"}
  {
    CompareKeys(Before, After, None, Added);
    TopRecorded(Added);
  }

  lemma AddedEntries()
    ensures Diff.added.Keys == {"protected", "owner.genre"}
    ensures Diff.added["protected"] == Entry(None, Null, Bool(true))
    ensures Diff.added["owner.genre"] == Entry(Some("owner"), Null, Str("M"))
  {
    AddedKeys();
    assert Classify(Before, After, "protected") == Added;
    assert Classify(OwnerBefore, OwnerAfter, "genre") == Added;
    TopEntry("protected");
    OwnerEntry("genre");
  }

  /** The example after filtering, removed bucket: `form` and `owner.nationality`, with no new value. */
  lemma ExampleRemoved()
    ensures Prune(Diff.removed)
         == map["form" := Entry(None, Str("square"), Null),
                "owner.nationality" := Entry(Some("owner"), Str("French"), Null)]
  {
    RemovedEntries();
    PruneTopAndOwner(Diff.removed, "form", "owner.nationality", "owner");
  }

  lemma RemovedKeys()
    ensures Diff.removed.Keys == {"form", "owner.nationality"}
  {
    CompareKeys(Before, After, None, Removed);
    TopRecorded(Removed);
  }

  lemma RemovedEntries()
    ensures Diff.removed.Keys == {"form", "owner.nationality"}
    ensures Diff.removed["form"] == Entry(None, Str("square"), Null)
    ensures Diff.removed["owner.nationality"] == Entry(Some("owner"), Str("French"), Null)
  {
    RemovedKeys();
    assert Classify(Before, After, "form") == Removed;
    assert Classify(OwnerBefore, OwnerAfter, "nationality") == Removed;
    TopEntry("form");
    OwnerEntry("nationality");
  }

  // ---------------------------------------------------------------------
  // Lists are compared whole: reordering one is a change
  // ---------------------------------------------------------------------

  const Ordered: map<string, Tree> := map["l" := Arr([Int(1), Int(2)])]
  const Reordered: map<string, Tree> := map["l" := Arr([Int(2), Int(1)])]

  /** A level with one key records what that key records. */
  lemma RecordedSingle(before: map<string, Tree>, after: map<string, Tree>, parent: Option<string>,
                       k: string, st: State)
    requires before.Keys + after.Keys == {k}
    ensures Recorded(before, after, parent, st) == RecordedFor(before, after, parent, k, st)
  {
    RecordedOne(before, after, parent, k, st);
  }

  lemma ReorderedChanged()
    ensures Ordered.Keys + Reordered.Keys == {"l"}
    ensures Classify(Ordered, Reordered, "l") == Changed
  {
    assert Ordered["l"].items[0] != Reordered["l"].items[0];
  }

  /** A one-key level whose key is not a dict on both sides records that key's path in the bucket of its state. */
  lemma SingleLeafRecorded(before: map<string, Tree>, after: map<string, Tree>, parent: Option<string>,
                           k: string, st: State)
    requires before.Keys + after.Keys == {k}
    requires !(Get(before, k).Obj? && Get(after, k).Obj?)
    ensures Recorded(before, after, parent, st)
         == if Classify(before, after, k) == st then {AppendToParent(parent, k)} else {}
  {
    RecordedSingle(before, after, parent, k, st);
    LeafRecorded(before, after, parent, k, st);
  }

  lemma ReorderedRecorded(st: State)
    ensures Recorded(Ordered, Reordered, None, st) == if st == Changed then {"l"} else {}
  {
    ReorderedChanged();
    SingleLeafRecorded(Ordered, Reordered, None, "l", st);
  }

  lemma ReorderedKeys(st: State)
    ensures CompareNamespace(Ordered, Reordered, None).Get(st).Keys == if st == Changed then {"l"} else {}
  {
    CompareKeys(Ordered, Reordered, None, st);
    ReorderedRecorded(st);
  }

  lemma ReorderedEntry()
    ensures "l" in CompareNamespace(Ordered, Reordered, None).changed
    ensures CompareNamespace(Ordered, Reordered, None).changed["l"]
         == Entry(None, Arr([Int(1), Int(2)]), Arr([Int(2), Int(1)]))
  {
    ReorderedChanged();
    CompareRecordsKey(Ordered, Reordered, None, "l");
  }

  /** Two lists holding the same elements in another order are one changed entry, and nothing else. */
  lemma ListOrderMatters()
    ensures CompareNamespace(Ordered, Reordered, None)
         == Delta(map["l" := Entry(None, Arr([Int(1), Int(2)]), Arr([Int(2), Int(1)]))], map[], map[], map[])
  {
    var d := CompareNamespace(Ordered, Reordered, None);
    ReorderedKeys(Changed);
    ReorderedKeys(Unchanged);
    ReorderedKeys(Added);
    ReorderedKeys(Removed);
    ReorderedEntry();
    assert d.changed == map["l" := Entry(None, Arr([Int(1), Int(2)]), Arr([Int(2), Int(1)]))];
    assert d.kept == map[] && d.added == map[] && d.removed == map[];
  }

}
