/**
 What `compareNamespace` (dictns.py) promises about its result: one state
 per key, the entry recorded at each key's path, recursion only into keys
 that are dicts on both sides, disjoint buckets, the shape of entries in
 each bucket, comparing a tree with itself, and swapping the two sides.
 */
module CompareLaws {

  import opened Wrappers
  import opened Trees
  import opened Paths
  import opened Deltas
  import opened DictNs
  import opened Recording

  /** The path of every key is recorded in the bucket of its state, with the parent and `.get` of both sides, and in no other bucket. */
  lemma CompareRecordsKey(before: map<string, Tree>, after: map<string, Tree>, parent: Option<string>, k: string)
    requires KeysDotFree(before.Keys + after.Keys)
    requires k in before || k in after
    ensures var d := CompareNamespace(before, after, parent);
            var st := Classify(before, after, k);
            var me := AppendToParent(parent, k);
            && me in d.Get(st)
            && d.Get(st)[me] == Entry(parent, Get(before, k), Get(after, k))
            && forall other :: me in d.Get(other) ==> other == st
  {
    var d := CompareNamespace(before, after, parent);
    var st := Classify(before, after, k);
    var me := AppendToParent(parent, k);
    var keys := before.Keys + after.Keys;
    CompareIsLoop(before, after, parent);
    assert me in RecordedFor(before, after, parent, k, st);
    RunValue(Empty, before, after, parent, keys, k, st, me);
    if Recurses(before, after, k) {
      var child := CompareNamespace(before[k].fields, after[k].fields, Some(me));
      CompareKeys(before[k].fields, after[k].fields, Some(me), st);
      if me in child.Get(st) {
        RecordedBelow(before[k].fields, after[k].fields, me, st, me);
      }
    }
    forall other | me in d.Get(other) ensures other == st {
      CompareKeys(before, after, parent, other);
      var k2 :| k2 in keys && me in RecordedFor(before, after, parent, k2, other);
      RecordedForShape(before, after, parent, k2, other, me);
      SameKey(parent, k, k2, me);
    }
  }

  /** Below a key that is a dict on both sides, every path the child comparison records is kept with the child's entry. */
  lemma CompareEmbedsChild(before: map<string, Tree>, after: map<string, Tree>, parent: Option<string>,
                           k: string, st: State, q: string)
    requires KeysDotFree(before.Keys + after.Keys)
    requires Recurses(before, after, k)
    requires q in CompareNamespace(before[k].fields, after[k].fields, Some(AppendToParent(parent, k))).Get(st)
    ensures q in CompareNamespace(before, after, parent).Get(st)
    ensures CompareNamespace(before, after, parent).Get(st)[q]
         == CompareNamespace(before[k].fields, after[k].fields, Some(AppendToParent(parent, k))).Get(st)[q]
  {
    var me := AppendToParent(parent, k);
    var child := CompareNamespace(before[k].fields, after[k].fields, Some(me));
    CompareIsLoop(before, after, parent);
    CompareKeys(before[k].fields, after[k].fields, Some(me), st);
    assert q in RecordedFor(before, after, parent, k, st);
    RunValue(Empty, before, after, parent, before.Keys + after.Keys, k, st, q);
  }

  /**
   Nothing is recorded below a key's path except what that key's own child
   comparison records, and there is one only when the key is a dict on both
   sides: lists and scalars are never looked into.
   */
  lemma CompareDescendsOnlyIntoDicts(before: map<string, Tree>, after: map<string, Tree>, parent: Option<string>,
                                     k: string, st: State, q: string)
    requires KeysDotFree(before.Keys + after.Keys) && '.' !in k
    requires q in CompareNamespace(before, after, parent).Get(st)
    requires Below(q, AppendToParent(parent, k))
    ensures Recurses(before, after, k)
    ensures q in CompareNamespace(before[k].fields, after[k].fields, Some(AppendToParent(parent, k))).Get(st)
  {
    var me := AppendToParent(parent, k);
    CompareKeys(before, after, parent, st);
    var k2 :| k2 in before.Keys + after.Keys && q in RecordedFor(before, after, parent, k2, st);
    RecordedForShape(before, after, parent, k2, st, q);
    SameKey(parent, k, k2, q);
    CompareKeys(before[k].fields, after[k].fields, Some(me), st);
  }

  /** With no dots in keys at any level, no path is recorded in two buckets. */
  lemma {:induction false} RecordedDisjoint(before: map<string, Tree>, after: map<string, Tree>,
                                            parent: Option<string>, st1: State, st2: State, q: string)
    requires DotFree(before) && DotFree(after)
    requires st1 != st2
    ensures !(q in Recorded(before, after, parent, st1) && q in Recorded(before, after, parent, st2))
    decreases Obj(before)
  {
    if q in Recorded(before, after, parent, st1) && q in Recorded(before, after, parent, st2) {
      var keys := before.Keys + after.Keys;
      assert q in RecordedOver(before, after, parent, keys, st1);
      assert q in RecordedOver(before, after, parent, keys, st2);
      var k1 :| k1 in keys && q in RecordedFor(before, after, parent, k1, st1);
      var k2 :| k2 in keys && q in RecordedFor(before, after, parent, k2, st2);
      OwnerUnique(before, after, parent, k1, k2, st1, st2, q);
      var me := AppendToParent(parent, k1);
      RecordedForShape(before, after, parent, k1, st1, q);
      RecordedForShape(before, after, parent, k1, st2, q);
      if q != me {
        RecordedDisjoint(before[k1].fields, after[k1].fields, Some(me), st1, st2, q);
      }
    }
  }

  /** With no dots in keys at any level, the four buckets have pairwise disjoint paths. */
  lemma CompareBucketsDisjoint(before: map<string, Tree>, after: map<string, Tree>, parent: Option<string>)
    requires DotFree(before) && DotFree(after)
    ensures forall st1, st2 :: st1 != st2 ==>
              CompareNamespace(before, after, parent).Get(st1).Keys !! CompareNamespace(before, after, parent).Get(st2).Keys
  {
    var d := CompareNamespace(before, after, parent);
    forall st1, st2 | st1 != st2
      ensures d.Get(st1).Keys !! d.Get(st2).Keys
    {
      CompareKeys(before, after, parent, st1);
      CompareKeys(before, after, parent, st2);
      forall q | q in d.Get(st1).Keys ensures q !in d.Get(st2).Keys {
        RecordedDisjoint(before, after, parent, st1, st2, q);
      }
    }
  }


  // ---------------------------------------------------------------------
  // The entries of each bucket
  // ---------------------------------------------------------------------

  /** An entry fits bucket `st`: added entries lack an old value, removed ones a new value; changed entries differ, unchanged ones agree. */
  ghost predicate Fits(st: State, e: Entry)
  {
    match st
    case Added => e.oldValue == Null
    case Removed => e.newValue == Null
    case Changed => e.oldValue != e.newValue
    case Unchanged => e.oldValue == e.newValue
  }

  /** Every entry fits the bucket it sits in. */
  ghost predicate WellShaped(d: Delta)
  {
    forall st, q :: q in d.Get(st) ==> Fits(st, d.Get(st)[q])
  }

  lemma PutShaped(d: Delta, st: State, path: string, e: Entry)
    requires WellShaped(d) && Fits(st, e)
    ensures WellShaped(d.Put(st, path, e))
  {
    var r := d.Put(st, path, e);
    forall s, q | q in r.Get(s) ensures Fits(s, r.Get(s)[q]) {
      if s != st {
        assert r.Get(s) == d.Get(s);
      }
    }
  }

  lemma UpdateShaped(d: Delta, child: Delta)
    requires WellShaped(d) && WellShaped(child)
    ensures WellShaped(d.Update(child))
  {
    var r := d.Update(child);
    forall s, q | q in r.Get(s) ensures Fits(s, r.Get(s)[q]) {
      assert r.Get(s) == d.Get(s) + child.Get(s);
    }
  }

  lemma {:induction false} StepShapes(acc: Delta, before: map<string, Tree>, after: map<string, Tree>,
                                      parent: Option<string>, k: string)
    requires WellShaped(acc)
    ensures WellShaped(Step(acc, before, after, parent, k))
    decreases Obj(before), 0
  {
    var me := AppendToParent(parent, k);
    var st := Classify(before, after, k);
    PutShaped(acc, st, me, Entry(parent, Get(before, k), Get(after, k)));
    if Recurses(before, after, k) {
      CompareShapes(before[k].fields, after[k].fields, Some(me));
      UpdateShaped(acc.Put(st, me, Entry(parent, Get(before, k), Get(after, k))),
                   CompareNamespace(before[k].fields, after[k].fields, Some(me)));
    }
  }

  lemma {:induction false} RunShapes(acc: Delta, before: map<string, Tree>, after: map<string, Tree>,
                                     parent: Option<string>, ks: set<string>)
    requires WellShaped(acc)
    ensures WellShaped(Run(acc, before, after, parent, ks))
    decreases Obj(before), 1, ks
  {
    if ks != {} {
      var k := Pick(ks);
      StepShapes(acc, before, after, parent, k);
      RunShapes(Step(acc, before, after, parent, k), before, after, parent, ks - {k});
    }
  }

  /** For any inputs, each bucket's entries have the shape its name promises (the null overload included). */
  lemma {:induction false} CompareShapes(before: map<string, Tree>, after: map<string, Tree>, parent: Option<string>)
    ensures WellShaped(CompareNamespace(before, after, parent))
    decreases Obj(before), 2
  {
    CompareIsLoop(before, after, parent);
    RunShapes(Empty, before, after, parent, before.Keys + after.Keys);
  }

  // ---------------------------------------------------------------------
  // Comparing a tree with itself
  // ---------------------------------------------------------------------

  /** Every dict location of `m` below `parent`, containers and leaves alike. */
  ghost function Locations(m: map<string, Tree>, parent: Option<string>): set<string>
    decreases Obj(m), 1
  {
    set k, q | k in m && q in LocationsOf(m, parent, k) :: q
  }

  /** The location of key `k` and every dict location below it. */
  ghost function LocationsOf(m: map<string, Tree>, parent: Option<string>, k: string): set<string>
    requires k in m
    decreases Obj(m), 0
  {
    var me := AppendToParent(parent, k);
    {me} + (if m[k].Obj? then Locations(m[k].fields, Some(me)) else {})
  }

  lemma {:induction false} RecordedSelf(m: map<string, Tree>, parent: Option<string>, st: State)
    ensures Recorded(m, m, parent, st) == if st == Unchanged then Locations(m, parent) else {}
    decreases Obj(m)
  {
    var expected := if st == Unchanged then Locations(m, parent) else {};
    forall k | k in m
      ensures RecordedFor(m, m, parent, k, st) == if st == Unchanged then LocationsOf(m, parent, k) else {}
    {
      if m[k].Obj? {
        RecordedSelf(m[k].fields, Some(AppendToParent(parent, k)), st);
      }
    }
    assert m.Keys + m.Keys == m.Keys;
    forall q | q in Recorded(m, m, parent, st) ensures q in expected {
      assert q in RecordedOver(m, m, parent, m.Keys + m.Keys, st);
      var k :| k in m && q in RecordedFor(m, m, parent, k, st);
    }
    forall q | q in expected ensures q in Recorded(m, m, parent, st) {
      var k :| k in m && q in LocationsOf(m, parent, k);
      assert q in RecordedFor(m, m, parent, k, st);
    }
  }

  /**
   Comparing a tree with itself records nothing as changed, added or
   removed, and records as unchanged every dict location, nested ones
   included, each with equal old and new values.
   */
  lemma CompareSelf(m: map<string, Tree>, parent: Option<string>)
    ensures CompareNamespace(m, m, parent).changed == map[]
    ensures CompareNamespace(m, m, parent).added == map[]
    ensures CompareNamespace(m, m, parent).removed == map[]
    ensures CompareNamespace(m, m, parent).kept.Keys == Locations(m, parent)
    ensures forall q :: q in CompareNamespace(m, m, parent).kept ==>
              CompareNamespace(m, m, parent).kept[q].oldValue == CompareNamespace(m, m, parent).kept[q].newValue
  {
    var d := CompareNamespace(m, m, parent);
    CompareKeys(m, m, parent, Changed);
    CompareKeys(m, m, parent, Unchanged);
    CompareKeys(m, m, parent, Added);
    CompareKeys(m, m, parent, Removed);
    RecordedSelf(m, parent, Changed);
    RecordedSelf(m, parent, Unchanged);
    RecordedSelf(m, parent, Added);
    RecordedSelf(m, parent, Removed);
    CompareShapes(m, m, parent);
    forall q | q in d.kept ensures d.kept[q].oldValue == d.kept[q].newValue {
      assert Fits(Unchanged, d.Get(Unchanged)[q]);
    }
  }

  // ---------------------------------------------------------------------
  // Swapping the two sides
  // ---------------------------------------------------------------------

  function FlipEntry(e: Entry): Entry
  {
    Entry(e.parent, e.newValue, e.oldValue)
  }

  function FlipBucket(b: Bucket): Bucket
  {
    map q | q in b :: FlipEntry(b[q])
  }

  /** A delta read backwards: added and removed trade places and every entry swaps its two sides. */
  function Mirror(d: Delta): Delta
  {
    Delta(FlipBucket(d.changed), FlipBucket(d.kept), FlipBucket(d.removed), FlipBucket(d.added))
  }

  function MirrorState(st: State): State
  {
    match st
    case Added => Removed
    case Removed => Added
    case _ => st
  }

  lemma MirrorPut(d: Delta, st: State, path: string, e: Entry)
    ensures Mirror(d.Put(st, path, e)) == Mirror(d).Put(MirrorState(st), path, FlipEntry(e))
  {
    var b := d.Get(st);
    assert FlipBucket(b[path := e]) == FlipBucket(b)[path := FlipEntry(e)];
  }

  lemma FlipUnion(a: Bucket, b: Bucket)
    ensures FlipBucket(a + b) == FlipBucket(a) + FlipBucket(b)
  {
  }

  lemma MirrorUpdate(d: Delta, child: Delta)
    ensures Mirror(d.Update(child)) == Mirror(d).Update(Mirror(child))
  {
    FlipUnion(d.changed, child.changed);
    FlipUnion(d.kept, child.kept);
    FlipUnion(d.added, child.added);
    FlipUnion(d.removed, child.removed);
  }

  lemma MirrorEmpty()
    ensures Mirror(Empty) == Empty
  {
    assert FlipBucket(map[]) == map[];
  }

  lemma {:induction false} StepMirror(acc: Delta, before: map<string, Tree>, after: map<string, Tree>,
                                      parent: Option<string>, k: string)
    requires DotFree(before) && DotFree(after)
    ensures Step(Mirror(acc), after, before, parent, k) == Mirror(Step(acc, before, after, parent, k))
    decreases Obj(before), 0
  {
    var me := AppendToParent(parent, k);
    var e := Entry(parent, Get(before, k), Get(after, k));
    var st := Classify(before, after, k);
    assert Classify(after, before, k) == MirrorState(st);
    MirrorPut(acc, st, me, e);
    if Recurses(before, after, k) {
      assert k in before && k in after;
      CompareMirror(before[k].fields, after[k].fields, Some(me));
      MirrorUpdate(acc.Put(st, me, e), CompareNamespace(before[k].fields, after[k].fields, Some(me)));
    }
  }

  lemma {:induction false} RunMirror(acc: Delta, before: map<string, Tree>, after: map<string, Tree>,
                                     parent: Option<string>, ks: set<string>)
    requires DotFree(before) && DotFree(after)
    ensures Run(Mirror(acc), after, before, parent, ks) == Mirror(Run(acc, before, after, parent, ks))
    decreases Obj(before), 1, ks
  {
    if ks != {} {
      var k := Pick(ks);
      StepMirror(acc, before, after, parent, k);
      RunMirror(Step(acc, before, after, parent, k), before, after, parent, ks - {k});
    }
  }

  /**
   With no dots in keys at any level, comparing new against old gives the
   mirror image of comparing old against new. With dotted keys the two
   calls may visit `set(old) | set(new)` in different orders, and the
   surviving entry at a shared path can differ. The proof below uses one
   visiting order for both calls; with dot-free keys that order does not
   matter, because the paths recorded (`Recording.RunKeys`) and the value
   at each (`Recording.RunValue`) are the same for every order.
   */
  lemma {:induction false} CompareMirror(before: map<string, Tree>, after: map<string, Tree>, parent: Option<string>)
    requires DotFree(before) && DotFree(after)
    ensures CompareNamespace(after, before, parent) == Mirror(CompareNamespace(before, after, parent))
    decreases Obj(before), 2
  {
    CompareIsLoop(before, after, parent);
    CompareIsLoop(after, before, parent);
    assert after.Keys + before.Keys == before.Keys + after.Keys;
    MirrorEmpty();
    RunMirror(Empty, before, after, parent, before.Keys + after.Keys);
  }

}
