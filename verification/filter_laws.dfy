/**
 What `filterDelta` (dictns.py) does to a delta: per bucket, exactly the
 entries named as a parent by another entry of that bucket disappear; doing
 it twice changes nothing; and on a comparison result it drops a key's own
 entry exactly when one of its child keys has the same state.
 */
module FilterLaws {

  import opened Wrappers
  import opened Trees
  import opened Paths
  import opened Deltas
  import opened DictNs
  import opened Recording
  import opened CompareLaws

  /** A bucket after filtering keeps exactly the entries no entry of that bucket names as its parent, each unchanged. */
  lemma PruneExact(b: Bucket)
    ensures forall k :: k in Prune(b) <==> k in b && !(exists j :: j in b && b[j].parent == Some(k))
    ensures forall k :: k in Prune(b) ==> Prune(b)[k] == b[k]
  {
  }

  /** Filtering a filtered bucket changes nothing: no surviving entry names another survivor as its parent. */
  lemma PruneIdempotent(b: Bucket)
    ensures Prune(Prune(b)) == Prune(b)
  {
    var p := Prune(b);
    forall x | x in NamedParents(p) ensures x !in p {
      var j :| j in p && p[j].parent.Some? && p[j].parent.value == x;
      assert x in NamedParents(b);
    }
    assert p - NamedParents(p) == p;
  }

  // ---------------------------------------------------------------------
  // Parents recorded by compareNamespace
  // ---------------------------------------------------------------------

  /** The parent stored in every entry is the entry's path with its last key cut off. */
  ghost predicate ParentsMatchPaths(d: Delta)
  {
    forall st, q :: q in d.Get(st) ==> d.Get(st)[q].parent == SplitPath(q).0
  }

  lemma PutParents(d: Delta, st: State, parent: Option<string>, k: string, e: Entry)
    requires ParentsMatchPaths(d) && '.' !in k && e.parent == parent
    ensures ParentsMatchPaths(d.Put(st, AppendToParent(parent, k), e))
  {
    var r := d.Put(st, AppendToParent(parent, k), e);
    AppendThenSplit(parent, k);
    forall s, q | q in r.Get(s) ensures r.Get(s)[q].parent == SplitPath(q).0 {
      if s != st {
        assert r.Get(s) == d.Get(s);
      }
    }
  }

  lemma UpdateParents(d: Delta, child: Delta)
    requires ParentsMatchPaths(d) && ParentsMatchPaths(child)
    ensures ParentsMatchPaths(d.Update(child))
  {
    var r := d.Update(child);
    forall s, q | q in r.Get(s) ensures r.Get(s)[q].parent == SplitPath(q).0 {
      assert r.Get(s) == d.Get(s) + child.Get(s);
    }
  }

  lemma {:induction false} StepParents(acc: Delta, before: map<string, Tree>, after: map<string, Tree>,
                                       parent: Option<string>, k: string)
    requires DotFree(before) && DotFree(after) && '.' !in k
    requires ParentsMatchPaths(acc)
    ensures ParentsMatchPaths(Step(acc, before, after, parent, k))
    decreases Obj(before), 0
  {
    var me := AppendToParent(parent, k);
    var st := Classify(before, after, k);
    var e := Entry(parent, Get(before, k), Get(after, k));
    PutParents(acc, st, parent, k, e);
    if Recurses(before, after, k) {
      CompareParents(before[k].fields, after[k].fields, Some(me));
      UpdateParents(acc.Put(st, me, e), CompareNamespace(before[k].fields, after[k].fields, Some(me)));
    }
  }

  lemma {:induction false} RunParents(acc: Delta, before: map<string, Tree>, after: map<string, Tree>,
                                      parent: Option<string>, ks: set<string>)
    requires DotFree(before) && DotFree(after) && KeysDotFree(ks)
    requires ParentsMatchPaths(acc)
    ensures ParentsMatchPaths(Run(acc, before, after, parent, ks))
    decreases Obj(before), 1, ks
  {
    if ks != {} {
      var k := Pick(ks);
      StepParents(acc, before, after, parent, k);
      RunParents(Step(acc, before, after, parent, k), before, after, parent, ks - {k});
    }
  }

  /** With no dots in keys, every entry's parent is its path minus the last key. */
  lemma {:induction false} CompareParents(before: map<string, Tree>, after: map<string, Tree>, parent: Option<string>)
    requires DotFree(before) && DotFree(after)
    ensures ParentsMatchPaths(CompareNamespace(before, after, parent))
    decreases Obj(before), 2
  {
    CompareIsLoop(before, after, parent);
    RunParents(Empty, before, after, parent, before.Keys + after.Keys);
  }

  // ---------------------------------------------------------------------
  // Filtering a comparison
  // ---------------------------------------------------------------------

  /**
   After comparing trees without dotted keys, filtering drops a key's own
   entry exactly when the key is a dict on both sides and one of its child
   keys has the same state: a container entry gives way to a more specific
   entry of its own bucket, never to one of another bucket.
   */
  lemma FilterKeepsKeyExactly(before: map<string, Tree>, after: map<string, Tree>, parent: Option<string>, k: string)
    requires DotFree(before) && DotFree(after)
    requires k in before || k in after
    ensures AppendToParent(parent, k) in Prune(CompareNamespace(before, after, parent).Get(Classify(before, after, k)))
        <==> !(Recurses(before, after, k)
               && exists k2 :: k2 in before[k].fields.Keys + after[k].fields.Keys
                               && Classify(before[k].fields, after[k].fields, k2) == Classify(before, after, k))
  {
    var d := CompareNamespace(before, after, parent);
    var st := Classify(before, after, k);
    var me := AppendToParent(parent, k);
    var b := d.Get(st);
    CompareRecordsKey(before, after, parent, k);
    PruneExact(b);
    if me !in Prune(b) {
      var j :| j in b && b[j].parent == Some(me);
      CompareParents(before, after, parent);
      SplitThenAppend(j);
      var k2 := SplitPath(j).1;
      AppendToParentShape(Some(me), k2);
      CompareDescendsOnlyIntoDicts(before, after, parent, k, st, j);
      var cb := before[k].fields;
      var ca := after[k].fields;
      CompareKeys(cb, ca, Some(me), st);
      assert j in RecordedOver(cb, ca, Some(me), cb.Keys + ca.Keys, st);
      var k3 :| k3 in cb.Keys + ca.Keys && j in RecordedFor(cb, ca, Some(me), k3, st);
      RecordedForShape(cb, ca, Some(me), k3, st, j);
      SameKey(Some(me), k2, k3, j);
      assert Classify(cb, ca, k3) == st;
    } else if Recurses(before, after, k) {
      var cb := before[k].fields;
      var ca := after[k].fields;
      forall k2 | k2 in cb.Keys + ca.Keys ensures Classify(cb, ca, k2) != st {
        var q := AppendToParent(Some(me), k2);
        if Classify(cb, ca, k2) == st {
          CompareRecordsKey(cb, ca, Some(me), k2);
          CompareEmbedsChild(before, after, parent, k, st, q);
        }
      }
    }
  }

}
