/**
 The two copies of `compareNamespace` agree. Both docstrings promise the
 same result; with keys free of dots the four loops of the older copy
 produce exactly the delta of the single loop of dictns, whatever order
 either visits its keys in. `filterDelta` and `documentNamespace` agree
 outright.
 */
module LegacyProofs {

  import opened Wrappers
  import opened Trees
  import opened Deltas
  import Paths
  import opened DictNs
  import opened Recording
  import LegacyNs

  lemma {:induction false} AddedLoopIsRun(acc: Delta, before: map<string, Tree>, after: map<string, Tree>,
                                          parent: Option<string>, ks: set<string>)
    requires ks <= after.Keys - before.Keys
    ensures LegacyNs.AddedLoop(acc, after, parent, ks) == Run(acc, before, after, parent, ks)
    decreases ks
  {
    if ks != {} {
      var k := Pick(ks);
      assert Step(acc, before, after, parent, k)
          == acc.Put(Added, LegacyNs.AppendToParent(parent, k), Entry(parent, Null, after[k]));
      AddedLoopIsRun(acc.Put(Added, LegacyNs.AppendToParent(parent, k), Entry(parent, Null, after[k])),
                     before, after, parent, ks - {k});
    }
  }

  lemma {:induction false} RemovedLoopIsRun(acc: Delta, before: map<string, Tree>, after: map<string, Tree>,
                                            parent: Option<string>, ks: set<string>)
    requires ks <= before.Keys - after.Keys
    ensures LegacyNs.RemovedLoop(acc, before, parent, ks) == Run(acc, before, after, parent, ks)
    decreases ks
  {
    if ks != {} {
      var k := Pick(ks);
      assert Step(acc, before, after, parent, k)
          == acc.Put(Removed, LegacyNs.AppendToParent(parent, k), Entry(parent, before[k], Null));
      RemovedLoopIsRun(acc.Put(Removed, LegacyNs.AppendToParent(parent, k), Entry(parent, before[k], Null)),
                       before, after, parent, ks - {k});
    }
  }

  lemma {:induction false} ChangedLoopIsRun(acc: Delta, before: map<string, Tree>, after: map<string, Tree>,
                                            parent: Option<string>, ks: set<string>)
    requires DotFree(before) && DotFree(after)
    requires ks <= before.Keys * after.Keys
    requires forall k :: k in ks ==> before[k] != after[k]
    ensures LegacyNs.ChangedLoop(acc, before, after, parent, ks) == Run(acc, before, after, parent, ks)
    decreases Obj(before), 1, ks
  {
    if ks != {} {
      var k := Pick(ks);
      var me := Paths.AppendToParent(parent, k);
      if before[k].Obj? && after[k].Obj? {
        LegacyAgrees(before[k].fields, after[k].fields, Some(me));
      }
      ChangedLoopIsRun(Step(acc, before, after, parent, k), before, after, parent, ks - {k});
    }
  }

  lemma {:induction false} UnchangedLoopIsRun(acc: Delta, before: map<string, Tree>, after: map<string, Tree>,
                                              parent: Option<string>, ks: set<string>)
    requires DotFree(before) && DotFree(after)
    requires ks <= before.Keys * after.Keys
    requires forall k :: k in ks ==> before[k] == after[k]
    ensures LegacyNs.UnchangedLoop(acc, before, after, parent, ks) == Run(acc, before, after, parent, ks)
    decreases Obj(before), 1, ks
  {
    if ks != {} {
      var k := Pick(ks);
      var me := Paths.AppendToParent(parent, k);
      if before[k].Obj? && after[k].Obj? {
        LegacyAgrees(before[k].fields, after[k].fields, Some(me));
      }
      UnchangedLoopIsRun(Step(acc, before, after, parent, k), before, after, parent, ks - {k});
    }
  }

  /** With no dots in keys, the older four-loop `compareNamespace` returns the same delta as dictns's. */
  lemma {:induction false} LegacyAgrees(before: map<string, Tree>, after: map<string, Tree>, parent: Option<string>)
    requires DotFree(before) && DotFree(after)
    ensures LegacyNs.CompareNamespace(before, after, parent) == DictNs.CompareNamespace(before, after, parent)
    decreases Obj(before), 2
  {
    var intersect := after.Keys * before.Keys;
    var added := after.Keys - intersect;
    var removed := before.Keys - intersect;
    var changed := set o | o in intersect && before[o] != after[o];
    var same := set o | o in intersect && before[o] == after[o];
    var d1 := LegacyNs.AddedLoop(Empty, after, parent, added);
    var d2 := LegacyNs.RemovedLoop(d1, before, parent, removed);
    var d3 := LegacyNs.ChangedLoop(d2, before, after, parent, changed);
    AddedLoopIsRun(Empty, before, after, parent, added);
    RemovedLoopIsRun(d1, before, after, parent, removed);
    ChangedLoopIsRun(d2, before, after, parent, changed);
    UnchangedLoopIsRun(d3, before, after, parent, same);
    var keys := before.Keys + after.Keys;
    assert KeysDotFree(keys);
    RunSeq(Empty, before, after, parent, added, removed);
    RunSeq(Empty, before, after, parent, added + removed, changed);
    RunSeq(Empty, before, after, parent, added + removed + changed, same);
    assert added + removed + changed + same == keys;
  }

  lemma {:induction false} DocItemAgrees(me: string, v: Tree)
    ensures LegacyNs.DocItem(me, v) == DictNs.DocItem(me, v)
    decreases v, 3
  {
    match v
    case Obj(fields) => DocumentLinesAgree(fields, Some(me));
    case Arr(items) =>
      if |items| > 0 {
        DocItemAgrees(me + "[i]", items[0]);
      }
    case _ =>
  }

  lemma {:induction false} DocumentKeysAgree(n: map<string, Tree>, parent: Option<string>, ks: set<string>)
    requires ks <= n.Keys
    ensures LegacyNs.DocumentKeys(n, parent, ks) == DictNs.DocumentKeys(n, parent, ks)
    decreases Obj(n), 1, ks
  {
    if ks != {} {
      var k := Pick(ks);
      DocItemAgrees(Paths.AppendToParent(parent, k), n[k]);
      DocumentKeysAgree(n, parent, ks - {k});
    }
  }

  lemma {:induction false} DocumentLinesAgree(n: map<string, Tree>, parent: Option<string>)
    ensures LegacyNs.DocumentLines(n, parent) == DictNs.DocumentLines(n, parent)
    decreases Obj(n), 2
  {
    DocumentKeysAgree(n, parent, n.Keys);
  }

  /** The older `documentNamespace` prints the same text as the packaged one. */
  lemma DocumentAgrees(n: map<string, Tree>, parent: Option<string>)
    ensures LegacyNs.DocumentNamespace(n, parent) == DictNs.DocumentNamespace(n, parent)
  {
    DocumentLinesAgree(n, parent);
  }

}
