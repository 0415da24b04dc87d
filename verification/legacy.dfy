/**
 The older copy of the module, `namespace/__init__.py`. Its
 `compareNamespace` first splits the keys into four sets and then runs one
 loop per set (added, removed, changed, unchanged), each loop visiting its
 set in an unspecified order; the other functions are written as in dictns.
 */
module LegacyNs {

  import opened Wrappers
  import opened Trees
  import opened Deltas
  import Paths
  import DictNs

  /** `_appendToParent`, with the branches the other way round. */
  function AppendToParent(parent: Option<string>, k: string): (r: string)
    ensures r == Paths.AppendToParent(parent, k)
    ensures parent.Some? ==> |r| == |parent.value| + 1 + |k|
  {
    if parent.Some? then parent.value + "." + k else k
  }

  /** The loop over added keys: `{parent, old: None, new: new[k]}`. */
  ghost function AddedLoop(acc: Delta, after: map<string, Tree>, parent: Option<string>, ks: set<string>): Delta
    requires ks <= after.Keys
    decreases ks
  {
    if ks == {} then acc
    else
      var k := Pick(ks);
      var me := AppendToParent(parent, k);
      AddedLoop(acc.Put(Added, me, Entry(parent, Null, after[k])), after, parent, ks - {k})
  }

  /** The loop over removed keys: `{parent, old: old[k], new: None}`. */
  ghost function RemovedLoop(acc: Delta, before: map<string, Tree>, parent: Option<string>, ks: set<string>): Delta
    requires ks <= before.Keys
    decreases ks
  {
    if ks == {} then acc
    else
      var k := Pick(ks);
      var me := AppendToParent(parent, k);
      RemovedLoop(acc.Put(Removed, me, Entry(parent, before[k], Null)), before, parent, ks - {k})
  }

  /** The loop over changed keys: record under the guard `vOld != vNew`, then descend when both values are dicts. */
  ghost function ChangedLoop(acc: Delta, before: map<string, Tree>, after: map<string, Tree>,
                             parent: Option<string>, ks: set<string>): Delta
    requires ks <= before.Keys * after.Keys
    decreases Obj(before), 1, ks
  {
    if ks == {} then acc
    else
      var k := Pick(ks);
      var me := AppendToParent(parent, k);
      var vOld := before[k];
      var vNew := after[k];
      var recorded := if vOld != vNew then acc.Put(Changed, me, Entry(parent, vOld, vNew)) else acc;
      var merged :=
        if vOld.Obj? && vNew.Obj? then recorded.Update(CompareNamespace(vOld.fields, vNew.fields, Some(me)))
        else recorded;
      ChangedLoop(merged, before, after, parent, ks - {k})
  }

  /** The loop over unchanged keys: record under the guard `vOld == vNew`, then descend when both values are dicts. */
  ghost function UnchangedLoop(acc: Delta, before: map<string, Tree>, after: map<string, Tree>,
                               parent: Option<string>, ks: set<string>): Delta
    requires ks <= before.Keys * after.Keys
    decreases Obj(before), 1, ks
  {
    if ks == {} then acc
    else
      var k := Pick(ks);
      var me := AppendToParent(parent, k);
      var vOld := before[k];
      var vNew := after[k];
      var recorded := if vOld == vNew then acc.Put(Unchanged, me, Entry(parent, vOld, vNew)) else acc;
      var merged :=
        if vOld.Obj? && vNew.Obj? then recorded.Update(CompareNamespace(vOld.fields, vNew.fields, Some(me)))
        else recorded;
      UnchangedLoop(merged, before, after, parent, ks - {k})
  }

  /** `do_item`: split the keys into the four sets, then run the four loops in turn. */
  ghost function DoItem(before: map<string, Tree>, after: map<string, Tree>, parent: Option<string>): Delta
    decreases Obj(before), 2
  {
    var intersect := after.Keys * before.Keys;
    var added := after.Keys - intersect;
    var removed := before.Keys - intersect;
    var changed := set o | o in intersect && before[o] != after[o];
    var same := set o | o in intersect && before[o] == after[o];
    var afterAdded := AddedLoop(Empty, after, parent, added);
    var afterRemoved := RemovedLoop(afterAdded, before, parent, removed);
    var afterChanged := ChangedLoop(afterRemoved, before, after, parent, changed);
    UnchangedLoop(afterChanged, before, after, parent, same)
  }

  /** `compareNamespace(old, new, parent)` of the older copy. */
  ghost function CompareNamespace(before: map<string, Tree>, after: map<string, Tree>,
                                  parent: Option<string>): Delta
    decreases Obj(before), 3
  {
    Empty.Update(DoItem(before, after, parent))
  }

  /** One bucket of `filterDelta`: drop every key some entry of the bucket names as its parent. */
  function FilterBucket(b: Bucket): Bucket
  {
    map k | k in b && !(exists j :: j in b && b[j].parent == Some(k)) :: b[k]
  }

  /** `filterDelta` of the older copy; it filters every bucket exactly as the packaged copy does. */
  function FilterDelta(d: Delta): (r: Delta)
    ensures forall st :: r.Get(st) == DictNs.Prune(d.Get(st))
  {
    Delta(FilterBucket(d.changed), FilterBucket(d.kept), FilterBucket(d.added), FilterBucket(d.removed))
  }

  /** The inner `do_item(me, v)` of `documentNamespace`. */
  ghost function DocItem(me: string, v: Tree): seq<DictNs.Line>
    decreases v, 3
  {
    [DictNs.Line(me, DictNs.TypeName(v))] +
    match v
    case Obj(fields) => DocumentLines(fields, Some(me))
    case Arr(items) => if |items| > 0 then DocItem(me + "[i]", items[0]) else []
    case _ => []
  }

  ghost function DocumentKeys(n: map<string, Tree>, parent: Option<string>, ks: set<string>): seq<DictNs.Line>
    requires ks <= n.Keys
    decreases Obj(n), 1, ks
  {
    if ks == {} then []
    else
      var k := Pick(ks);
      DocItem(AppendToParent(parent, k), n[k]) + DocumentKeys(n, parent, ks - {k})
  }

  ghost function DocumentLines(n: map<string, Tree>, parent: Option<string>): seq<DictNs.Line>
    decreases Obj(n), 2
  {
    DocumentKeys(n, parent, n.Keys)
  }

  /** `documentNamespace(n, parent)` of the older copy. */
  ghost function DocumentNamespace(n: map<string, Tree>, parent: Option<string>): string
  {
    DictNs.Render(DocumentLines(n, parent))
  }

}
