/**
 The packaged module `dictns`: the structural diff (`compareNamespace`),
 its parent-collapsing filter (`filterDelta`) and the tree documenter
 (`documentNamespace`), over plain tree values.

 `compareNamespace` loops over `set(old) | set(new)`, whose order Python
 does not specify; `documentNamespace` loops over `n.items()`, which is
 insertion order. A Dafny map carries no insertion order, so both loops
 here take keys in the fixed but unspecified order of `Pick`.
 */
module DictNs {

  import opened Wrappers
  import opened Trees
  import opened Paths
  import opened Deltas

  // ---------------------------------------------------------------------
  // compareNamespace
  // ---------------------------------------------------------------------

  /**
   The state `do_item` gives key `k`, decided in the source's order: only in
   the new dict, only in the old one, else by deep `!=` on `.get(k)`.
   */
  function Classify(before: map<string, Tree>, after: map<string, Tree>, k: string): (st: State)
    ensures st == Added <==> k in after && k !in before
    ensures st == Removed <==> k in before && k !in after
    ensures k in before && k in after ==> (st == Changed <==> before[k] != after[k])
    ensures k in before && k in after ==> (st == Unchanged <==> before[k] == after[k])
  {
    if k in after && k !in before then Added
    else if k in before && k !in after then Removed
    else if Get(before, k) != Get(after, k) then Changed
    else Unchanged
  }

  /** `do_item` descends into `k` only when it is changed or unchanged and both of its values are dicts. */
  predicate Recurses(before: map<string, Tree>, after: map<string, Tree>, k: string)
  {
    Classify(before, after, k) in {Changed, Unchanged} && Get(before, k).Obj? && Get(after, k).Obj?
  }

  /** One pass of the loop in `do_item`: record `k`'s entry, then merge the child delta of a dict on both sides. */
  ghost function Step(acc: Delta, before: map<string, Tree>, after: map<string, Tree>,
                      parent: Option<string>, k: string): Delta
    decreases Obj(before), 0
  {
    var me := AppendToParent(parent, k);
    var recorded := acc.Put(Classify(before, after, k), me, Entry(parent, Get(before, k), Get(after, k)));
    if Recurses(before, after, k) then
      recorded.Update(CompareNamespace(before[k].fields, after[k].fields, Some(me)))
    else
      recorded
  }

  /** The loop of `do_item` over the keys `ks`, threading the delta built so far. */
  ghost function Run(acc: Delta, before: map<string, Tree>, after: map<string, Tree>,
                     parent: Option<string>, ks: set<string>): Delta
    decreases Obj(before), 1, ks
  {
    if ks == {} then acc
    else
      var k := Pick(ks);
      Run(Step(acc, before, after, parent, k), before, after, parent, ks - {k})
  }

  /** `do_item`: the loop over `set(old) | set(new)`, starting from fresh buckets. */
  ghost function DoItem(before: map<string, Tree>, after: map<string, Tree>, parent: Option<string>): Delta
    decreases Obj(before), 2
  {
    Run(Empty, before, after, parent, before.Keys + after.Keys)
  }

  /** `compareNamespace(old, new, parent)`. */
  ghost function CompareNamespace(before: map<string, Tree>, after: map<string, Tree>,
                                  parent: Option<string>): Delta
    decreases Obj(before), 3
  {
    Empty.Update(DoItem(before, after, parent))
  }

  // ---------------------------------------------------------------------
  // filterDelta
  // ---------------------------------------------------------------------

  /** The paths that some entry of `b` names as its parent. */
  function NamedParents(b: Bucket): set<string>
  {
    set k | k in b && b[k].parent.Some? :: b[k].parent.value
  }

  /** One bucket after filtering: the named parents are gone. */
  function Prune(b: Bucket): Bucket
  {
    b - NamedParents(b)
  }

  /**
   The inner loop of `filterDelta` for one bucket: copy it, then for every
   entry of the original delete its parent from the copy if still there.
   */
  method FilterBucket(b: Bucket) returns (r: Bucket)
    ensures forall k :: k in r <==> k in b && !(exists j :: j in b && b[j].parent == Some(k))
    ensures forall k :: k in r ==> r[k] == b[k]
    ensures r == Prune(b)
  {
    r := b;
    var todo := b.Keys;
    while todo != {}
      invariant todo <= b.Keys
      invariant r == b - (set j | j in b.Keys - todo && b[j].parent.Some? :: b[j].parent.value)
      decreases todo
    {
      var k :| k in todo;
      var parent := b[k].parent;
      if parent.Some? && parent.value in r {
        r := r - {parent.value};
      }
      todo := todo - {k};
    }
  }

  /** `filterDelta`: a new delta whose buckets are filtered independently; the input is left as it was. */
  method FilterDelta(d: Delta) returns (r: Delta)
    ensures forall st :: r.Get(st) == Prune(d.Get(st))
  {
    var changed := FilterBucket(d.changed);
    var kept := FilterBucket(d.kept);
    var added := FilterBucket(d.added);
    var removed := FilterBucket(d.removed);
    r := Delta(changed, kept, added, removed);
  }

  // ---------------------------------------------------------------------
  // documentNamespace
  // ---------------------------------------------------------------------

  /** One `path -> typename` line of the documentation. */
  datatype Line = Line(path: string, typeName: string)

  /** `type(v).__name__`, with `Namespace` reported as `dict`. */
  function TypeName(v: Tree): string
  {
    match v
    case Null => "NoneType"
    case Bool(_) => "bool"
    case Int(_) => "int"
    case Str(_) => "str"
    case Obj(_) => "dict"
    case Arr(_) => "list"
  }

  /** The inner `do_item(me, v)`: a line for `v`, then its dict keys, or the first element of a non-empty list under `me[i]`. */
  ghost function DocItem(me: string, v: Tree): seq<Line>
    decreases v, 3
  {
    [Line(me, TypeName(v))] +
    match v
    case Obj(fields) => DocumentLines(fields, Some(me))
    case Arr(items) => if |items| > 0 then DocItem(me + "[i]", items[0]) else []
    case _ => []
  }

  /** The loop of `documentNamespace` over the keys `ks` of `n`. */
  ghost function DocumentKeys(n: map<string, Tree>, parent: Option<string>, ks: set<string>): seq<Line>
    requires ks <= n.Keys
    decreases Obj(n), 1, ks
  {
    if ks == {} then []
    else
      var k := Pick(ks);
      DocItem(AppendToParent(parent, k), n[k]) + DocumentKeys(n, parent, ks - {k})
  }

  /** The lines `documentNamespace(n, parent)` prints, in order. */
  ghost function DocumentLines(n: map<string, Tree>, parent: Option<string>): seq<Line>
    decreases Obj(n), 2
  {
    DocumentKeys(n, parent, n.Keys)
  }

  /** The text of some lines: `path -> typename`, each ended by a newline. */
  function Render(lines: seq<Line>): string
  {
    if |lines| == 0 then ""
    else lines[0].path + " -> " + lines[0].typeName + "\n" + Render(lines[1..])
  }

  /** `documentNamespace(n, parent)`. */
  ghost function DocumentNamespace(n: map<string, Tree>, parent: Option<string>): string
  {
    Render(DocumentLines(n, parent))
  }

}
