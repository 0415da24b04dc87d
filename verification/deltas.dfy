/**
 The delta `compareNamespace` returns: four buckets (changed, unchanged,
 added, removed), each mapping a dotted path to a `{parent, old, new}` entry.
 */
module Deltas {

  import opened Wrappers
  import opened Trees

  /** The state a key is classified into; it names the bucket its entry goes to. */
  datatype State = Changed | Unchanged | Added | Removed

  /** One `{'parent': ..., 'old': ..., 'new': ...}` record. A side that lacks the key reads `Null`, as `None` does in the source. */
  datatype Entry = Entry(parent: Option<string>, oldValue: Tree, newValue: Tree)

  type Bucket = map<string, Entry>

  /** `kept` is the source's `unchanged` bucket (`unchanged` is a Dafny keyword). */
  datatype Delta = Delta(changed: Bucket, kept: Bucket, added: Bucket, removed: Bucket) {

    /** `delta[st]` */
    function Get(st: State): Bucket
    {
      match st
      case Changed => changed
      case Unchanged => kept
      case Added => added
      case Removed => removed
    }

    /** `delta[st][path] = e`: one bucket gains (or overwrites) one entry. */
    function Put(st: State, path: string, e: Entry): (r: Delta)
      ensures r.Get(st) == Get(st)[path := e]
      ensures forall s :: s != st ==> r.Get(s) == Get(s)
    {
      match st
      case Changed => this.(changed := changed[path := e])
      case Unchanged => this.(kept := kept[path := e])
      case Added => this.(added := added[path := e])
      case Removed => this.(removed := removed[path := e])
    }

    /** `updateDelta`: each bucket is `dict.update`d with the child's, whose entries win on a shared path. */
    function Update(child: Delta): (r: Delta)
      ensures forall s :: r.Get(s).Keys == Get(s).Keys + child.Get(s).Keys
      ensures forall s, q :: q in child.Get(s) ==> r.Get(s)[q] == child.Get(s)[q]
      ensures forall s, q :: q in Get(s) && q !in child.Get(s) ==> r.Get(s)[q] == Get(s)[q]
    {
      Delta(changed + child.changed, kept + child.kept,
            added + child.added, removed + child.removed)
    }
  }

  /** A fresh delta with four empty buckets. */
  const Empty: Delta := Delta(map[], map[], map[], map[])

  /** Updating an empty delta copies the other one. */
  lemma UpdateEmpty(d: Delta)
    ensures Empty.Update(d) == d
  {
    assert map[] + d.changed == d.changed;
    assert map[] + d.kept == d.kept;
    assert map[] + d.added == d.added;
    assert map[] + d.removed == d.removed;
  }

}
