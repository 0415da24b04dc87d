/**
 JSON-shaped trees as the diff engine sees them: scalars, dicts (string keys,
 no order) and lists (ordered). Datatype equality is Python's deep `==` on
 such values: dicts compare without regard to insertion order, lists
 element by element.
 */
module Trees {

  datatype Tree =
    | Null
    | Bool(b: bool)
    | Int(i: int)
    | Str(s: string)
    | Obj(fields: map<string, Tree>)
    | Arr(items: seq<Tree>)

  /** `d.get(k)`: the value stored under `k`, or `Null` (Python's `None`) when `k` is absent. */
  function Get(m: map<string, Tree>, k: string): (v: Tree)
    ensures k in m ==> v == m[k]
    ensures k !in m ==> v == Null
  {
    if k in m then m[k] else Null
  }

  /**
   The next key a loop over the set `s` visits. Python leaves the iteration
   order of a set unspecified; this is one fixed but unspecified choice.
   */
  ghost function Pick(s: set<string>): (k: string)
    requires s != {}
    ensures k in s
  {
    var k :| k in s; k
  }

  /** No key at this level contains a dot. */
  predicate KeysDotFree(keys: set<string>)
  {
    forall k :: k in keys ==> '.' !in k
  }

  /** No key at any dict level of `m` contains a dot (lists are not looked into). */
  predicate DotFree(m: map<string, Tree>)
    decreases Obj(m)
  {
    forall k :: k in m ==> '.' !in k && (m[k].Obj? ==> DotFree(m[k].fields))
  }

}
