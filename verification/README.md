# dictns structural diff, in Dafny

A model of the diff engine of `dictns`: the functions that compare two
JSON-shaped trees key by key, filter the resulting delta down to its
deepest entries, and print a one-line-per-path outline of a tree.

- A tree (`Trees.Tree`) is `null`, a bool, an int, a string, a dict
  (`Obj`, a `map<string, Tree>`) or a list (`Arr`). Deep `==` on Python
  dicts and lists is Dafny's datatype equality: insensitive to dict order,
  sensitive to list order.
- `_appendToParent` is `Paths.AppendToParent`. `Paths.SplitPath` cuts a
  path at its last dot; for a key without dots it undoes the join
  (`Paths.AppendThenSplit`).
- A delta (`Deltas.Delta`) has four buckets: changed, unchanged (field
  `kept`), added and removed. Each bucket maps a dotted path to an
  `Entry(parent, oldValue, newValue)`. `Null` stands both for an absent
  side and for a JSON null, as `None` does in the source.
  `Delta.Put` is the item assignment into a bucket. `Delta.Update` is
  `updateDelta`: a `dict.update` per bucket, which is map override `+`.
- `compareNamespace` is `DictNs.CompareNamespace`, with its inner loop
  `DictNs.DoItem`. The loop over `set(old) | set(new)` visits keys in an
  order Python does not specify. It is modelled as a fold (`DictNs.Run`)
  that takes keys in the fixed but unspecified order of `Trees.Pick`. One
  pass of the loop is `DictNs.Step`. Because of `Pick`, these functions
  are ghost.
- `Recording.Recorded` is an order-free reference definition: the set of
  paths a comparison puts in each bucket.
- `filterDelta` is the method `DictNs.FilterDelta`, whose loop is
  `DictNs.FilterBucket`. `DictNs.Prune` is its reference definition: a
  bucket minus every key that some entry of that bucket names as parent.
  Deltas are values, so the copy the source makes before deleting is
  implicit: the input delta is never changed.
- `documentNamespace` is `DictNs.DocumentNamespace`. It builds a list of
  `Line(path, typeName)` and renders it as `path -> type` lines.
  `DocumentLaws.Described` is the order-free set of lines it must print.
- The older copy in `namespace/__init__.py` is the module `LegacyNs`. It
  computes the added, removed, changed and unchanged key sets first, then
  runs four loops. `LegacyProofs.LegacyAgrees` proves that, for dot-free
  keys, it computes the same delta as the packaged copy, and
  `LegacyProofs.DocumentAgrees` that it prints the same outline. Its
  `LegacyNs.FilterDelta` states in its own contract that it filters each
  bucket exactly as `DictNs.Prune` does.
- `Scenarios` holds concrete cases:
  - the repository's outline test;
  - a nested example: a changed `owner` dict and a changed `size`,
    compared and then filtered;
  - two lists with the same elements in another order.

When a key contains a dot, two different keys can produce the same path,
and which entry survives then depends on the visiting order. Theorems
about entry values, disjoint buckets, argument swapping and agreement of
the two copies therefore assume dot-free keys (`Trees.DotFree`). Theorems
about key sets, entry shapes and self-comparison hold for every input and
every visiting order.

## Model

| member | source | states |
|---|---|---|
| Paths.AppendToParentShape | dictns.py:63-67 | The joined path is the parent path, then a dot, then the key. With no parent it is the key alone. The key is the suffix of the path, and the path lies below its parent. |
| Paths.SplitThenAppend | dictns.py:63-67 | Every path is some join: splitting at its last dot gives a parent and a dot-free key that join back to the same path. |
| Paths.AppendThenSplit | dictns.py:63-67 | For a dot-free key, the parent and the key can be read back from the joined path. So joining is injective on dot-free keys. |
| Paths.SameKey | dictns.py:143 | Two dot-free keys under the same parent whose paths are equal to, or are ancestors of, one common path are the same key. |
| LegacyNs.AppendToParent | namespace/__init__.py:63-70 | The older if/else join yields exactly the packaged copy's path for every parent and key. |
| DictNs.Classify | dictns.py:132-142 | Each key gets exactly one state. It is added iff it is only in the new dict, and removed iff it is only in the old one. A key in both is changed iff its two values differ and unchanged iff they are equal. |
| Deltas.Delta.Put | dictns.py:144 | Storing an entry sets that path in the named bucket and leaves every other bucket as it was. |
| Deltas.Delta.Update | dictns.py:122-126 | `updateDelta` merges bucket by bucket: each bucket's paths are the union of both sides' paths; a path the child recorded holds the child's entry; any other path keeps the entry it had. |
| Deltas.UpdateEmpty | dictns.py:154-155 | Merging `do_item`'s delta into the fresh empty delta returns `do_item`'s delta unchanged. |
| Recording.CompareIsLoop | dictns.py:128-156 | `compareNamespace` returns what the loop of `do_item` builds over the union of both key sets. |
| Recording.StepKeys | dictns.py:132-150 | One pass adds to each bucket exactly the paths its key contributes: its own path if the state matches, plus the bucket of its child comparison when it recurses. |
| Recording.RunKeys | dictns.py:132-150 | After the loop, each bucket's paths are the initial ones plus all contributions of the visited keys, in any visiting order. |
| Recording.CompareKeys | dictns.py:128-156 | For all inputs and any visiting order, a bucket holds exactly the reference set of paths: keys in that state, plus whatever the dict-on-both-sides keys' child comparisons record in that bucket. |
| Recording.RecordedBelow | dictns.py:143-149 | A comparison under a parent path records only paths strictly below that parent. |
| Recording.RecordedForShape | dictns.py:143-150 | Whatever a key contributes is its own path or lies below it. |
| Recording.OwnerUnique | dictns.py:143-150 | With dot-free keys, no path is contributed by two different keys of one level. |
| Recording.StepOwnValue | dictns.py:143-150 | What one pass writes at a path it contributes does not depend on the delta accumulated so far. |
| Recording.StepFrame | dictns.py:143-150 | A pass leaves every path it does not contribute as it was. |
| Recording.RunFrame | dictns.py:132-150 | The loop leaves every path none of its keys contributes as it was. |
| Recording.RunValue | dictns.py:132-150 | With dot-free keys, the loop ends with each path holding what its owning key's pass writes there, whatever the visiting order. |
| Recording.RecordedOverUnion | dictns.py:132 | The paths contributed by a union of key sets are the union of the paths contributed by each set. |
| Recording.RunSeq | dictns.py:132-150 | With dot-free keys, running the loop over one key set and then another gives the same delta as one loop over their union. |
| CompareLaws.CompareRecordsKey | dictns.py:133-144 | Every key's path is in the bucket of its state, with entry (parent, `old.get(k)`, `new.get(k)`). It is in no other bucket. So added entries have no old value and removed entries no new value. |
| CompareLaws.CompareEmbedsChild | dictns.py:146-150 | For a key holding a dict on both sides, every entry of its child comparison appears unaltered in the same bucket of the parent's delta. |
| CompareLaws.CompareDescendsOnlyIntoDicts | dictns.py:146-150 | Anything recorded below a key's path comes from that key's child comparison. Such a comparison happens only when the key is changed or unchanged and holds a dict on both sides; lists and scalars are never descended into. |
| CompareLaws.RecordedDisjoint | dictns.py:132-150 | With dot-free keys, no path is in the reference sets of two different buckets. |
| CompareLaws.CompareBucketsDisjoint | dictns.py:132-150 | With dot-free keys at every level, the four buckets of a delta have pairwise disjoint paths. |
| CompareLaws.PutShaped | dictns.py:144 | Storing an entry that fits its bucket keeps every entry fitting its bucket. |
| CompareLaws.UpdateShaped | dictns.py:122-126 | Merging two deltas whose entries fit their buckets gives such a delta. |
| CompareLaws.StepShapes | dictns.py:133-150 | One pass of the loop keeps every entry fitting its bucket. |
| CompareLaws.RunShapes | dictns.py:132-150 | The whole loop keeps every entry fitting its bucket. |
| CompareLaws.CompareShapes | dictns.py:133-150 | For all inputs, every entry fits its bucket. Added entries lack an old value and removed entries a new one. Changed entries hold two different values and unchanged entries two equal ones. |
| CompareLaws.RecordedSelf | dictns.py:132-150 | Comparing a tree with itself marks unchanged exactly every dict location, nested ones included, and records nothing in the other buckets. |
| CompareLaws.CompareSelf | dictns.py:132-150 | Comparing a tree with itself gives empty changed, added and removed buckets. The unchanged bucket holds every key path, nested dict paths included, each with equal old and new values. |
| CompareLaws.MirrorPut | dictns.py:144 | Swapping sides commutes with storing an entry. |
| CompareLaws.MirrorUpdate | dictns.py:122-126 | Swapping sides commutes with `updateDelta`. |
| CompareLaws.StepMirror | dictns.py:133-150 | With dot-free keys at every level, one pass on the swapped dicts gives the swapped result of that pass. |
| CompareLaws.RunMirror | dictns.py:132-150 | With dot-free keys at every level, the loop on the swapped dicts gives the swapped result of the loop. |
| CompareLaws.CompareMirror | dictns.py:128-156 | With dot-free keys at every level, comparing new against old gives the mirror of comparing old against new: added and removed trade places, and every entry swaps its two values. |
| DictNs.FilterBucket | dictns.py:169-174 | The filtered bucket keeps exactly the keys that no entry of the same bucket names as parent, with their entries unaltered. |
| DictNs.FilterDelta | dictns.py:159-175 | Each output bucket is its own input bucket minus the parents named inside it. Other buckets cause no deletions. |
| FilterLaws.PruneExact | dictns.py:170-174 | A key survives filtering iff no entry of its bucket names it as parent, and survivors keep their entries. |
| FilterLaws.PruneIdempotent | dictns.py:167-175 | Filtering an already filtered bucket changes nothing. |
| FilterLaws.PutParents | dictns.py:143-144 | For a dot-free key, storing an entry whose recorded parent is the prefix of its path keeps that property for every entry. |
| FilterLaws.UpdateParents | dictns.py:122-126 | Merging two deltas with that property keeps it. |
| FilterLaws.StepParents | dictns.py:143-150 | With dot-free keys, one pass keeps every entry's parent equal to its path without the last key. |
| FilterLaws.RunParents | dictns.py:132-150 | With dot-free keys, the loop keeps every entry's parent equal to its path without the last key. |
| FilterLaws.CompareParents | dictns.py:143-149 | With dot-free keys, every entry's parent is its path with the last key cut off. That is what lets the filter find parents. |
| FilterLaws.FilterKeepsKeyExactly | dictns.py:146-174 | After filtering, a key's own path is dropped iff the key is a dict on both sides and some child key has the same state. A changed parent is not removed just because a child was added. |
| DocumentLaws.LineSetAppend | dictns.py:92 | The lines of two concatenated outlines are the lines of each. |
| DocumentLaws.DocItemDescribed | dictns.py:79-91 | The lines printed for one value are exactly its reference lines: its own line; for a dict, the dict's lines; for a non-empty list, the lines of its first element under `[i]`. |
| DocumentLaws.DocumentKeysDescribed | dictns.py:76-93 | The lines printed for a set of keys are the union of each key's lines. |
| DocumentLaws.DocumentDescribed | dictns.py:70-93 | The outline's set of lines equals the order-free reference set, for every dict and parent. |
| DocumentLaws.DocumentKeyLines | dictns.py:76-92 | Every key prints its `path -> type` line. A dict key also prints each of its own keys under the dotted path. A non-empty list key prints its first element under `path[i]`. |
| DocumentLaws.DocumentKeysListTail | dictns.py:87-90 | Replacing a list by another list with the same first element leaves the set of lines of any set of keys unchanged. |
| DocumentLaws.ListTailIgnored | dictns.py:87-90 | Two lists that share their first element produce the same set of outline lines: only the first element is documented. |
| Scenarios.DocumentListed | test/test_namespace.py:71-77 | The outline of `{'a': [{'b': {'c': 1}}]}` is exactly `a -> list`, `a[i] -> dict`, `a[i].b -> dict`, `a[i].b.c -> int`, each ended by a newline. |
| Scenarios.DocumentSingle | dictns.py:76-93 | The outline of a one-key dict is the outline of its one value under the key's path. |
| Scenarios.ExampleChanged | dictns.py:132-175 | The worked example's changed bucket is `size`, `owner` and `owner.name`. Filtered, it is `size` (5 to 8, no parent) and `owner.name` (bob to john, parent `owner`). |
| Scenarios.ExampleKept | dictns.py:132-175 | Filtered, the worked example's unchanged bucket is `color` and `owner.age` with their equal values. |
| Scenarios.ExampleAdded | dictns.py:132-175 | Filtered, the worked example's added bucket is `protected` and `owner.genre`, with no old value. |
| Scenarios.ExampleRemoved | dictns.py:132-175 | Filtered, the worked example's removed bucket is `form` and `owner.nationality`, with no new value. |
| Scenarios.TopRecorded | dictns.py:132-150 | The worked example records `size`, `owner`, `owner.name` as changed; `color`, `owner.age` as unchanged; `form`, `owner.nationality` as removed; `protected`, `owner.genre` as added. |
| Scenarios.OwnerRecorded | dictns.py:132-150 | The comparison of the two `owner` dicts records one path per bucket: `owner.name`, `owner.age`, `owner.nationality`, `owner.genre`. |
| Scenarios.ListOrderMatters | dictns.py:139-140 | Two lists with the same elements in another order are one changed entry at the list's path. Nothing else is recorded: lists are compared whole and never descended into. |
| LegacyNs.FilterDelta | namespace/__init__.py:197-205 | The older filter drops, in each bucket, exactly the parents named in that bucket. |
| LegacyProofs.AddedLoopIsRun | namespace/__init__.py:147-151 | The added-keys loop stores `{parent, None, new[k]}` exactly as the packaged loop does for those keys. |
| LegacyProofs.RemovedLoopIsRun | namespace/__init__.py:153-157 | The removed-keys loop stores `{parent, old[k], None}` exactly as the packaged loop does for those keys. |
| LegacyProofs.ChangedLoopIsRun | namespace/__init__.py:159-169 | On keys whose values differ, the inner `vOld != vNew` guard always holds. The changed-keys loop, recursion into two dicts included, equals the packaged loop on those keys. |
| LegacyProofs.UnchangedLoopIsRun | namespace/__init__.py:171-181 | On keys whose values are equal, the inner `vOld == vNew` guard always holds. The unchanged-keys loop equals the packaged loop on those keys. |
| LegacyProofs.LegacyAgrees | namespace/__init__.py:133-186 | The four-loop comparison computes the same delta as the packaged single loop when keys are dot-free. |
| LegacyProofs.DocItemAgrees | namespace/__init__.py:82-94 | Both copies document one value with the same lines. |
| LegacyProofs.DocumentKeysAgree | namespace/__init__.py:79-95 | Both copies document any set of keys with the same lines. |
| LegacyProofs.DocumentLinesAgree | namespace/__init__.py:73-96 | Both copies build the same outline lines. |
| LegacyProofs.DocumentAgrees | namespace/__init__.py:73-96 | Both copies of `documentNamespace` print the same text for every tree. |

## Left out

- The `Namespace` class (`dictns.py:5-60`, `namespace/__init__.py:5-60`) is left out: type dispatch in `__new__`, attribute aliasing, pickling, copying and `__repr__`. Trees are plain values, so a `Namespace` and a `dict` with the same contents are the same `Obj`.
- `setup.py` is left out: it is packaging only.
- The proxy, pickle and copy tests are left out. They check object identity, which values do not have.
- Floats and Python's cross-type equality (`1 == True == 1.0`) are left out. Scalars of different constructors never compare equal here, and `DictNs.TypeName` covers the six tree constructors only.
- Python's set iteration order is not modelled. `compareNamespace` loops over `set(old) | set(new)`, whose order Python does not specify; the model takes keys in the fixed but unspecified order of `Trees.Pick`, and every theorem holds for that order whatever it is. Bucket order does not matter because buckets are maps.
- Dict insertion order is not modelled. `documentNamespace` loops over `n.items()`, which prints keys in insertion order, but a Dafny map carries no insertion order. The model prints each level's lines in `Trees.Pick` order instead. So its theorems state the set of lines (`DocumentLaws.DocumentDescribed`, `DocumentLaws.ListTailIgnored`). They give exact text only where every level has one key (`Scenarios.DocumentListed`), or between the two copies, which iterate the same dict (`LegacyProofs.DocumentAgrees`).
- `compareNamespace` and `documentNamespace` are ghost functions, because they fold over `Pick`. `filterDelta` is an executable method.
- Cyclic inputs and recursion-depth limits are left out: trees are finite values.
- The `None` overload is kept, not resolved. `Null` marks both an absent side and a JSON null, so an added key whose value is null gives an entry whose two values are both null.
- CompareLaws.CompareRecordsKey: requires the keys of the compared level to be dot-free. With a dotted key such as `a.b` next to `a: {b: …}`, two keys share a path, and the entry that survives depends on the visiting order.
- CompareLaws.CompareEmbedsChild: requires dot-free keys at the compared level, for the same reason.
- CompareLaws.CompareDescendsOnlyIntoDicts: requires dot-free keys at the compared level and a dot-free `k`, for the same reason.
- CompareLaws.RecordedDisjoint: requires dot-free keys at every level; with dotted keys one path can be recorded in two buckets.
- CompareLaws.CompareBucketsDisjoint: requires dot-free keys at every level, for the same reason.
- Recording.OwnerUnique: requires dot-free keys.
- Recording.RunValue: requires dot-free keys; with dotted keys the last writer of a shared path wins.
- Recording.RunSeq: requires dot-free keys, for the same reason.
- FilterLaws.PutParents: requires the stored key to be dot-free; with a dot in `k`, the path `parent.k` splits at the key's own dot, not at `parent`.
- FilterLaws.StepParents: requires dot-free keys at every level, for the same reason.
- FilterLaws.RunParents: requires dot-free keys at every level, for the same reason.
- FilterLaws.CompareParents: requires dot-free keys at every level; a dotted key's path splits at the wrong dot.
- FilterLaws.FilterKeepsKeyExactly: requires dot-free keys at every level.
- LegacyProofs.ChangedLoopIsRun: requires dot-free keys at every level.
- LegacyProofs.UnchangedLoopIsRun: requires dot-free keys at every level.
- CompareLaws.StepMirror: requires dot-free keys at every level of both dicts, for the reason given at `CompareLaws.CompareMirror`.
- CompareLaws.RunMirror: requires dot-free keys at every level of both dicts, for the reason given at `CompareLaws.CompareMirror`.
- CompareLaws.CompareMirror: requires dot-free keys at every level. The swapped call iterates over `set(new) | set(old)`, which Python may visit in another order. With dotted keys, for example old `{"a": {"b": 1}, "a.b": 5}` and new `{"a": {"b": 3}, "a.b": 6}`, the entry that survives at `a.b` depends on that order, so the swapped result need not be the mirror image.
- LegacyProofs.LegacyAgrees: requires dot-free keys at every level. With dotted keys the two copies write shared paths in different orders and can disagree.
