/**
 Dotted paths: the flat names under which the diff engine records every
 location it visits (dictns.py `_appendToParent`).
 */
module Paths {

  import opened Wrappers

  /** `_appendToParent`: the path of key `k` below `parent`; a root key is its own path. Dots inside keys are not escaped. */
  function AppendToParent(parent: Option<string>, k: string): (r: string)
  {
    if parent.None? then k else parent.value + "." + k
  }

  /** What `AppendToParent` puts in front of the key. */
  function Prefix(parent: Option<string>): string
  {
    if parent.None? then "" else parent.value + "."
  }

  /** Splits a path at its last dot into the parent path and the last key. */
  function SplitPath(q: string): (r: (Option<string>, string))
  {
    if |q| == 0 then (None, "")
    else if q[|q| - 1] == '.' then (Some(q[..|q| - 1]), "")
    else
      var (parent, k) := SplitPath(q[..|q| - 1]);
      (parent, k + [q[|q| - 1]])
  }

  /** `q` lies strictly below the location `base`: it continues `base` with a dot. */
  predicate Below(q: string, base: string)
  {
    |base| < |q| && q[..|base|] == base && q[|base|] == '.'
  }

  /** `q` is the location `base` itself or lies below it. */
  predicate AtOrBelow(q: string, base: string)
  {
    q == base || Below(q, base)
  }

  /** The path is the prefix followed by the key, so the key is its suffix. */
  lemma AppendToParentShape(parent: Option<string>, k: string)
    ensures AppendToParent(parent, k) == Prefix(parent) + k
    ensures |AppendToParent(parent, k)| == |Prefix(parent)| + |k|
    ensures AppendToParent(parent, k)[|Prefix(parent)|..] == k
    ensures parent.Some? ==> Below(AppendToParent(parent, k), parent.value)
  {
    if parent.Some? {
      var p := parent.value;
      assert p + "." + k == p + ("." + k);
      assert (p + "." + k)[..|p|] == p;
    }
  }

  /** Splitting any path and joining the halves again gives the path back; the last key never holds a dot. */
  lemma {:induction false} SplitThenAppend(q: string)
    ensures AppendToParent(SplitPath(q).0, SplitPath(q).1) == q
    ensures '.' !in SplitPath(q).1
  {
    if |q| == 0 {
    } else if q[|q| - 1] == '.' {
      assert q == q[..|q| - 1] + ".";
    } else {
      var init := q[..|q| - 1];
      SplitThenAppend(init);
      var (parent, k) := SplitPath(init);
      assert SplitPath(q) == (parent, k + [q[|q| - 1]]);
      AppendToParentShape(parent, k);
      AppendToParentShape(parent, k + [q[|q| - 1]]);
      assert Prefix(parent) + (k + [q[|q| - 1]]) == (Prefix(parent) + k) + [q[|q| - 1]];
      assert q == init + [q[|q| - 1]];
    }
  }

  /** Adding a character other than a dot extends the last key of the split. */
  lemma SplitSnoc(q: string, c: char)
    requires c != '.'
    ensures SplitPath(q + [c]) == (SplitPath(q).0, SplitPath(q).1 + [c])
  {
    assert (q + [c])[..|q|] == q;
  }

  /** Adding a character to the key adds it to the path. */
  lemma AppendSnoc(parent: Option<string>, k: string, c: char)
    ensures AppendToParent(parent, k + [c]) == AppendToParent(parent, k) + [c]
  {
    AppendToParentShape(parent, k);
    AppendToParentShape(parent, k + [c]);
    assert Prefix(parent) + (k + [c]) == (Prefix(parent) + k) + [c];
  }

  /** For a key without dots, splitting its path recovers exactly the parent and the key. */
  lemma {:induction false} AppendThenSplit(parent: Option<string>, k: string)
    requires '.' !in k
    ensures SplitPath(AppendToParent(parent, k)) == (parent, k)
    decreases |k|
  {
    if |k| == 0 {
      if parent.Some? {
        var q := parent.value + "." + k;
        assert q == parent.value + ".";
        assert q[..|q| - 1] == parent.value;
      }
    } else {
      var init, c := k[..|k| - 1], k[|k| - 1];
      assert k == init + [c];
      assert c in k;
      assert '.' !in init by {
        forall i | 0 <= i < |init| ensures init[i] != '.' {
          assert init[i] == k[i];
        }
      }
      AppendThenSplit(parent, init);
      AppendSnoc(parent, init, c);
      SplitSnoc(AppendToParent(parent, init), c);
    }
  }

  /** Going one key deeper stays below the parent path. */
  lemma BelowExtension(q: string, base: string, k: string)
    requires AtOrBelow(q, base + "." + k)
    ensures Below(q, base)
  {
    var b2 := base + "." + k;
    assert b2[..|base|] == base;
    assert b2[|base|] == '.';
    if q != b2 {
      assert q[..|b2|] == b2;
      assert q[..|base|] == q[..|b2|][..|base|];
    }
  }

  /**
   The locations of two keys without dots under the same prefix are
   disjoint: a path at or below both belongs to one key.
   */
  lemma SameSegment(pre: string, k1: string, k2: string, q: string)
    requires '.' !in k1 && '.' !in k2
    requires AtOrBelow(q, pre + k1) && AtOrBelow(q, pre + k2)
    ensures k1 == k2
  {
    var n := |pre|;
    if |k1| != |k2| {
      // the shorter key meets a dot where the longer one has a character
    } else {
      assert q[..n + |k1|] == pre + k1;
      assert q[..n + |k2|] == pre + k2;
      assert k1 == (pre + k1)[n..] == (pre + k2)[n..] == k2;
    }
  }

  /** Two keys without dots whose locations below `parent` overlap are the same key. */
  lemma SameKey(parent: Option<string>, k1: string, k2: string, q: string)
    requires '.' !in k1 && '.' !in k2
    requires AtOrBelow(q, AppendToParent(parent, k1)) && AtOrBelow(q, AppendToParent(parent, k2))
    ensures k1 == k2
  {
    AppendToParentShape(parent, k1);
    AppendToParentShape(parent, k2);
    SameSegment(Prefix(parent), k1, k2, q);
  }

}
