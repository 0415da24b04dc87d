/**
 Where `compareNamespace` records things. `Recorded` is an order-free
 reference for the set of paths in each bucket; the lemmas show that the
 fold over keys produces exactly those paths whatever its visiting order,
 and, when keys hold no dots, which entry ends up at each path.
 */
module Recording {

  import opened Wrappers
  import opened Trees
  import opened Paths
  import opened Deltas
  import opened DictNs

  /** The paths key `k` contributes to bucket `st`: its own path if it has that state, then what its child comparison records. */
  ghost function RecordedFor(before: map<string, Tree>, after: map<string, Tree>, parent: Option<string>,
                             k: string, st: State): set<string>
    decreases Obj(before), 0
  {
    var me := AppendToParent(parent, k);
    (if Classify(before, after, k) == st then {me} else {})
    + (if Recurses(before, after, k) then Recorded(before[k].fields, after[k].fields, Some(me), st) else {})
  }

  /** The paths the keys `ks` contribute to bucket `st`. */
  ghost function RecordedOver(before: map<string, Tree>, after: map<string, Tree>, parent: Option<string>,
                              ks: set<string>, st: State): set<string>
    decreases Obj(before), 1
  {
    set k, q | k in ks && q in RecordedFor(before, after, parent, k, st) :: q
  }

  /** The paths a comparison below `parent` records in bucket `st`. */
  ghost function Recorded(before: map<string, Tree>, after: map<string, Tree>, parent: Option<string>,
                          st: State): set<string>
    decreases Obj(before), 2
  {
    RecordedOver(before, after, parent, before.Keys + after.Keys, st)
  }

  lemma RecordedOverSplit(before: map<string, Tree>, after: map<string, Tree>, parent: Option<string>,
                          ks: set<string>, k: string, st: State)
    requires k in ks
    ensures RecordedOver(before, after, parent, ks, st)
         == RecordedFor(before, after, parent, k, st) + RecordedOver(before, after, parent, ks - {k}, st)
  {
  }

  lemma RecordedOverNone(before: map<string, Tree>, after: map<string, Tree>, parent: Option<string>, st: State)
    ensures RecordedOver(before, after, parent, {}, st) == {}
  {
  }

  // ---------------------------------------------------------------------
  // Key sets: the same for every visiting order, dots or not
  // ---------------------------------------------------------------------

  lemma {:induction false} StepKeys(acc: Delta, before: map<string, Tree>, after: map<string, Tree>,
                                    parent: Option<string>, k: string, st: State)
    ensures Step(acc, before, after, parent, k).Get(st).Keys
         == acc.Get(st).Keys + RecordedFor(before, after, parent, k, st)
    decreases Obj(before), 0
  {
    if Recurses(before, after, k) {
      CompareKeys(before[k].fields, after[k].fields, Some(AppendToParent(parent, k)), st);
    }
  }

  lemma {:induction false} RunKeys(acc: Delta, before: map<string, Tree>, after: map<string, Tree>,
                                   parent: Option<string>, ks: set<string>, st: State)
    ensures Run(acc, before, after, parent, ks).Get(st).Keys
         == acc.Get(st).Keys + RecordedOver(before, after, parent, ks, st)
    decreases Obj(before), 1, ks
  {
    if ks == {} {
      RecordedOverNone(before, after, parent, st);
    } else {
      var k := Pick(ks);
      StepKeys(acc, before, after, parent, k, st);
      RunKeys(Step(acc, before, after, parent, k), before, after, parent, ks - {k}, st);
      RecordedOverSplit(before, after, parent, ks, k, st);
    }
  }

  /** Each bucket of `compareNamespace` holds exactly the reference paths, for any inputs and any visiting order. */
  lemma {:induction false} CompareKeys(before: map<string, Tree>, after: map<string, Tree>,
                                       parent: Option<string>, st: State)
    ensures CompareNamespace(before, after, parent).Get(st).Keys == Recorded(before, after, parent, st)
    decreases Obj(before), 2
  {
    UpdateEmpty(DoItem(before, after, parent));
    RunKeys(Empty, before, after, parent, before.Keys + after.Keys, st);
  }

  // ---------------------------------------------------------------------
  // Shape of recorded paths
  // ---------------------------------------------------------------------

  /** A comparison below `Some(base)` records only paths below `base`. */
  lemma {:induction false} RecordedBelow(before: map<string, Tree>, after: map<string, Tree>, base: string,
                                         st: State, q: string)
    requires q in Recorded(before, after, Some(base), st)
    ensures Below(q, base)
    decreases Obj(before)
  {
    var k :| k in before.Keys + after.Keys && q in RecordedFor(before, after, Some(base), k, st);
    var me := AppendToParent(Some(base), k);
    if Classify(before, after, k) == st && q == me {
      AppendToParentShape(Some(base), k);
    } else {
      RecordedBelow(before[k].fields, after[k].fields, me, st, q);
      BelowExtension(q, base, k);
    }
  }

  /** What key `k` contributes is its own path, with its own state, or lies below it in its child comparison. */
  lemma RecordedForShape(before: map<string, Tree>, after: map<string, Tree>, parent: Option<string>,
                         k: string, st: State, q: string)
    requires q in RecordedFor(before, after, parent, k, st)
    ensures AtOrBelow(q, AppendToParent(parent, k))
    ensures q == AppendToParent(parent, k) ==> Classify(before, after, k) == st
    ensures q != AppendToParent(parent, k) ==>
              Recurses(before, after, k)
              && q in Recorded(before[k].fields, after[k].fields, Some(AppendToParent(parent, k)), st)
  {
    var me := AppendToParent(parent, k);
    if Recurses(before, after, k) && q in Recorded(before[k].fields, after[k].fields, Some(me), st) {
      RecordedBelow(before[k].fields, after[k].fields, me, st, q);
    }
  }

  /** With keys free of dots, a recorded path belongs to one key only. */
  lemma OwnerUnique(before: map<string, Tree>, after: map<string, Tree>, parent: Option<string>,
                    k1: string, k2: string, st1: State, st2: State, q: string)
    requires '.' !in k1 && '.' !in k2
    requires q in RecordedFor(before, after, parent, k1, st1)
    requires q in RecordedFor(before, after, parent, k2, st2)
    ensures k1 == k2
  {
    RecordedForShape(before, after, parent, k1, st1, q);
    RecordedForShape(before, after, parent, k2, st2, q);
    SameKey(parent, k1, k2, q);
  }

  // ---------------------------------------------------------------------
  // Values: only the owning key ever writes a path
  // ---------------------------------------------------------------------

  lemma StepOwnValue(acc: Delta, before: map<string, Tree>, after: map<string, Tree>,
                     parent: Option<string>, k: string, st: State, q: string)
    requires q in RecordedFor(before, after, parent, k, st)
    ensures q in Step(acc, before, after, parent, k).Get(st)
    ensures q in Step(Empty, before, after, parent, k).Get(st)
    ensures Step(acc, before, after, parent, k).Get(st)[q] == Step(Empty, before, after, parent, k).Get(st)[q]
  {
    var me := AppendToParent(parent, k);
    StepKeys(acc, before, after, parent, k, st);
    StepKeys(Empty, before, after, parent, k, st);
    RecordedForShape(before, after, parent, k, st, q);
    if Recurses(before, after, k) {
      CompareKeys(before[k].fields, after[k].fields, Some(me), st);
    }
  }

  lemma StepFrame(acc: Delta, before: map<string, Tree>, after: map<string, Tree>,
                  parent: Option<string>, k: string, st: State, q: string)
    requires q in acc.Get(st) && q !in RecordedFor(before, after, parent, k, st)
    ensures q in Step(acc, before, after, parent, k).Get(st)
    ensures Step(acc, before, after, parent, k).Get(st)[q] == acc.Get(st)[q]
  {
    if Recurses(before, after, k) {
      CompareKeys(before[k].fields, after[k].fields, Some(AppendToParent(parent, k)), st);
    }
  }

  /** A path no key of `ks` contributes keeps the value it had before the loop. */
  lemma {:induction false} RunFrame(acc: Delta, before: map<string, Tree>, after: map<string, Tree>,
                                    parent: Option<string>, ks: set<string>, st: State, q: string)
    requires q in acc.Get(st) && q !in RecordedOver(before, after, parent, ks, st)
    ensures q in Run(acc, before, after, parent, ks).Get(st)
    ensures Run(acc, before, after, parent, ks).Get(st)[q] == acc.Get(st)[q]
    decreases ks
  {
    if ks != {} {
      var k := Pick(ks);
      RecordedOverSplit(before, after, parent, ks, k, st);
      StepFrame(acc, before, after, parent, k, st, q);
      RunFrame(Step(acc, before, after, parent, k), before, after, parent, ks - {k}, st, q);
    }
  }

  /** With keys free of dots, the loop leaves at each contributed path what the owning key's pass alone writes there. */
  lemma {:induction false} RunValue(acc: Delta, before: map<string, Tree>, after: map<string, Tree>,
                                    parent: Option<string>, ks: set<string>, k: string, st: State, q: string)
    requires KeysDotFree(ks)
    requires k in ks && q in RecordedFor(before, after, parent, k, st)
    ensures q in Run(acc, before, after, parent, ks).Get(st)
    ensures q in Step(Empty, before, after, parent, k).Get(st)
    ensures Run(acc, before, after, parent, ks).Get(st)[q] == Step(Empty, before, after, parent, k).Get(st)[q]
    decreases ks
  {
    StepOwnValue(acc, before, after, parent, k, st, q);
    var k0 := Pick(ks);
    var next := Step(acc, before, after, parent, k0);
    if k0 == k {
      StepOwnValue(acc, before, after, parent, k, st, q);
      assert q !in RecordedOver(before, after, parent, ks - {k}, st) by {
        if q in RecordedOver(before, after, parent, ks - {k}, st) {
          var k2 :| k2 in ks - {k} && q in RecordedFor(before, after, parent, k2, st);
          OwnerUnique(before, after, parent, k, k2, st, st, q);
        }
      }
      RunFrame(next, before, after, parent, ks - {k}, st, q);
    } else {
      RunValue(next, before, after, parent, ks - {k0}, k, st, q);
    }
  }

  /** `compareNamespace` reads its result off the loop of `do_item`. */
  lemma CompareIsLoop(before: map<string, Tree>, after: map<string, Tree>, parent: Option<string>)
    ensures CompareNamespace(before, after, parent) == Run(Empty, before, after, parent, before.Keys + after.Keys)
  {
    UpdateEmpty(DoItem(before, after, parent));
  }

  lemma RecordedOverUnion(before: map<string, Tree>, after: map<string, Tree>, parent: Option<string>,
                          xs: set<string>, ys: set<string>, st: State)
    ensures RecordedOver(before, after, parent, xs + ys, st)
         == RecordedOver(before, after, parent, xs, st) + RecordedOver(before, after, parent, ys, st)
  {
  }

  lemma RunSeqAt(acc: Delta, before: map<string, Tree>, after: map<string, Tree>, parent: Option<string>,
                 xs: set<string>, ys: set<string>, st: State, q: string)
    requires KeysDotFree(xs + ys)
    requires q in Run(Run(acc, before, after, parent, xs), before, after, parent, ys).Get(st)
    requires q in Run(acc, before, after, parent, xs + ys).Get(st)
    ensures Run(Run(acc, before, after, parent, xs), before, after, parent, ys).Get(st)[q]
         == Run(acc, before, after, parent, xs + ys).Get(st)[q]
  {
    var mid := Run(acc, before, after, parent, xs);
    if q in RecordedOver(before, after, parent, ys, st) {
      var k :| k in ys && q in RecordedFor(before, after, parent, k, st);
      RunValue(mid, before, after, parent, ys, k, st, q);
      RunValue(acc, before, after, parent, xs + ys, k, st, q);
    } else if q in RecordedOver(before, after, parent, xs, st) {
      var k :| k in xs && q in RecordedFor(before, after, parent, k, st);
      RunKeys(acc, before, after, parent, xs, st);
      RunValue(acc, before, after, parent, xs, k, st, q);
      RunFrame(mid, before, after, parent, ys, st, q);
      RunValue(acc, before, after, parent, xs + ys, k, st, q);
    } else {
      RunKeys(acc, before, after, parent, xs + ys, st);
      RecordedOverUnion(before, after, parent, xs, ys, st);
      RunFrame(acc, before, after, parent, xs, st, q);
      RunFrame(mid, before, after, parent, ys, st, q);
      RunFrame(acc, before, after, parent, xs + ys, st, q);
    }
  }

  lemma RunSeqBucket(acc: Delta, before: map<string, Tree>, after: map<string, Tree>, parent: Option<string>,
                     xs: set<string>, ys: set<string>, st: State)
    requires KeysDotFree(xs + ys)
    ensures Run(Run(acc, before, after, parent, xs), before, after, parent, ys).Get(st)
         == Run(acc, before, after, parent, xs + ys).Get(st)
  {
    var mid := Run(acc, before, after, parent, xs);
    var lhs := Run(mid, before, after, parent, ys).Get(st);
    var rhs := Run(acc, before, after, parent, xs + ys).Get(st);
    RunKeys(acc, before, after, parent, xs, st);
    RunKeys(mid, before, after, parent, ys, st);
    RunKeys(acc, before, after, parent, xs + ys, st);
    RecordedOverUnion(before, after, parent, xs, ys, st);
    assert lhs.Keys == rhs.Keys;
    forall q | q in lhs ensures lhs[q] == rhs[q] {
      RunSeqAt(acc, before, after, parent, xs, ys, st, q);
    }
  }

  /** With keys free of dots, running the loop over `xs` and then over `ys` is running it over both at once. */
  lemma RunSeq(acc: Delta, before: map<string, Tree>, after: map<string, Tree>, parent: Option<string>,
               xs: set<string>, ys: set<string>)
    requires KeysDotFree(xs + ys)
    ensures Run(Run(acc, before, after, parent, xs), before, after, parent, ys)
         == Run(acc, before, after, parent, xs + ys)
  {
    RunSeqBucket(acc, before, after, parent, xs, ys, Changed);
    RunSeqBucket(acc, before, after, parent, xs, ys, Unchanged);
    RunSeqBucket(acc, before, after, parent, xs, ys, Added);
    RunSeqBucket(acc, before, after, parent, xs, ys, Removed);
  }

}
