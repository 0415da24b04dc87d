/**
 What `documentNamespace` (dictns.py) prints: one `path -> typename` line
 per dict location, recursing into dicts and into the first element of a
 non-empty list only, whatever order the keys are visited in.
 */
module DocumentLaws {

  import opened Wrappers
  import opened Trees
  import opened Paths
  import opened DictNs

  /** The lines of a listing, as a set. */
  ghost function LineSet(lines: seq<Line>): set<Line>
  {
    set l | l in lines
  }

  /** The lines a value at `me` should produce, in no particular order. */
  ghost function DescribedItem(me: string, v: Tree): set<Line>
    decreases v, 2
  {
    {Line(me, TypeName(v))} +
    match v
    case Obj(fields) => Described(fields, Some(me))
    case Arr(items) => if |items| > 0 then DescribedItem(me + "[i]", items[0]) else {}
    case _ => {}
  }

  /** The lines the keys `ks` of `n` below `parent` should produce, in no particular order. */
  ghost function DescribedOver(n: map<string, Tree>, parent: Option<string>, ks: set<string>): set<Line>
    requires ks <= n.Keys
    decreases Obj(n), 0
  {
    set k, l | k in ks && l in DescribedItem(AppendToParent(parent, k), n[k]) :: l
  }

  /** The lines the dict `n` below `parent` should produce, in no particular order. */
  ghost function Described(n: map<string, Tree>, parent: Option<string>): set<Line>
    decreases Obj(n), 1
  {
    DescribedOver(n, parent, n.Keys)
  }

  lemma DescribedOverSplit(n: map<string, Tree>, parent: Option<string>, ks: set<string>, k: string)
    requires ks <= n.Keys && k in ks
    ensures DescribedOver(n, parent, ks)
         == DescribedItem(AppendToParent(parent, k), n[k]) + DescribedOver(n, parent, ks - {k})
  {
  }

  lemma LineSetAppend(a: seq<Line>, b: seq<Line>)
    ensures LineSet(a + b) == LineSet(a) + LineSet(b)
  {
  }

  lemma {:induction false} DocItemDescribed(me: string, v: Tree)
    ensures LineSet(DocItem(me, v)) == DescribedItem(me, v)
    decreases v, 3
  {
    match v
    case Obj(fields) => DocumentDescribed(fields, Some(me));
    case Arr(items) =>
      if |items| > 0 {
        DocItemDescribed(me + "[i]", items[0]);
      }
    case _ =>
  }

  lemma {:induction false} DocumentKeysDescribed(n: map<string, Tree>, parent: Option<string>, ks: set<string>)
    requires ks <= n.Keys
    ensures LineSet(DocumentKeys(n, parent, ks)) == DescribedOver(n, parent, ks)
    decreases Obj(n), 1, ks
  {
    if ks == {} {
      assert LineSet([]) == {};
    } else {
      var k := Pick(ks);
      var item := DocItem(AppendToParent(parent, k), n[k]);
      DocItemDescribed(AppendToParent(parent, k), n[k]);
      DocumentKeysDescribed(n, parent, ks - {k});
      LineSetAppend(item, DocumentKeys(n, parent, ks - {k}));
      DescribedOverSplit(n, parent, ks, k);
    }
  }

  /** Whatever the visiting order, the listing holds exactly the described lines. */
  lemma {:induction false} DocumentDescribed(n: map<string, Tree>, parent: Option<string>)
    ensures LineSet(DocumentLines(n, parent)) == Described(n, parent)
    decreases Obj(n), 2
  {
    DocumentKeysDescribed(n, parent, n.Keys);
  }

  /**
   Each key gets a line with its path and type name; a dict value also gets
   the lines of its own keys below that path, and a non-empty list value
   those of its first element under `path[i]`.
   */
  lemma DocumentKeyLines(n: map<string, Tree>, parent: Option<string>, k: string)
    requires k in n
    ensures Line(AppendToParent(parent, k), TypeName(n[k])) in DocumentLines(n, parent)
    ensures n[k].Obj? ==>
              LineSet(DocumentLines(n[k].fields, Some(AppendToParent(parent, k)))) <= LineSet(DocumentLines(n, parent))
    ensures n[k].Arr? && |n[k].items| > 0 ==>
              LineSet(DocItem(AppendToParent(parent, k) + "[i]", n[k].items[0])) <= LineSet(DocumentLines(n, parent))
  {
    var me := AppendToParent(parent, k);
    DocumentDescribed(n, parent);
    DescribedOverSplit(n, parent, n.Keys, k);
    assert Line(me, TypeName(n[k])) in DescribedItem(me, n[k]);
    assert Line(me, TypeName(n[k])) in LineSet(DocumentLines(n, parent));
    if n[k].Obj? {
      DocumentDescribed(n[k].fields, Some(me));
    }
    if n[k].Arr? && |n[k].items| > 0 {
      DocItemDescribed(me + "[i]", n[k].items[0]);
    }
  }

  /**
   Replacing a list by another with the same first element leaves the set
   of lines of any keys unchanged. Only the set: equal dicts built in
   different insertion orders print their lines in different orders.
   */
  lemma {:induction false} DocumentKeysListTail(n: map<string, Tree>, parent: Option<string>, k: string,
                                                items: seq<Tree>, other: seq<Tree>, ks: set<string>)
    requires k in n && ks <= n.Keys
    requires |items| > 0 && |other| > 0 && items[0] == other[0]
    ensures LineSet(DocumentKeys(n[k := Arr(items)], parent, ks))
         == LineSet(DocumentKeys(n[k := Arr(other)], parent, ks))
    decreases ks
  {
    if ks != {} {
      var n1, n2 := n[k := Arr(items)], n[k := Arr(other)];
      var k' := Pick(ks);
      var me := AppendToParent(parent, k');
      DocumentKeysListTail(n, parent, k, items, other, ks - {k'});
      assert DocItem(me, n1[k']) == DocItem(me, n2[k']);
      LineSetAppend(DocItem(me, n1[k']), DocumentKeys(n1, parent, ks - {k'}));
      LineSetAppend(DocItem(me, n2[k']), DocumentKeys(n2, parent, ks - {k'}));
    }
  }

  /** Only the first element of a list is looked at: lists that share it are documented with the same lines. */
  lemma ListTailIgnored(n: map<string, Tree>, parent: Option<string>, k: string, items: seq<Tree>, other: seq<Tree>)
    requires k in n
    requires |items| > 0 && |other| > 0 && items[0] == other[0]
    ensures LineSet(DocumentLines(n[k := Arr(items)], parent)) == LineSet(DocumentLines(n[k := Arr(other)], parent))
  {
    assert n[k := Arr(items)].Keys == n.Keys == n[k := Arr(other)].Keys;
    DocumentKeysListTail(n, parent, k, items, other, n.Keys);
  }

}
