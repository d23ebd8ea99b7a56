/** The value a positional B-tree node stands for: its items and, for a branch, the trees under
    its children. `Flat` reads it in order. Everything here is independent of how nodes are stored. */
module Shapes {

  /** fanout - 1 and maxItems / 2 for a fanout of 64. */
  const MAX_ITEMS: nat := 63
  const MIN_ITEMS: nat := 31

  type Id = nat

  /** The tree reached from node `id`; a leaf has no kids, a branch one kid more than items. */
  datatype Shape<V> = Shape(id: Id, items: seq<V>, kids: seq<Shape<V>>)

  /** In-order contents. */
  ghost function Flat<V>(t: Shape<V>): seq<V>
    decreases t, 1
  {
    if t.kids == [] then t.items else Weave(t.kids, t.items)
  }

  /** kids[0], items[0], kids[1], items[1], ... for as long as there are kids. */
  ghost function Weave<V>(kids: seq<Shape<V>>, items: seq<V>): seq<V>
    decreases kids, 0
  {
    if kids == [] then []
    else if items == [] then Flat(kids[0]) + Weave(kids[1..], [])
    else Flat(kids[0]) + [items[0]] + Weave(kids[1..], items[1..])
  }

  /** What precedes, and what follows, the contents of child i in a branch. */
  ghost function Before<V>(kids: seq<Shape<V>>, items: seq<V>, i: nat): seq<V>
    requires i <= |kids| && i <= |items|
  {
    Weave(kids[..i], items[..i])
  }

  ghost function After<V>(kids: seq<Shape<V>>, items: seq<V>, i: nat): seq<V>
    requires i < |kids| && i <= |items|
  {
    if i == |items| then Weave(kids[i+1..], []) else [items[i]] + Weave(kids[i+1..], items[i+1..])
  }

  /** Uniform leaf depth h, fill bounds in every node below t, and no overfull node. */
  ghost predicate Shaped<V>(t: Shape<V>, h: nat)
    decreases h, 0
  {
    && |t.items| <= MAX_ITEMS
    && if h == 0 then t.kids == []
       else |t.kids| == |t.items| + 1 && forall i :: 0 <= i < |t.kids| ==> Balanced(t.kids[i], h - 1)
  }

  ghost predicate Balanced<V>(t: Shape<V>, h: nat)
    decreases h, 1
  {
    MIN_ITEMS <= |t.items| && Shaped(t, h)
  }

  lemma {:induction false} WeaveCat<V>(k1: seq<Shape<V>>, x1: seq<V>, k2: seq<Shape<V>>, x2: seq<V>)
    requires |k1| == |x1|
    ensures Weave(k1 + k2, x1 + x2) == Weave(k1, x1) + Weave(k2, x2)
    decreases |k1|
  {
    if k1 == [] {
      assert k1 + k2 == k2 && x1 + x2 == x2;
    } else {
      assert (k1 + k2)[1..] == k1[1..] + k2;
      assert (x1 + x2)[1..] == x1[1..] + x2;
      WeaveCat(k1[1..], x1[1..], k2, x2);
    }
  }

  lemma WeaveSplit<V>(kids: seq<Shape<V>>, items: seq<V>, i: nat)
    requires i <= |kids| && i <= |items|
    ensures Weave(kids, items) == Before(kids, items, i) + Weave(kids[i..], items[i..])
  {
    hide Weave;
    assert kids == kids[..i] + kids[i..] && items == items[..i] + items[i..];
    WeaveCat(kids[..i], items[..i], kids[i..], items[i..]);
  }

  lemma WeaveStep<V>(kids: seq<Shape<V>>, items: seq<V>, i: nat)
    requires i < |kids| && i <= |items|
    ensures Weave(kids[i..], items[i..]) == Flat(kids[i]) + After(kids, items, i)
  {
    hide Flat;
    var ks, xs := kids[i..], items[i..];
    assert ks[1..] == kids[i+1..];
    if i < |items| {
      assert xs[1..] == items[i+1..];
      assert Weave(ks, xs) == Flat(kids[i]) + [items[i]] + Weave(kids[i+1..], items[i+1..]);
    } else {
      assert xs == [];
    }
  }

  /** A branch's contents around child i. */
  lemma Focus<V>(kids: seq<Shape<V>>, items: seq<V>, i: nat)
    requires i < |kids| && i <= |items|
    ensures Weave(kids, items) == Before(kids, items, i) + Flat(kids[i]) + After(kids, items, i)
  {
    hide Weave, Flat, Before, After;
    WeaveSplit(kids, items, i);
    WeaveStep(kids, items, i);
  }

  /** ... and around the adjacent children i and i + 1. */
  lemma FocusTwo<V>(kids: seq<Shape<V>>, items: seq<V>, i: nat)
    requires i + 1 < |kids| && i + 1 <= |items|
    ensures Weave(kids, items)
         == Before(kids, items, i) + (Flat(kids[i]) + [items[i]] + Flat(kids[i+1])) + After(kids, items, i + 1)
  {
    hide Weave, Flat, Before;
    Focus(kids, items, i);
    WeaveStep(kids, items, i + 1);
    assert After(kids, items, i) == [items[i]] + Weave(kids[i+1..], items[i+1..]);
    hide After;
    Regroup(Before(kids, items, i), Flat(kids[i]), [items[i]], Flat(kids[i+1]), After(kids, items, i + 1));
  }

  lemma Regroup<V>(a: seq<V>, b: seq<V>, c: seq<V>, d: seq<V>, e: seq<V>)
    ensures a + b + (c + (d + e)) == a + (b + c + d) + e
  {
  }

  lemma WeaveEnd<V>(kids: seq<Shape<V>>, items: seq<V>, x: V)
    requires |kids| == |items| + 1
    ensures Weave(kids, items + [x]) == Weave(kids, items) + [x]
  {
    var n := |items|;
    var ks, last := kids[..n], kids[n..];
    assert kids == ks + last && items + [] == items;
    WeaveCat(ks, items, last, [x]);
    WeaveCat(ks, items, last, []);
    assert Weave(last, [x]) == Flat(kids[n]) + [x] + Weave(last[1..], []);
  }

  /** What a merge puts in one node: (left, separator, right). */
  ghost function Merged<V>(l: Shape<V>, x: V, r: Shape<V>): (m: Shape<V>)
  {
    Shape(l.id, l.items + [x] + r.items, l.kids + r.kids)
  }

  ghost predicate Formed<V>(t: Shape<V>)
  {
    t.kids != [] ==> |t.kids| == |t.items| + 1
  }

  lemma MergedFlat<V>(l: Shape<V>, x: V, r: Shape<V>)
    requires Formed(l) && Formed(r) && (l.kids == [] <==> r.kids == [])
    ensures Flat(Merged(l, x, r)) == Flat(l) + [x] + Flat(r)
    ensures Formed(Merged(l, x, r))
  {
    if l.kids != [] {
      WeaveCat(l.kids, l.items + [x], r.kids, r.items);
      WeaveEnd(l.kids, l.items, x);
    } else {
      assert l.kids + r.kids == [];
    }
  }

  /** Replacing child i by k leaves the rest of the branch's contents as it was. */
  lemma ReplaceKid<V>(kids: seq<Shape<V>>, items: seq<V>, i: nat, k: Shape<V>)
    requires i < |kids| && i <= |items|
    ensures Weave(kids, items) == Before(kids, items, i) + Flat(kids[i]) + After(kids, items, i)
    ensures Weave(kids[i := k], items) == Before(kids, items, i) + Flat(k) + After(kids, items, i)
  {
    hide Weave, Flat;
    Focus(kids, items, i);
    var ks := kids[i := k];
    Focus(ks, items, i);
    assert ks[..i] == kids[..i] && ks[i+1..] == kids[i+1..];
  }

  /** The branch after child i was split into l, x, r. */
  lemma SplitKid<V>(kids: seq<Shape<V>>, items: seq<V>, i: nat, l: Shape<V>, x: V, r: Shape<V>)
    requires i < |kids| && i <= |items|
    requires Flat(kids[i]) == Flat(l) + [x] + Flat(r)
    ensures Weave(kids[..i] + [l, r] + kids[i+1..], items[..i] + [x] + items[i..]) == Weave(kids, items)
  {
    hide Weave, Flat;
    var ks, xs := kids[..i] + [l, r] + kids[i+1..], items[..i] + [x] + items[i..];
    Focus(kids, items, i);
    FocusTwo(ks, xs, i);
    assert ks[..i] == kids[..i] && xs[..i] == items[..i] && ks[i+2..] == kids[i+1..];
    if i < |items| {
      assert xs[i+2..] == items[i+1..];
    }
  }

  /** The branch after children i, i + 1 and their separator became the one child m. */
  lemma MergeKids<V>(kids: seq<Shape<V>>, items: seq<V>, i: nat, m: Shape<V>)
    requires i + 1 < |kids| && i + 1 <= |items|
    requires Flat(m) == Flat(kids[i]) + [items[i]] + Flat(kids[i+1])
    ensures Weave(kids[..i] + [m] + kids[i+2..], items[..i] + items[i+1..]) == Weave(kids, items)
  {
    hide Weave, Flat;
    var ks, xs := kids[..i] + [m] + kids[i+2..], items[..i] + items[i+1..];
    FocusTwo(kids, items, i);
    Focus(ks, xs, i);
    assert ks[..i] == kids[..i] && xs[..i] == items[..i] && ks[i+1..] == kids[i+2..];
    if i + 1 < |items| {
      assert xs[i+1..] == items[i+2..];
    }
  }

  /** The branch after an item moved between the adjacent children i and i + 1. */
  lemma RotateKids<V>(kids: seq<Shape<V>>, items: seq<V>, i: nat, l: Shape<V>, x: V, r: Shape<V>)
    requires i + 1 < |kids| && i + 1 <= |items|
    requires Flat(l) + [x] + Flat(r) == Flat(kids[i]) + [items[i]] + Flat(kids[i+1])
    ensures Weave(kids[i := l][i+1 := r], items[i := x]) == Weave(kids, items)
  {
    hide Weave, Flat;
    var ks, xs := kids[i := l][i+1 := r], items[i := x];
    FocusTwo(kids, items, i);
    FocusTwo(ks, xs, i);
    assert ks[..i] == kids[..i] && xs[..i] == items[..i] && ks[i+2..] == kids[i+2..];
    if i + 1 < |items| {
      assert xs[i+2..] == items[i+2..];
    }
  }

  /** A branch without its last item and last child, and without its first. */
  ghost function Init<V>(t: Shape<V>): Shape<V>
    requires |t.kids| == |t.items| + 1 && t.items != []
  {
    Shape(t.id, t.items[..|t.items|-1], t.kids[..|t.items|])
  }

  ghost function Tail<V>(t: Shape<V>): Shape<V>
    requires |t.kids| == |t.items| + 1 && t.items != []
  {
    Shape(t.id, t.items[1..], t.kids[1..])
  }

  lemma LastKid<V>(t: Shape<V>)
    requires |t.kids| == |t.items| + 1 && t.items != []
    ensures Flat(t) == Flat(Init(t)) + [t.items[|t.items|-1]] + Flat(t.kids[|t.items|])
  {
    hide Weave, Flat, Before, After;
    var u, m := Init(t), |t.items| - 1;
    FlatBranch(t);
    FlatBranch(u);
    Focus(t.kids, t.items, m + 1);
    AfterEnd(t.kids, t.items);
    assert t.items[..m+1] == u.items + [t.items[m]];
    WeaveEnd(u.kids, u.items, t.items[m]);
    BeforeIs(t.kids, t.items, m + 1);
  }

  lemma FlatBranch<V>(t: Shape<V>)
    requires t.kids != []
    ensures Flat(t) == Weave(t.kids, t.items)
  {
  }

  lemma FlatLeaf<V>(t: Shape<V>)
    requires t.kids == []
    ensures Flat(t) == t.items
  {
  }

  lemma BeforeIs<V>(kids: seq<Shape<V>>, items: seq<V>, i: nat)
    requires i <= |kids| && i <= |items|
    ensures Before(kids, items, i) == Weave(kids[..i], items[..i])
  {
  }

  lemma AfterEnd<V>(kids: seq<Shape<V>>, items: seq<V>)
    requires |kids| == |items| + 1
    ensures After(kids, items, |items|) == []
  {
    assert kids[|items|+1..] == [];
  }

  lemma WeaveNone<V>(items: seq<V>)
    ensures Weave([], items) == []
  {
  }

  lemma FirstKid<V>(t: Shape<V>)
    requires |t.kids| == |t.items| + 1 && t.items != []
    ensures Flat(t) == Flat(t.kids[0]) + [t.items[0]] + Flat(Tail(t))
  {
    Focus(t.kids, t.items, 0);
    FlatBranch(Tail(t));
    BeforeIs(t.kids, t.items, 0);
    WeaveNone(t.items[..0]);
    hide Weave, Flat, Before;
    assert t.kids[..0] == [];
  }

  lemma LastOver<V>(s: seq<V>, x: V, t: seq<V>)
    requires s != []
    ensures s[..|s|-1] + [s[|s|-1]] + ([x] + t) == s + [x] + t
  {
  }

  lemma FirstOver<V>(s: seq<V>, x: V, t: seq<V>)
    requires t != []
    ensures s + [x] + [t[0]] + t[1..] == s + [x] + t
  {
  }

  lemma Rehang<V>(a: seq<V>, y: seq<V>, z: seq<V>, x: seq<V>, r: seq<V>)
    ensures a + y + (z + x + r) == a + y + z + x + r
  {
  }

  /** Moving l's last item up and the separator down into r. */
  ghost function ShiftedRight<V>(l: Shape<V>, x: V, r: Shape<V>): (Shape<V>, V, Shape<V>)
    requires Formed(l) && l.items != []
  {
    var m := |l.items| - 1;
    if l.kids == [] then
      (Shape(l.id, l.items[..m], []), l.items[m], Shape(r.id, [x] + r.items, r.kids))
    else
      (Init(l), l.items[m], Shape(r.id, [x] + r.items, [l.kids[m+1]] + r.kids))
  }

  lemma ShiftedRightFlat<V>(l: Shape<V>, x: V, r: Shape<V>)
    requires Formed(l) && Formed(r) && (l.kids == [] <==> r.kids == []) && l.items != []
    ensures var (l', y, r') := ShiftedRight(l, x, r);
            Flat(l') + [y] + Flat(r') == Flat(l) + [x] + Flat(r)
  {
    hide Flat;
    var (l', y, r') := ShiftedRight(l, x, r);
    if l.kids != [] {
      LastKid(l);
      FirstKid(r');
      assert Tail(r') == r;
      Rehang(Flat(l'), [y], Flat(l.kids[|l.items|]), [x], Flat(r));
    } else {
      FlatLeaf(l);
      FlatLeaf(l');
      FlatLeaf(r);
      FlatLeaf(r');
      LastOver(l.items, x, r.items);
    }
  }

  /** Moving r's first item up and the separator down into l. */
  ghost function ShiftedLeft<V>(l: Shape<V>, x: V, r: Shape<V>): (Shape<V>, V, Shape<V>)
    requires Formed(r) && r.items != []
  {
    if r.kids == [] then
      (Shape(l.id, l.items + [x], l.kids), r.items[0], Shape(r.id, r.items[1..], []))
    else
      (Shape(l.id, l.items + [x], l.kids + [r.kids[0]]), r.items[0], Tail(r))
  }

  lemma ShiftedLeftFlat<V>(l: Shape<V>, x: V, r: Shape<V>)
    requires Formed(l) && Formed(r) && (l.kids == [] <==> r.kids == []) && r.items != []
    ensures var (l', y, r') := ShiftedLeft(l, x, r);
            Flat(l') + [y] + Flat(r') == Flat(l) + [x] + Flat(r)
  {
    hide Flat;
    var (l', y, r') := ShiftedLeft(l, x, r);
    if r.kids != [] {
      FirstKid(r);
      LastKid(l');
      assert Init(l') == l;
      Rehang(Flat(l), [x], Flat(r.kids[0]), [y], Flat(r'));
    } else {
      FlatLeaf(l);
      FlatLeaf(l');
      FlatLeaf(r);
      FlatLeaf(r');
      FirstOver(l.items, x, r.items);
    }
  }

  lemma BeforeStep<V>(kids: seq<Shape<V>>, items: seq<V>, i: nat)
    requires i < |kids| && i < |items|
    ensures Before(kids, items, i + 1) == Before(kids, items, i) + Flat(kids[i]) + [items[i]]
  {
    var k, x := kids[..i+1], items[..i+1];
    assert k == kids[..i] + [kids[i]] && x == items[..i] + [items[i]];
    WeaveCat(kids[..i], items[..i], [kids[i]], [items[i]]);
    WeaveNone<V>([]);
    WeaveOne(kids[i], items[i]);
    hide Weave, Flat;
  }

  lemma WeaveOne<V>(k: Shape<V>, x: V)
    ensures Weave([k], [x]) == Flat(k) + [x]
  {
    assert [k][1..] == [] && [x][1..] == [];
  }

  /** A branch of height h whose child i is one item short of the minimum. */
  ghost predicate Lopsided<V>(t: Shape<V>, h: nat, i: nat)
  {
    && h > 0 && |t.kids| == |t.items| + 1 && 1 <= |t.items| <= MAX_ITEMS
    && i < |t.kids| && Shaped(t.kids[i], h - 1) && |t.kids[i].items| + 1 == MIN_ITEMS
    && forall j :: 0 <= j < |t.kids| && j != i ==> Balanced(t.kids[j], h - 1)
  }

  ghost function Renamed<V>(t: Shape<V>, id: Id): Shape<V>
  {
    Shape(id, t.items, t.kids)
  }

  /** The branch after children i, i + 1 and their separator became the one child m. */
  ghost function MergedAt<V>(t: Shape<V>, i: nat, m: Shape<V>): Shape<V>
    requires i + 1 < |t.kids| && i < |t.items|
  {
    Shape(t.id, t.items[..i] + t.items[i+1..], t.kids[..i] + [m] + t.kids[i+2..])
  }

  /** The branch after an item moved between children i and i + 1. */
  ghost function ShiftedAt<V>(t: Shape<V>, i: nat, a: Shape<V>, x: V, b: Shape<V>): Shape<V>
    requires i + 1 < |t.kids| && i < |t.items|
  {
    Shape(t.id, t.items[i := x], t.kids[..i] + [a, b] + t.kids[i+2..])
  }

  lemma ShapedFormed<V>(t: Shape<V>, h: nat, id: Id)
    requires Shaped(t, h)
    ensures Shaped(Renamed(t, id), h) && Flat(Renamed(t, id)) == Flat(t)
    ensures Formed(Renamed(t, id)) && Formed(t) && (t.kids == [] <==> h == 0) && |t.items| <= MAX_ITEMS
  {
  }

  lemma LopsidedKid<V>(t: Shape<V>, h: nat, d: nat, i: nat)
    requires Lopsided(t, h, d) && i < |t.kids|
    ensures Shaped(t.kids[i], h - 1) && |t.kids[i].items| + 1 >= MIN_ITEMS && Formed(t.kids[i])
    ensures if i != d then Balanced(t.kids[i], h - 1) && |t.kids[i].items| >= MIN_ITEMS
            else |t.kids[i].items| + 1 == MIN_ITEMS
  {
    if i != d {
      assert Balanced(t.kids[i], h - 1);
    }
    ShapedFormed(t.kids[i], h - 1, 0);
  }

  /** The two children rebalance works on, and the one after them. */
  lemma LopsidedPair<V>(t: Shape<V>, h: nat, d: nat, i: nat, a: Id, b: Id)
    requires Lopsided(t, h, d) && i + 1 < |t.kids|
    ensures |t.kids| == |t.items| + 1 && h > 0
    ensures Formed(Renamed(t.kids[i], a)) && Formed(Renamed(t.kids[i+1], b))
    ensures t.kids[i].kids == [] <==> t.kids[i+1].kids == []
    ensures t.kids[i].items != [] && t.kids[i+1].items != []
    ensures i + 2 < |t.kids| ==> Formed(t.kids[i+2])
  {
    hide Flat, Balanced, Shaped;
    LopsidedKid(t, h, d, i);
    LopsidedKid(t, h, d, i + 1);
    ShapedFormed(t.kids[i], h - 1, a);
    ShapedFormed(t.kids[i+1], h - 1, b);
    if i + 2 < |t.kids| { LopsidedKid(t, h, d, i + 2); }
  }

  lemma ShapedBy<V>(t: Shape<V>, h: nat)
    requires h > 0 && |t.items| <= MAX_ITEMS && |t.kids| == |t.items| + 1
    requires forall j :: 0 <= j < |t.kids| ==> Balanced(t.kids[j], h - 1)
    ensures Shaped(t, h)
  {
  }

  lemma KidBalanced<V>(t: Shape<V>, h: nat, j: nat)
    requires Shaped(t, h) && h > 0 && j < |t.kids|
    ensures Balanced(t.kids[j], h - 1)
  {
  }

  lemma IsBalanced<V>(t: Shape<V>, h: nat)
    ensures Balanced(t, h) <==> MIN_ITEMS <= |t.items| && Shaped(t, h)
  {
    hide Shaped;
  }

  lemma MergedBalanced<V>(a: Shape<V>, x: V, b: Shape<V>, h: nat)
    requires Shaped(a, h) && Shaped(b, h) && MIN_ITEMS <= |a.items| + |b.items| < MAX_ITEMS
    ensures Balanced(Merged(a, x, b), h)
  {
    hide Balanced;
    var m := Merged(a, x, b);
    if h > 0 {
      forall j | 0 <= j < |m.kids| ensures Balanced(m.kids[j], h - 1) {
        if j < |a.kids| { assert m.kids[j] == a.kids[j]; } else { assert m.kids[j] == b.kids[j - |a.kids|]; }
      }
    }
    IsBalanced(m, h);
  }

  lemma MergeKeeps<V>(t: Shape<V>, h: nat, d: nat, i: nat, a: Id, b: Id)
    requires Lopsided(t, h, d) && i < |t.items| && (d == i || d == i + 1)
    requires |t.kids[i].items| + |t.kids[i+1].items| < MAX_ITEMS
    ensures var t' := MergedAt(t, i, Merged(Renamed(t.kids[i], a), t.items[i], Renamed(t.kids[i+1], b)));
            Shaped(t', h) && Flat(t') == Flat(t) && |t'.items| == |t.items| - 1
  {
    hide Flat, Weave, Balanced, Shaped;
    var ka, kb := Renamed(t.kids[i], a), Renamed(t.kids[i+1], b);
    var m := Merged(ka, t.items[i], kb);
    LopsidedKid(t, h, d, i);
    LopsidedKid(t, h, d, i + 1);
    ShapedFormed(t.kids[i], h - 1, a);
    ShapedFormed(t.kids[i+1], h - 1, b);
    MergedFlat(ka, t.items[i], kb);
    MergedBalanced(ka, t.items[i], kb, h - 1);
    MergeKids(t.kids, t.items, i, m);
    var t' := MergedAt(t, i, m);
    forall j | 0 <= j < |t'.kids| ensures Balanced(t'.kids[j], h - 1) {
      if j < i {
        LopsidedKid(t, h, d, j);
      } else if j > i {
        LopsidedKid(t, h, d, j + 1);
        assert t'.kids[j] == t.kids[j+1];
      }
    }
    ShapedBy(t', h);
    FlatBranch(t);
    FlatBranch(t');
  }

  lemma ShiftedKeeps<V>(t: Shape<V>, h: nat, d: nat, i: nat, a: Shape<V>, x: V, b: Shape<V>)
    requires Lopsided(t, h, d) && i < |t.items| && (d == i || d == i + 1)
    requires Balanced(a, h - 1) && Balanced(b, h - 1)
    requires Flat(a) + [x] + Flat(b) == Flat(t.kids[i]) + [t.items[i]] + Flat(t.kids[i+1])
    ensures var t' := ShiftedAt(t, i, a, x, b);
            Shaped(t', h) && Flat(t') == Flat(t) && |t'.items| == |t.items|
  {
    hide Flat, Weave, Balanced, Shaped;
    var t' := ShiftedAt(t, i, a, x, b);
    RotateKids(t.kids, t.items, i, a, x, b);
    assert t'.kids == t.kids[i := a][i+1 := b];
    forall j | 0 <= j < |t'.kids| ensures Balanced(t'.kids[j], h - 1) {
      if j != i && j != i + 1 {
        LopsidedKid(t, h, d, j);
      }
    }
    ShapedBy(t', h);
    FlatBranch(t);
    FlatBranch(t');
  }

  lemma BalancedBy<V>(t: Shape<V>, h: nat)
    requires MIN_ITEMS <= |t.items| <= MAX_ITEMS && (if h == 0 then t.kids == [] else |t.kids| == |t.items| + 1)
    requires forall j :: 0 <= j < |t.kids| && h > 0 ==> Balanced(t.kids[j], h - 1)
    ensures Balanced(t, h)
  {
  }

  lemma ShiftedRightBalanced<V>(a: Shape<V>, x: V, b: Shape<V>, h: nat)
    requires Shaped(a, h) && Shaped(b, h) && |a.items| > MIN_ITEMS && MIN_ITEMS - 1 <= |b.items| < MAX_ITEMS
    ensures Formed(a)
    ensures var (a', y, b') := ShiftedRight(a, x, b); Balanced(a', h) && Balanced(b', h) && Formed(a') && Formed(b')
  {
    hide Balanced, Shaped;
    ShapedFormed(a, h, 0);
    ShapedFormed(b, h, 0);
    var (a', y, b') := ShiftedRight(a, x, b);
    if h > 0 {
      forall j | 0 <= j < |a'.kids| ensures Balanced(a'.kids[j], h - 1) { KidBalanced(a, h, j); }
      forall j | 0 <= j < |b'.kids| ensures Balanced(b'.kids[j], h - 1) {
        if j == 0 { KidBalanced(a, h, |a.kids| - 1); } else { KidBalanced(b, h, j - 1); }
      }
    }
    BalancedBy(a', h);
    BalancedBy(b', h);
  }

  lemma ShiftedLeftBalanced<V>(a: Shape<V>, x: V, b: Shape<V>, h: nat)
    requires Shaped(a, h) && Shaped(b, h) && |b.items| > MIN_ITEMS && MIN_ITEMS - 1 <= |a.items| < MAX_ITEMS
    ensures Formed(b)
    ensures var (a', y, b') := ShiftedLeft(a, x, b); Balanced(a', h) && Balanced(b', h) && Formed(a') && Formed(b')
  {
    hide Balanced, Shaped;
    ShapedFormed(a, h, 0);
    ShapedFormed(b, h, 0);
    var (a', y, b') := ShiftedLeft(a, x, b);
    if h > 0 {
      forall j | 0 <= j < |a'.kids| ensures Balanced(a'.kids[j], h - 1) {
        if j < |a.kids| { KidBalanced(a, h, j); } else { KidBalanced(b, h, 0); }
      }
      forall j | 0 <= j < |b'.kids| ensures Balanced(b'.kids[j], h - 1) { KidBalanced(b, h, j + 1); }
    }
    BalancedBy(a', h);
    BalancedBy(b', h);
  }

  lemma ShiftRightKeeps<V>(t: Shape<V>, h: nat, d: nat, i: nat, a: Id, b: Id)
    requires Lopsided(t, h, d) && i < |t.items| && (d == i || d == i + 1)
    requires |t.kids[i].items| + |t.kids[i+1].items| >= MAX_ITEMS && |t.kids[i].items| > |t.kids[i+1].items|
    ensures Formed(t.kids[i])
    ensures var (a', x, b') := ShiftedRight(Renamed(t.kids[i], a), t.items[i], Renamed(t.kids[i+1], b));
            var t' := ShiftedAt(t, i, a', x, b');
            Shaped(t', h) && Flat(t') == Flat(t) && |t'.items| == |t.items| && Formed(a') && Formed(b')
  {
    hide Flat, Weave, Balanced, Shaped;
    var ka, kb := Renamed(t.kids[i], a), Renamed(t.kids[i+1], b);
    LopsidedKid(t, h, d, i);
    LopsidedKid(t, h, d, i + 1);
    ShapedFormed(t.kids[i], h - 1, a);
    ShapedFormed(t.kids[i+1], h - 1, b);
    var (a', x, b') := ShiftedRight(ka, t.items[i], kb);
    ShiftedRightFlat(ka, t.items[i], kb);
    ShiftedRightBalanced(ka, t.items[i], kb, h - 1);
    ShiftedKeeps(t, h, d, i, a', x, b');
  }

  lemma ShiftLeftKeeps<V>(t: Shape<V>, h: nat, d: nat, i: nat, a: Id, b: Id)
    requires Lopsided(t, h, d) && i < |t.items| && (d == i || d == i + 1)
    requires |t.kids[i].items| + |t.kids[i+1].items| >= MAX_ITEMS && |t.kids[i].items| <= |t.kids[i+1].items|
    ensures Formed(t.kids[i+1])
    ensures var (a', x, b') := ShiftedLeft(Renamed(t.kids[i], a), t.items[i], Renamed(t.kids[i+1], b));
            var t' := ShiftedAt(t, i, a', x, b');
            Shaped(t', h) && Flat(t') == Flat(t) && |t'.items| == |t.items| && Formed(a') && Formed(b')
  {
    hide Flat, Weave, Balanced, Shaped;
    var ka, kb := Renamed(t.kids[i], a), Renamed(t.kids[i+1], b);
    LopsidedKid(t, h, d, i);
    LopsidedKid(t, h, d, i + 1);
    ShapedFormed(t.kids[i], h - 1, a);
    ShapedFormed(t.kids[i+1], h - 1, b);
    var (a', x, b') := ShiftedLeft(ka, t.items[i], kb);
    ShiftedLeftFlat(ka, t.items[i], kb);
    ShiftedLeftBalanced(ka, t.items[i], kb, h - 1);
    ShiftedKeeps(t, h, d, i, a', x, b');
  }

  /** t with child i replaced by k. */
  ghost function WithKid<V>(t: Shape<V>, i: nat, k: Shape<V>): Shape<V>
    requires i < |t.kids|
  {
    Shape(t.id, t.items, t.kids[i := k])
  }

  /** A branch whose child i gave up an item. */
  lemma KidShrunk<V>(t: Shape<V>, h: nat, i: nat, k: Shape<V>)
    requires Shaped(t, h) && h > 0 && t.items != [] && i < |t.kids|
    requires Shaped(k, h - 1) && |t.kids[i].items| - 1 <= |k.items|
    ensures i <= |t.items|
    ensures Flat(t) == Before(t.kids, t.items, i) + Flat(t.kids[i]) + After(t.kids, t.items, i)
    ensures Flat(WithKid(t, i, k)) == Before(t.kids, t.items, i) + Flat(k) + After(t.kids, t.items, i)
    ensures if |k.items| < MIN_ITEMS then Lopsided(WithKid(t, i, k), h, i) else Shaped(WithKid(t, i, k), h)
  {
    hide Flat, Weave, Balanced, Shaped;
    var u := WithKid(t, i, k);
    ShapedFormed(t, h, t.id);
    ShapedFormed(k, h - 1, k.id);
    FlatBranch(t);
    FlatBranch(u);
    ReplaceKid(t.kids, t.items, i, k);
    KidItems(t, h, i);
    if |k.items| >= MIN_ITEMS {
      KidIsBalanced(k, h - 1);
    }
    forall j | 0 <= j < |u.kids| && (j != i || |k.items| >= MIN_ITEMS) ensures Balanced(u.kids[j], h - 1) {
      if j != i { KidBalanced(t, h, j); }
    }
    if |k.items| >= MIN_ITEMS {
      ShapedBy(u, h);
    }
  }

  lemma KidItems<V>(t: Shape<V>, h: nat, j: nat)
    requires Shaped(t, h) && h > 0 && j < |t.kids|
    ensures MIN_ITEMS <= |t.kids[j].items| <= MAX_ITEMS && Shaped(t.kids[j], h - 1)
  {
    KidBalanced(t, h, j);
    ShapedFormed(t.kids[j], h - 1, 0);
  }

  lemma KidIsBalanced<V>(k: Shape<V>, h: nat)
    requires Shaped(k, h) && |k.items| >= MIN_ITEMS
    ensures Balanced(k, h)
  {
  }

  /** s' is s without its element v at position p. */
  ghost predicate Removed<V>(s: seq<V>, p: nat, v: V, s': seq<V>)
  {
    p < |s| && v == s[p] && s' == s[..p] + s[p+1..]
  }

  lemma RemovedMid<V>(a: seq<V>, x: seq<V>, p: nat, v: V, x': seq<V>, b: seq<V>)
    requires Removed(x, p, v, x')
    ensures Removed(a + x + b, |a| + p, v, a + x' + b)
  {
    var s := a + x + b;
    assert s[..|a|+p] == a + x[..p] && s[|a|+p+1..] == x[p+1..] + b;
  }

  /** Removal below child i is removal from the branch. */
  lemma KidRemoved<V>(t: Shape<V>, h: nat, i: nat, k: Shape<V>, p: nat, v: V)
    requires Shaped(t, h) && h > 0 && t.items != [] && i < |t.kids|
    requires Shaped(k, h - 1) && |t.kids[i].items| - 1 <= |k.items|
    requires Removed(Flat(t.kids[i]), p, v, Flat(k))
    ensures i <= |t.items|
    ensures Removed(Flat(t), |Before(t.kids, t.items, i)| + p, v, Flat(WithKid(t, i, k)))
    ensures |Flat(k)| == |Flat(t.kids[i])| - 1
    ensures i == 0 ==> Before(t.kids, t.items, i) == []
    ensures i == |t.items| ==> |Before(t.kids, t.items, i)| + |Flat(t.kids[i])| == |Flat(t)|
  {
    hide Flat, Weave, Shaped, Balanced, After;
    ShapedFormed(t, h, t.id);
    KidShrunk(t, h, i, k);
    RemovedMid(Before(t.kids, t.items, i), Flat(t.kids[i]), p, v, Flat(k), After(t.kids, t.items, i));
    if i == 0 { WeaveNone(t.items[..0]); assert t.kids[..0] == []; }
    if i == |t.items| { AfterEnd(t.kids, t.items); }
  }

  /** t with separator i replaced by x. */
  ghost function WithItem<V>(t: Shape<V>, i: nat, x: V): Shape<V>
    requires i < |t.items|
  {
    Shape(t.id, t.items[i := x], t.kids)
  }

  lemma BeforeNone<V>(kids: seq<Shape<V>>, items: seq<V>)
    ensures Before(kids, items, 0) == []
  {
    assert kids[..0] == [];
  }

  /** A position that falls in child i and is not separator i is inside that child. */
  lemma NotSeparator<V>(t: Shape<V>, h: nat, i: nat, index: nat, rest: nat)
    requires Shaped(t, h) && h > 0 && i <= |t.items| && i < |t.kids|
    requires index == |Before(t.kids, t.items, i)| + rest && rest <= |Flat(t.kids[i])| && index < |Flat(t)|
    requires i == |t.items| || rest != |Flat(t.kids[i])|
    ensures rest < |Flat(t.kids[i])|
  {
    hide Flat, Weave, Shaped, Balanced, Before, After;
    ShapedFormed(t, h, t.id);
    FlatBranch(t);
    Focus(t.kids, t.items, i);
    if i == |t.items| { AfterEnd(t.kids, t.items); }
  }

  /** Replacing a separator by the largest item of the child before it, taken out of that child, is
      removing the separator. */
  lemma SeparatorRemoved<V>(t: Shape<V>, h: nat, i: nat, k: Shape<V>, m: V)
    requires Shaped(t, h) && h > 0 && i < |t.items| && i < |t.kids|
    requires Shaped(k, h - 1) && |t.kids[i].items| - 1 <= |k.items|
    requires Flat(t.kids[i]) != [] && Removed(Flat(t.kids[i]), |Flat(t.kids[i])| - 1, m, Flat(k))
    ensures var u := WithItem(t, i, m);
            Shaped(u, h) && u.kids == t.kids
            && Removed(Flat(t), |Before(t.kids, t.items, i)| + |Flat(t.kids[i])|, t.items[i], Flat(WithKid(u, i, k)))
    ensures |Flat(k)| == |Flat(t.kids[i])| - 1
  {
    var u := WithItem(t, i, m);
    assert Shaped(u, h);
    hide Flat, Weave, Shaped, Balanced;
    ShapedFormed(t, h, t.id);
    KidShrunk(t, h, i, k);
    KidShrunk(u, h, i, k);
    assert u.items[..i] == t.items[..i] && u.items[i+1..] == t.items[i+1..];
    var a, x, b := Before(t.kids, t.items, i), Flat(t.kids[i]), Weave(t.kids[i+1..], t.items[i+1..]);
    assert Before(u.kids, u.items, i) == a;
    assert After(t.kids, t.items, i) == [t.items[i]] + b && After(u.kids, u.items, i) == [m] + b;
    hide Before, After;
    SeparatorGone(a, x, t.items[i], m, b, Flat(k));
  }

  lemma SeparatorGone<V>(a: seq<V>, x: seq<V>, sep: V, m: V, b: seq<V>, x': seq<V>)
    requires x != [] && Removed(x, |x| - 1, m, x')
    ensures Removed(a + x + ([sep] + b), |a| + |x|, sep, a + x' + ([m] + b))
  {
    assert x' + [m] == x;
    var s := a + x + ([sep] + b);
    assert s[..|a|+|x|] == a + x && s[|a|+|x|+1..] == b;
    assert a + x' + ([m] + b) == a + (x' + [m]) + b;
  }

  // ---- insertion

  /** The halves a full node is split into, around its middle item. */
  ghost function LeftHalf<V>(k: Shape<V>): Shape<V>
    requires |k.items| == MAX_ITEMS && Formed(k)
  {
    Shape(k.id, k.items[..MIN_ITEMS], if k.kids == [] then [] else k.kids[..MIN_ITEMS+1])
  }

  ghost function RightHalf<V>(k: Shape<V>, id: Id): Shape<V>
    requires |k.items| == MAX_ITEMS && Formed(k)
  {
    Shape(id, k.items[MIN_ITEMS+1..], if k.kids == [] then [] else k.kids[MIN_ITEMS+1..])
  }

  lemma RenamedFormed<V>(k: Shape<V>, id: Id)
    requires Formed(k)
    ensures Formed(Renamed(k, id)) && Renamed(k, id).items == k.items && Renamed(k, id).kids == k.kids
    ensures |k.items| == MAX_ITEMS ==> Formed(LeftHalf(Renamed(k, id))) && Formed(RightHalf(Renamed(k, id), id))
  {
  }

  lemma HalvesFlat<V>(k: Shape<V>, id: Id)
    requires |k.items| == MAX_ITEMS && Formed(k)
    ensures Flat(k) == Flat(LeftHalf(k)) + [k.items[MIN_ITEMS]] + Flat(RightHalf(k, id))
  {
    hide Flat, Weave;
    var l, r := LeftHalf(k), RightHalf(k, id);
    if k.kids == [] {
      FlatLeaf(k);
      FlatLeaf(l);
      FlatLeaf(r);
      assert k.items == l.items + [k.items[MIN_ITEMS]] + r.items;
    } else {
      var m := MIN_ITEMS;
      assert k.items[..m+1] == l.items + [k.items[m]];
      FlatBranch(k);
      FlatBranch(l);
      FlatBranch(r);
      WeaveSplit(k.kids, k.items, m + 1);
      BeforeIs(k.kids, k.items, m + 1);
      WeaveEnd(l.kids, l.items, k.items[m]);
    }
  }

  lemma HalvesBalanced<V>(k: Shape<V>, h: nat, id: Id)
    requires |k.items| == MAX_ITEMS && Shaped(k, h)
    ensures Formed(k) && Balanced(LeftHalf(k), h) && Balanced(RightHalf(k, id), h)
  {
    hide Flat, Balanced, Shaped;
    ShapedFormed(k, h, k.id);
    var l, r := LeftHalf(k), RightHalf(k, id);
    if h > 0 {
      forall j | 0 <= j < |l.kids| ensures Balanced(l.kids[j], h - 1) { KidBalanced(k, h, j); }
      forall j | 0 <= j < |r.kids| ensures Balanced(r.kids[j], h - 1) { KidBalanced(k, h, j + MIN_ITEMS + 1); }
    }
    BalancedBy(l, h);
    BalancedBy(r, h);
  }

  /** The branch after child i was split into l, x, r. */
  ghost function SplitAt<V>(t: Shape<V>, i: nat, l: Shape<V>, x: V, r: Shape<V>): Shape<V>
    requires i < |t.kids| && i <= |t.items|
  {
    Shape(t.id, t.items[..i] + [x] + t.items[i..], t.kids[..i] + [l, r] + t.kids[i+1..])
  }

  /** The branch after its full child i, kept as node c, gave its upper half to node right. */
  ghost function SplitTree<V>(t: Shape<V>, i: nat, c: Id, right: Id): Shape<V>
    requires i < |t.kids| && i <= |t.items| && |t.kids[i].items| == MAX_ITEMS && Formed(t.kids[i])
  {
    var k := Renamed(t.kids[i], c);
    SplitAt(t, i, LeftHalf(k), k.items[MIN_ITEMS], RightHalf(k, right))
  }

  lemma SplitKeeps<V>(t: Shape<V>, h: nat, i: nat, c: Id, right: Id)
    requires Shaped(t, h) && h > 0 && |t.items| < MAX_ITEMS && i < |t.kids| && |t.kids[i].items| == MAX_ITEMS
    ensures i <= |t.items| && Formed(t.kids[i])
    ensures var t' := SplitTree(t, i, c, right);
            && Shaped(t', h) && Flat(t') == Flat(t) && |t'.items| == |t.items| + 1 && |t'.kids| == |t.kids| + 1
            && t'.kids[i].id == c && t'.kids[i+1].id == right
            && |t'.kids[i].items| < MAX_ITEMS && |t'.kids[i+1].items| < MAX_ITEMS
    ensures forall index: nat :: FallsIn(t, i, index) ==> !FullAt(SplitTree(t, i, c, right), index)
  {
    hide Flat, Weave, Balanced, Shaped, FullAt, FallsIn;
    ShapedFormed(t, h, t.id);
    KidItems(t, h, i);
    ShapedFormed(t.kids[i], h - 1, c);
    var k := Renamed(t.kids[i], c);
    var l, x, r := LeftHalf(k), k.items[MIN_ITEMS], RightHalf(k, right);
    HalvesFlat(k, right);
    HalvesBalanced(k, h - 1, right);
    SplitKid(t.kids, t.items, i, l, x, r);
    var t' := SplitAt(t, i, l, x, r);
    forall j | 0 <= j < |t'.kids| ensures Balanced(t'.kids[j], h - 1) {
      if j < i {
        KidBalanced(t, h, j);
      } else if j > i + 1 {
        KidBalanced(t, h, j - 1);
        assert t'.kids[j] == t.kids[j-1];
      }
    }
    ShapedBy(t', h);
    FlatBranch(t);
    FlatBranch(t');
    SplitNotFullAll(t, h, i, l, x, r);
  }

  /** s' is s with v inserted at position p. */
  ghost predicate Inserted<V>(s: seq<V>, p: nat, v: V, s': seq<V>)
  {
    p <= |s| && s' == s[..p] + [v] + s[p..]
  }

  lemma InsertedMid<V>(a: seq<V>, x: seq<V>, p: nat, v: V, x': seq<V>, b: seq<V>)
    requires Inserted(x, p, v, x')
    ensures Inserted(a + x + b, |a| + p, v, a + x' + b)
  {
    var s := a + x + b;
    assert s[..|a|+p] == a + x[..p] && s[|a|+p..] == x[p..] + b;
  }

  /** Insertion below child i is insertion into the branch. */
  lemma KidInserted<V>(t: Shape<V>, h: nat, i: nat, k: Shape<V>, p: nat, v: V)
    requires Shaped(t, h) && h > 0 && i < |t.kids| && Shaped(k, h - 1) && |t.kids[i].items| <= |k.items|
    requires Inserted(Flat(t.kids[i]), p, v, Flat(k))
    ensures i <= |t.items| && Shaped(WithKid(t, i, k), h) && |Flat(k)| == |Flat(t.kids[i])| + 1
    ensures Inserted(Flat(t), |Before(t.kids, t.items, i)| + p, v, Flat(WithKid(t, i, k)))
    ensures i == 0 ==> Before(t.kids, t.items, i) == []
    ensures i == |t.items| ==> |Before(t.kids, t.items, i)| + |Flat(t.kids[i])| == |Flat(t)|
  {
    hide Flat, Weave, Shaped, Balanced, After;
    var u := WithKid(t, i, k);
    ShapedFormed(t, h, t.id);
    KidItems(t, h, i);
    FlatBranch(t);
    FlatBranch(u);
    ReplaceKid(t.kids, t.items, i, k);
    InsertedMid(Before(t.kids, t.items, i), Flat(t.kids[i]), p, v, Flat(k), After(t.kids, t.items, i));
    KidIsBalanced(k, h - 1);
    forall j | 0 <= j < |u.kids| ensures Balanced(u.kids[j], h - 1) {
      if j != i { KidBalanced(t, h, j); }
    }
    ShapedBy(u, h);
    if i == 0 { BeforeNone(t.kids, t.items); }
    if i == |t.items| { AfterEnd(t.kids, t.items); }
  }

  /** Position `index` falls in a full child. */
  ghost predicate FullAt<V>(t: Shape<V>, index: nat)
  {
    exists i :: 0 <= i < |t.kids| && i <= |t.items| && FallsIn(t, i, index) && |t.kids[i].items| == MAX_ITEMS
  }

  ghost predicate FallsIn<V>(t: Shape<V>, i: nat, index: nat)
    requires i < |t.kids| && i <= |t.items|
  {
    |Before(t.kids, t.items, i)| <= index <= |Before(t.kids, t.items, i)| + |Flat(t.kids[i])|
  }

  lemma {:induction false} BeforeGrows<V>(kids: seq<Shape<V>>, items: seq<V>, i: nat, j: nat)
    requires i < j < |kids| && j <= |items|
    ensures |Before(kids, items, j)| > |Before(kids, items, i)| + |Flat(kids[i])|
    decreases j
  {
    hide Flat, Before;
    BeforeStep(kids, items, j - 1);
    if i < j - 1 {
      BeforeGrows(kids, items, i, j - 1);
    }
  }

  /** Once the child a position falls in has been split, the position falls in a child with room. */
  lemma SplitNotFull<V>(t: Shape<V>, i: nat, l: Shape<V>, x: V, r: Shape<V>, index: nat)
    requires i < |t.kids| && i <= |t.items| && |t.kids| == |t.items| + 1 && FallsIn(t, i, index)
    requires Flat(t.kids[i]) == Flat(l) + [x] + Flat(r) && |l.items| < MAX_ITEMS && |r.items| < MAX_ITEMS
    ensures !FullAt(SplitAt(t, i, l, x, r), index)
  {
    hide Flat, Before;
    var u := SplitAt(t, i, l, x, r);
    BeforeIs(t.kids, t.items, i);
    BeforeIs(u.kids, u.items, i);
    assert u.kids[..i] == t.kids[..i] && u.items[..i] == t.items[..i];
    BeforeStep(u.kids, u.items, i);
    assert u.kids[i] == l && u.kids[i+1] == r && u.items[i] == x;
    forall j | 0 <= j < |u.kids| && FallsIn(u, j, index) ensures |u.kids[j].items| != MAX_ITEMS {
      if j < i {
        BeforeGrows(u.kids, u.items, j, i);
      } else if j > i + 1 {
        BeforeGrows(u.kids, u.items, i + 1, j);
      }
    }
  }

  lemma SplitNotFullAll<V>(t: Shape<V>, h: nat, i: nat, l: Shape<V>, x: V, r: Shape<V>)
    requires Shaped(t, h) && h > 0 && i < |t.kids| && i <= |t.items|
    requires Flat(t.kids[i]) == Flat(l) + [x] + Flat(r) && |l.items| < MAX_ITEMS && |r.items| < MAX_ITEMS
    ensures forall index: nat :: FallsIn(t, i, index) ==> !FullAt(SplitAt(t, i, l, x, r), index)
  {
    hide Flat, FallsIn, FullAt, Balanced;
    forall index: nat | FallsIn(t, i, index) ensures !FullAt(SplitAt(t, i, l, x, r), index) {
      SplitNotFull(t, i, l, x, r, index);
    }
  }
}
