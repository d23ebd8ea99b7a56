/** Reading a positional tree or a snapshot of one. A consumer of an iteration is `more`: given the items
    delivered so far, whether it goes on. */
module TreeReads {
  import opened Basics
  import opened Shapes
  import opened NodeGraph
  import opened Handover
  import opened PositionalTree

  /** Deliver s to a consumer that has had `out`: what it has had then, and whether it still goes on. */
  ghost function Feed<V>(out: seq<V>, s: seq<V>, more: seq<V> -> bool): (seq<V>, bool)
    decreases |s|
  {
    if s == [] then (out, true)
    else if !more(out + [s[0]]) then (out + [s[0]], false)
    else Feed(out + [s[0]], s[1..], more)
  }

  lemma {:induction false} FeedCat<V>(out: seq<V>, a: seq<V>, b: seq<V>, more: seq<V> -> bool)
    ensures Feed(out, a + b, more)
         == if Feed(out, a, more).1 then Feed(Feed(out, a, more).0, b, more) else Feed(out, a, more)
    decreases |a|
  {
    if a == [] {
      assert a + b == b;
    } else {
      assert (a + b)[1..] == a[1..] + b;
      if more(out + [a[0]]) {
        FeedCat(out + [a[0]], a[1..], b, more);
      }
    }
  }

  lemma FeedNone<V>(out: seq<V>, more: seq<V> -> bool)
    ensures Feed(out, [], more) == (out, true)
  {
  }

  lemma FeedOne<V>(out: seq<V>, x: V, more: seq<V> -> bool)
    ensures Feed(out, [x], more) == (out + [x], more(out + [x]))
  {
  }

  /** A consumer that stops had some prefix; one that does not had everything. */
  lemma {:induction false} FeedPrefix<V>(out: seq<V>, s: seq<V>, more: seq<V> -> bool)
    ensures out <= Feed(out, s, more).0 <= out + s
    ensures Feed(out, s, more).1 ==> Feed(out, s, more).0 == out + s
    decreases |s|
  {
    if s != [] {
      assert out + [s[0]] + s[1..] == out + s;
      if more(out + [s[0]]) {
        FeedPrefix(out + [s[0]], s[1..], more);
      }
    }
  }

  lemma {:induction false} ReversedCat<V>(a: seq<V>, b: seq<V>)
    ensures Reversed(a + b) == Reversed(b) + Reversed(a)
    decreases |a|
  {
    if a == [] {
      assert a + b == b;
      assert Reversed(b) + [] == Reversed(b);
    } else {
      assert (a + b)[1..] == a[1..] + b;
      ReversedCat(a[1..], b);
    }
  }

  /** getAt0 for an index inside the tree: down to the node that holds the item. */
  method NodeGetAt<V>(nodes: seq<Node<V>>, root: Id, index: nat, ghost t: Shape<V>, ghost h: nat) returns (v: V)
    requires Rep(nodes, t) && t.id == root && Shaped(t, h) && index < |Flat(t)|
    ensures v == Flat(t)[index]
  {
    hide Rep, Flat, Shaped, Balanced, Before, After;
    var n: Id, x: nat := root, index;
    ghost var u, g := t, h;
    while true
      invariant Rep(nodes, u) && u.id == n && Shaped(u, g) && x < |Flat(u)| && Flat(u)[x] == Flat(t)[index]
      decreases g
    {
      RepAt(nodes, u, g);
      if nodes[n].Leaf() {
        FlatLeaf(u);
        return nodes[n].items[x];
      }
      BeforeNone(u.kids, u.items);
      FlatBranch(u);
      var i: nat, y: nat := 0, x;
      while i < |nodes[n].items|
        invariant i <= |u.items| && x == |Before(u.kids, u.items, i)| + y
      {
        KidAt(nodes, u, g, i);
        Focus(u.kids, u.items, i);
        var count := nodes[n].counts[i];
        if y < count {
          break;
        }
        BeforeStep(u.kids, u.items, i);
        if y == count {
          SeparatorAt(u, i, x);
          return nodes[n].items[i];
        }
        y := y - (count + 1);
        i := i + 1;
      }
      KidAt(nodes, u, g, i);
      Focus(u.kids, u.items, i);
      if i == |u.items| { AfterEnd(u.kids, u.items); }
      n, x := nodes[n].children[i], y;
      u, g := u.kids[i], g - 1;
    }
  }

  lemma RepAt<V>(nodes: seq<Node<V>>, t: Shape<V>, h: nat)
    requires Rep(nodes, t) && Shaped(t, h)
    ensures t.id < |nodes| && nodes[t.id].items == t.items
    ensures |nodes[t.id].children| == |nodes[t.id].counts| == |t.kids|
    ensures nodes[t.id].Leaf() <==> t.kids == []
    ensures t.kids == [] <==> h == 0
    ensures |t.items| <= MAX_ITEMS && (h > 0 ==> |t.kids| == |t.items| + 1)
  {
    hide Flat, Balanced;
    RepParts(nodes, t);
    hide Rep;
    ShapedFormed(t, h, t.id);
  }

  lemma KidAt<V>(nodes: seq<Node<V>>, t: Shape<V>, h: nat, i: nat)
    requires Rep(nodes, t) && Shaped(t, h) && i < |t.kids|
    ensures h > 0 && t.id < |nodes| && i < |nodes[t.id].children| == |nodes[t.id].counts|
    ensures nodes[t.id].children[i] == t.kids[i].id && nodes[t.id].counts[i] == |Flat(t.kids[i])|
    ensures Rep(nodes, t.kids[i]) && Shaped(t.kids[i], h - 1)
  {
    hide Flat, Balanced;
    ShapedFormed(t, h, t.id);
    KidItems(t, h, i);
  }

  lemma SeparatorAt<V>(t: Shape<V>, i: nat, x: nat)
    requires i < |t.items| && i < |t.kids| && t.kids != []
    requires x == |Before(t.kids, t.items, i)| + |Flat(t.kids[i])|
    ensures x < |Flat(t)| && Flat(t)[x] == t.items[i]
  {
    hide Flat, Weave;
    FlatBranch(t);
    Focus(t.kids, t.items, i);
    assert After(t.kids, t.items, i)[0] == t.items[i];
    hide Before, After;
  }

  /** Child i and what follows it, and what follows child i. */
  ghost function From<V>(t: Shape<V>, i: nat): seq<V>
    requires i <= |t.kids| && i <= |t.items|
  {
    Weave(t.kids[i..], t.items[i..])
  }

  lemma FromStep<V>(t: Shape<V>, i: nat)
    requires i < |t.kids| && i <= |t.items|
    ensures From(t, i) == Flat(t.kids[i]) + After(t.kids, t.items, i)
    ensures i < |t.items| ==> After(t.kids, t.items, i) == [t.items[i]] + From(t, i + 1)
  {
    hide Flat, Weave;
    WeaveStep(t.kids, t.items, i);
  }

  lemma FromAll<V>(t: Shape<V>)
    requires t.kids != []
    ensures From(t, 0) == Flat(t)
  {
    hide Flat, Weave;
    FlatBranch(t);
    assert t.kids[0..] == t.kids && t.items[0..] == t.items;
  }

  /** nodeAll */
  method NodeAll<V>(nodes: seq<Node<V>>, n: Id, ghost t: Shape<V>, ghost h: nat, out0: seq<V>, more: seq<V> -> bool)
      returns (out: seq<V>, go: bool)
    requires Rep(nodes, t) && t.id == n && Shaped(t, h)
    ensures (out, go) == Feed(out0, Flat(t), more)
    decreases h
  {
    hide Rep, Flat, Shaped, Balanced, Before, After, From;
    RepAt(nodes, t, h);
    out := out0;
    var nd := nodes[n];
    if nd.Leaf() {
      FlatLeaf(t);
      assert t.items[0..] == t.items;
      for i := 0 to |nd.items|
        invariant Feed(out, t.items[i..], more) == Feed(out0, t.items, more)
      {
        assert t.items[i..][1..] == t.items[i+1..];
        out := out + [nd.items[i]];
        if !more(out) {
          return out, false;
        }
      }
      return out, true;
    }
    FromAll(t);
    for i := 0 to |nd.items|
      invariant Feed(out, From(t, i), more) == Feed(out0, Flat(t), more)
    {
      KidAt(nodes, t, h, i);
      FromStep(t, i);
      FeedCat(out, Flat(t.kids[i]), After(t.kids, t.items, i), more);
      out, go := NodeAll(nodes, nd.children[i], t.kids[i], h - 1, out, more);
      if !go {
        return;
      }
      FeedCat(out, [t.items[i]], From(t, i + 1), more);
      FeedOne(out, t.items[i], more);
      out := out + [nd.items[i]];
      if !more(out) {
        return out, false;
      }
    }
    KidAt(nodes, t, h, |nd.items|);
    FromStep(t, |t.items|);
    AfterEnd(t.kids, t.items);
    assert Flat(t.kids[|t.items|]) + [] == Flat(t.kids[|t.items|]);
    out, go := NodeAll(nodes, nd.children[|nd.items|], t.kids[|t.items|], h - 1, out, more);
  }

  /** nodeBackward */
  method NodeBackward<V>(nodes: seq<Node<V>>, n: Id, ghost t: Shape<V>, ghost h: nat, out0: seq<V>,
                         more: seq<V> -> bool)
      returns (out: seq<V>, go: bool)
    requires Rep(nodes, t) && t.id == n && Shaped(t, h)
    ensures (out, go) == Feed(out0, Reversed(Flat(t)), more)
    decreases h, 1, 0
  {
    hide Rep, Flat, Shaped, Balanced, Before, After, Reversed;
    RepAt(nodes, t, h);
    var nd := nodes[n];
    if nd.Leaf() {
      FlatLeaf(t);
      assert t.items[..|t.items|] == t.items;
      out, go := LeafBackward(nd.items, |nd.items|, out0, more);
      return;
    }
    var m := |nd.items|;
    KidAt(nodes, t, h, m);
    FlatBranch(t);
    Focus(t.kids, t.items, m);
    AfterEnd(t.kids, t.items);
    assert Flat(t) == Before(t.kids, t.items, m) + Flat(t.kids[m]);
    ReversedCat(Before(t.kids, t.items, m), Flat(t.kids[m]));
    FeedCat(out0, Reversed(Flat(t.kids[m])), Reversed(Before(t.kids, t.items, m)), more);
    out, go := NodeBackward(nodes, nd.children[m], t.kids[m], h - 1, out0, more);
    if !go {
      return;
    }
    out, go := BranchBackward(nodes, n, m, t, h, out, more);
  }

  /** The items of a leaf below position i, last first. */
  method LeafBackward<V>(items: seq<V>, i: nat, out0: seq<V>, more: seq<V> -> bool) returns (out: seq<V>, go: bool)
    requires i <= |items|
    ensures (out, go) == Feed(out0, Reversed(items[..i]), more)
  {
    hide Reversed;
    out := out0;
    var j: nat := i;
    while j > 0
      invariant j <= i && Feed(out, Reversed(items[..j]), more) == Feed(out0, Reversed(items[..i]), more)
    {
      j := j - 1;
      assert items[..j+1] == items[..j] + [items[j]];
      ReversedCat(items[..j], [items[j]]);
      ReversedOne(items[j]);
      FeedCat(out, [items[j]], Reversed(items[..j]), more);
      FeedOne(out, items[j], more);
      out := out + [items[j]];
      if !more(out) {
        return out, false;
      }
    }
    assert items[..0] == [];
    ReversedNone<V>();
    return out, true;
  }

  lemma ReversedNone<V>()
    ensures Reversed<V>([]) == []
  {
  }

  lemma ReversedOne<V>(x: V)
    ensures Reversed([x]) == [x]
  {
  }

  /** The tail loop of both descending iterations: what precedes child i of n, last first. */
  method BranchBackward<V>(nodes: seq<Node<V>>, n: Id, i: nat, ghost t: Shape<V>, ghost h: nat, out0: seq<V>,
                           more: seq<V> -> bool) returns (out: seq<V>, go: bool)
    requires Rep(nodes, t) && t.id == n && Shaped(t, h) && h > 0 && i <= |t.items| < |t.kids|
    ensures (out, go) == Feed(out0, Reversed(Before(t.kids, t.items, i)), more)
    decreases h, 0, 0
  {
    hide Rep, Flat, Shaped, Balanced, Before, After, Reversed;
    RepAt(nodes, t, h);
    out := out0;
    var nd := nodes[n];
    var j: nat := i;
    while j > 0
      invariant j <= i
      invariant Feed(out, Reversed(Before(t.kids, t.items, j)), more) ==
        Feed(out0, Reversed(Before(t.kids, t.items, i)), more)
    {
      j := j - 1;
      KidAt(nodes, t, h, j);
      ghost var a, b := Before(t.kids, t.items, j), Flat(t.kids[j]);
      BeforeStep(t.kids, t.items, j);
      ReversedThree(a, b, t.items[j]);
      FeedCat(out, [t.items[j]], Reversed(b) + Reversed(a), more);
      FeedOne(out, t.items[j], more);
      out := out + [nd.items[j]];
      if !more(out) {
        return out, false;
      }
      FeedCat(out, Reversed(b), Reversed(a), more);
      out, go := NodeBackward(nodes, nd.children[j], t.kids[j], h - 1, out, more);
      if !go {
        return;
      }
    }
    BeforeNone(t.kids, t.items);
    ReversedNone<V>();
    return out, true;
  }

  lemma ReversedThree<V>(a: seq<V>, b: seq<V>, x: V)
    ensures Reversed(a + b + [x]) == [x] + (Reversed(b) + Reversed(a))
  {
    hide Reversed;
    ReversedCat(a + b, [x]);
    ReversedCat(a, b);
    ReversedOne(x);
  }

  /** The items of a leaf from position i on. */
  method LeafForward<V>(items: seq<V>, i: nat, out0: seq<V>, more: seq<V> -> bool) returns (out: seq<V>, go: bool)
    requires i <= |items|
    ensures (out, go) == Feed(out0, items[i..], more)
  {
    out := out0;
    for j := i to |items|
      invariant Feed(out, items[j..], more) == Feed(out0, items[i..], more)
    {
      assert items[j..][1..] == items[j+1..];
      out := out + [items[j]];
      if !more(out) {
        return out, false;
      }
    }
    return out, true;
  }

  /** nodeAscendAt: the contents from position index on. */
  method NodeAscendAt<V>(nodes: seq<Node<V>>, n: Id, index: nat, ghost t: Shape<V>, ghost h: nat, out0: seq<V>,
                         more: seq<V> -> bool) returns (out: seq<V>, go: bool)
    requires Rep(nodes, t) && t.id == n && Shaped(t, h) && index < |Flat(t)|
    ensures (out, go) == Feed(out0, Flat(t)[index..], more)
    decreases h
  {
    hide Rep, Flat, Shaped, Balanced, Before, After, From, Weave, Feed;
    RepAt(nodes, t, h);
    out := out0;
    var nd := nodes[n];
    if nd.Leaf() {
      FlatLeaf(t);
      out, go := LeafForward(nd.items, index, out, more);
      return;
    }
    var i, rest := SeekSlot(nodes, n, index, t, h);
    KidAt(nodes, t, h, i);
    FlatBranch(t);
    Focus(t.kids, t.items, i);
    ghost var tail := After(t.kids, t.items, i);
    SuffixOf(Before(t.kids, t.items, i), Flat(t.kids[i]), tail, rest);
    if rest < nd.counts[i] {
      FeedCat(out, Flat(t.kids[i])[rest..], tail, more);
      out, go := NodeAscendAt(nodes, nd.children[i], rest, t.kids[i], h - 1, out, more);
      if !go {
        return;
      }
    }
    for j := i to |nd.items|
      invariant Feed(out, After(t.kids, t.items, j), more) == Feed(out0, Flat(t)[index..], more)
    {
      FromStep(t, j);
      FromStep(t, j + 1);
      KidAt(nodes, t, h, j + 1);
      FeedCat(out, [t.items[j]], From(t, j + 1), more);
      FeedOne(out, t.items[j], more);
      out := out + [nd.items[j]];
      if !more(out) {
        return out, false;
      }
      FeedCat(out, Flat(t.kids[j+1]), After(t.kids, t.items, j + 1), more);
      out, go := NodeAll(nodes, nd.children[j+1], t.kids[j+1], h - 1, out, more);
      if !go {
        return;
      }
    }
    AfterEnd(t.kids, t.items);
    FeedNone(out, more);
    return out, true;
  }

  lemma SuffixOf<V>(a: seq<V>, b: seq<V>, c: seq<V>, rest: nat)
    requires rest <= |b|
    ensures (a + b + c)[|a|+rest..] == b[rest..] + c
    ensures rest == |b| ==> (a + b + c)[|a|+rest..] == c
  {
  }

  /** The search loop of nodeAscendAt: the child the position falls in, or the separator after it. */
  method SeekSlot<V>(nodes: seq<Node<V>>, n: Id, index: nat, ghost t: Shape<V>, ghost h: nat)
    returns (i: nat, rest: nat)
    requires Rep(nodes, t) && t.id == n && Shaped(t, h) && h > 0 && index < |Flat(t)|
    ensures i <= |t.items| && i < |t.kids|
    ensures index == |Before(t.kids, t.items, i)| + rest
    ensures rest < |Flat(t.kids[i])| || (rest == |Flat(t.kids[i])| && i < |t.items|)
  {
    hide Rep, Flat, Shaped, Balanced, Before, After;
    RepAt(nodes, t, h);
    var nd := nodes[n];
    BeforeNone(t.kids, t.items);
    i, rest := 0, index;
    while i < |nd.items|
      invariant i <= |t.items| && index == |Before(t.kids, t.items, i)| + rest
    {
      KidAt(nodes, t, h, i);
      var count := nd.counts[i];
      if rest < count {
        return;
      }
      if rest == count {
        return;
      }
      BeforeStep(t.kids, t.items, i);
      rest := rest - (count + 1);
      i := i + 1;
    }
    FlatBranch(t);
    Focus(t.kids, t.items, i);
    AfterEnd(t.kids, t.items);
  }

  /** nodeDescendAt: the contents without their last `skip` items, last first. */
  method NodeDescendAt<V>(nodes: seq<Node<V>>, n: Id, skip: nat, ghost t: Shape<V>, ghost h: nat, out0: seq<V>,
                          more: seq<V> -> bool) returns (out: seq<V>, go: bool)
    requires Rep(nodes, t) && t.id == n && Shaped(t, h) && skip < |Flat(t)|
    ensures (out, go) == Feed(out0, Reversed(Flat(t)[..|Flat(t)|-skip]), more)
    decreases h
  {
    hide Rep, Flat, Shaped, Balanced, Before, After, Reversed, Weave, Feed;
    RepAt(nodes, t, h);
    var nd := nodes[n];
    if nd.Leaf() {
      FlatLeaf(t);
      out, go := LeafBackward(nd.items, |nd.items| - skip, out0, more);
      return;
    }
    var i, rest := SeekSlotBack(nodes, n, skip, t, h);
    KidAt(nodes, t, h, i);
    FlatBranch(t);
    Focus(t.kids, t.items, i);
    ghost var a, b := Before(t.kids, t.items, i), Flat(t.kids[i]);
    PrefixOf(a, b, After(t.kids, t.items, i), rest);
    ReversedCat(a, b[..|b|-rest]);
    out := out0;
    if rest < nd.counts[i] {
      FeedCat(out, Reversed(b[..|b|-rest]), Reversed(a), more);
      out, go := NodeDescendAt(nodes, nd.children[i], rest, t.kids[i], h - 1, out, more);
      if !go {
        return;
      }
    }
    out, go := BranchBackward(nodes, n, i, t, h, out, more);
  }

  lemma PrefixOf<V>(a: seq<V>, b: seq<V>, c: seq<V>, rest: nat)
    requires rest <= |b|
    ensures var s := a + b + c;
            s[..|s| - (|c| + rest)] == a + b[..|b|-rest]
    ensures rest == |b| ==> a + b[..|b|-rest] == a
  {
  }

  method SeekSlotBack<V>(nodes: seq<Node<V>>, n: Id, skip: nat, ghost t: Shape<V>, ghost h: nat)
    returns (i: nat, rest: nat)
    requires Rep(nodes, t) && t.id == n && Shaped(t, h) && h > 0 && skip < |Flat(t)|
    ensures i <= |t.items| && i < |t.kids|
    ensures skip == |After(t.kids, t.items, i)| + rest
    ensures rest < |Flat(t.kids[i])| || (rest == |Flat(t.kids[i])| && i > 0)
  {
    hide Rep, Flat, Shaped, Balanced, Before, After;
    RepAt(nodes, t, h);
    var nd := nodes[n];
    AfterEnd(t.kids, t.items);
    i, rest := |nd.items|, skip;
    while i > 0
      invariant i <= |t.items| && skip == |After(t.kids, t.items, i)| + rest
    {
      KidAt(nodes, t, h, i);
      var count := nd.counts[i];
      if rest < count {
        return;
      }
      if rest == count {
        return;
      }
      FromStep(t, i - 1);
      FromStep(t, i);
      rest := rest - (count + 1);
      i := i - 1;
    }
    FlatBranch(t);
    Focus(t.kids, t.items, i);
    BeforeNone(t.kids, t.items);
  }

  // ---- the tree's own entry points

  method GetAt<V>(t: Tree<V>, index: int) returns (v: Option<V>)
    requires t.Readable()
    ensures v == if 0 <= index < |t.Contents()| then Some(t.Contents()[index]) else None
  {
    hide Rep, Flat, Shaped, Balanced;
    t.CountIsLength();
    if index < 0 || index >= t.count {
      return None;
    }
    var x;
    if index == 0 {
      x := FirstItem(t);
    } else if index == t.count - 1 {
      x := LastItem(t);
    } else {
      x := NodeGetAt(t.store.nodes, t.root.value, index, t.shape, t.h);
    }
    return Some(x);
  }

  /** front0 on a tree that is not empty. */
  method FirstItem<V>(t: Tree<V>) returns (v: V)
    requires t.Readable() && t.Contents() != []
    ensures v == t.Contents()[0]
  {
    hide Rep, Flat, Shaped, Balanced, Before, After;
    var nodes := t.store.nodes;
    var n: Id := t.root.value;
    ghost var u, g := t.shape, t.h;
    while true
      invariant Rep(nodes, u) && u.id == n && Shaped(u, g) && Flat(u) != [] && Flat(u)[0] == t.Contents()[0]
      decreases g
    {
      RepAt(nodes, u, g);
      if nodes[n].Leaf() {
        FlatLeaf(u);
        return nodes[n].items[0];
      }
      KidAt(nodes, u, g, 0);
      KidItems(u, g, 0);
      FlatSome(u.kids[0], g - 1);
      FlatBranch(u);
      Focus(u.kids, u.items, 0);
      BeforeNone(u.kids, u.items);
      n := nodes[n].children[0];
      u, g := u.kids[0], g - 1;
    }
  }

  /** back0 on a tree that is not empty. */
  method LastItem<V>(t: Tree<V>) returns (v: V)
    requires t.Readable() && t.Contents() != []
    ensures v == t.Contents()[|t.Contents()|-1]
  {
    hide Rep, Flat, Shaped, Balanced, Before, After;
    var nodes := t.store.nodes;
    var n: Id := t.root.value;
    ghost var u, g := t.shape, t.h;
    while true
      invariant Rep(nodes, u) && u.id == n && Shaped(u, g) && Flat(u) != []
      invariant Flat(u)[|Flat(u)|-1] == t.Contents()[|t.Contents()|-1]
      decreases g
    {
      RepAt(nodes, u, g);
      var m := |nodes[n].items|;
      if nodes[n].Leaf() {
        FlatLeaf(u);
        return nodes[n].items[m-1];
      }
      KidAt(nodes, u, g, m);
      KidItems(u, g, m);
      FlatSome(u.kids[m], g - 1);
      FlatBranch(u);
      Focus(u.kids, u.items, m);
      AfterEnd(u.kids, u.items);
      n := nodes[n].children[m];
      u, g := u.kids[m], g - 1;
    }
  }

  method Front<V>(t: Tree<V>) returns (v: Option<V>)
    requires t.Readable()
    ensures v == if t.Contents() == [] then None else Some(t.Contents()[0])
  {
    hide Rep, Flat, Shaped, Balanced;
    t.CountIsLength();
    if t.count == 0 { return None; }
    var x := FirstItem(t);
    return Some(x);
  }

  method Back<V>(t: Tree<V>) returns (v: Option<V>)
    requires t.Readable()
    ensures v == if t.Contents() == [] then None else Some(t.Contents()[|t.Contents()| - 1])
  {
    hide Rep, Flat, Shaped, Balanced;
    t.CountIsLength();
    if t.count == 0 { return None; }
    var x := LastItem(t);
    return Some(x);
  }

  /** all0 */
  method All<V>(t: Tree<V>, more: seq<V> -> bool) returns (out: seq<V>)
    requires t.Readable()
    ensures out == Feed([], t.Contents(), more).0
  {
    hide Rep, Flat, Shaped, Balanced;
    t.CountIsLength();
    out := [];
    if t.count > 0 {
      var go;
      out, go := NodeAll(t.store.nodes, t.root.value, t.shape, t.h, [], more);
    }
  }

  /** backward0 */
  method Backward<V>(t: Tree<V>, more: seq<V> -> bool) returns (out: seq<V>)
    requires t.Readable()
    ensures out == Feed([], Reversed(t.Contents()), more).0
  {
    hide Rep, Flat, Shaped, Balanced;
    t.CountIsLength();
    out := [];
    if t.count > 0 {
      var go;
      out, go := NodeBackward(t.store.nodes, t.root.value, t.shape, t.h, [], more);
    }
  }

  method AscendAt<V>(t: Tree<V>, index: int, more: seq<V> -> bool) returns (out: seq<V>)
    requires t.Readable()
    ensures var s := t.Contents();
            out == Feed([], if index <= 0 then s else if index >= |s| then [] else s[index..], more).0
  {
    hide Rep, Flat, Shaped, Balanced;
    t.CountIsLength();
    out := [];
    if index <= 0 || index >= t.count {
      if index <= 0 {
        out := All(t, more);
      }
    } else if t.count > 0 {
      var go;
      out, go := NodeAscendAt(t.store.nodes, t.root.value, index, t.shape, t.h, [], more);
    }
  }

  method DescendAt<V>(t: Tree<V>, index: int, more: seq<V> -> bool) returns (out: seq<V>)
    requires t.Readable()
    ensures var s := t.Contents();
            out == Feed([], Reversed(if index >= |s| - 1 then s else if index < 0 then [] else s[..index+1]), more).0
  {
    hide Rep, Flat, Shaped, Balanced;
    t.CountIsLength();
    ReversedNone<V>();
    out := [];
    if index < 0 || index >= t.count - 1 {
      if index >= t.count - 1 {
        out := Backward(t, more);
      }
    } else if t.count > 0 {
      var skip := t.count - index - 1;
      var go;
      out, go := NodeDescendAt(t.store.nodes, t.root.value, skip, t.shape, t.h, [], more);
    }
  }

  // ---- height

  /** The depth of every leaf, which bounds the number of items both ways. */
  method Height<V>(t: Tree<V>) returns (height: nat)
    requires t.Readable()
    ensures t.count == 0 ==> height == 0
    ensures t.count > 0 ==> height == t.h && Shaped(t.shape, height)
    ensures t.count > 0 ==> 2 * Pow(32, height) - 1 <= t.count <= Pow(64, height + 1) - 1
  {
    hide Rep, Flat, Balanced, Pow;
    t.CountIsLength();
    height := 0;
    if t.count == 0 {
      return;
    }
    var nodes := t.store.nodes;
    var n := t.root.value;
    ghost var u: Shape<V>, g: nat := t.shape, t.h;
    RepAt(nodes, u, g);
    while !nodes[n].Leaf()
      invariant n < |nodes| && u.id == n && Rep(nodes, u) && Shaped(u, g) && g + height == t.h
      invariant nodes[n].Leaf() <==> g == 0
      decreases g
    {
      KidAt(nodes, u, g, 0);
      RepAt(nodes, u.kids[0], g - 1);
      n := nodes[n].children[0];
      u, g := u.kids[0], g - 1;
      height := height + 1;
    }
    SizeBounds(t.shape, t.h);
  }

  function Pow(b: nat, e: nat): nat
  {
    if e == 0 then 1 else b * Pow(b, e - 1)
  }

  /** The fill bounds, summed over a subtree: at least, and at most, this many items. */
  lemma {:induction false} BalancedBounds<V>(t: Shape<V>, h: nat)
    requires Balanced(t, h)
    ensures Pow(32, h + 1) - 1 <= |Flat(t)| <= Pow(64, h + 1) - 1
    decreases h, 0
  {
    hide Flat;
    if h == 0 {
      FlatLeaf(t);
      assert Pow(32, 1) == 32 && Pow(64, 1) == 64;
    } else {
      hide Weave;
      KidsBounds(t.kids, t.items, h - 1);
      FlatBranch(t);
      var n, lo, hi := |t.items|, Pow(32, h), Pow(64, h);
      assert Pow(32, h + 1) == 32 * lo && Pow(64, h + 1) == 64 * hi;
      hide Pow;
      Scale(32, n + 1, lo);
      Scale(n + 1, 64, hi);
    }
  }

  lemma Scale(a: nat, b: nat, x: nat)
    requires a <= b
    ensures a * x <= b * x
  {
  }

  lemma {:induction false} KidsBounds<V>(kids: seq<Shape<V>>, items: seq<V>, h: nat)
    requires |kids| == |items| + 1 && forall j :: 0 <= j < |kids| ==> Balanced(kids[j], h)
    ensures |kids| * Pow(32, h + 1) - 1 <= |Weave(kids, items)| <= |kids| * Pow(64, h + 1) - 1
    decreases h, 1, |kids|
  {
    hide Flat, Balanced, Pow;
    BalancedBounds(kids[0], h);
    Focus(kids, items, 0);
    BeforeNone(kids, items);
    hide Before;
    if items == [] {
      AfterEnd(kids, items);
    } else {
      hide Weave;
      assert After(kids, items, 0) == [items[0]] + Weave(kids[1..], items[1..]);
      KidsBounds(kids[1..], items[1..], h);
      OneMoreOf(|items|, Pow(32, h + 1));
      OneMoreOf(|items|, Pow(64, h + 1));
    }
  }

  lemma OneMoreOf(n: nat, x: nat)
    ensures (n + 1) * x == x + n * x
  {
  }

  lemma SizeBounds<V>(t: Shape<V>, h: nat)
    requires Shaped(t, h) && t.items != []
    ensures 2 * Pow(32, h) - 1 <= |Flat(t)| <= Pow(64, h + 1) - 1
  {
    hide Flat;
    if h == 0 {
      FlatLeaf(t);
      assert Pow(64, 1) == 64;
    } else {
      hide Weave;
      KidsBounds(t.kids, t.items, h - 1);
      FlatBranch(t);
      var n, lo, hi := |t.items|, Pow(32, h), Pow(64, h);
      assert Pow(64, h + 1) == 64 * hi;
      hide Pow;
      Scale(2, n + 1, lo);
      Scale(n + 1, 64, hi);
    }
  }
}
