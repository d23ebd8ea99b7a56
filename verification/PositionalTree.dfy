/** The positional tree: a root in a store of nodes it may share with copy-on-write snapshots. Every
    operation is stated on the sequence the tree stands for. */
module PositionalTree {
  import opened Basics
  import opened Shapes
  import opened NodeGraph
  import opened Handover
  import opened CowStore

  /** A leaf kept for reuse: out of the graph, unshared and empty. */
  ghost predicate SpareOk<V>(nodes: seq<Node<V>>, l: Ledger<V>, spare: Option<Id>, root: Option<Id>)
  {
    spare.Some? ==>
      && Loose(nodes, l, spare.value) && root != spare
      && nodes[spare.value] == Node([], [], [], 0)
  }

  lemma SpareKept<V>(n0: seq<Node<V>>, l0: Ledger<V>, n1: seq<Node<V>>, l1: Ledger<V>, spare: Option<Id>,
                     root: Option<Id>, root': Option<Id>, mine: set<Id>)
    requires SpareOk(n0, l0, spare, root) && Keeps(n0, l0, n1, l1, mine)
    requires spare.Some? ==> spare.value !in mine
    requires root' == root || (root'.Some? && (root'.value in l0.live || root'.value >= |n0|))
    ensures SpareOk(n1, l1, spare, root')
  {
  }

  lemma SpareSplit<V>(n0: seq<Node<V>>, l0: Ledger<V>, n1: seq<Node<V>>, l1: Ledger<V>, spare: Option<Id>,
                      root: Option<Id>, root2: Id, t: Shape<V>)
    requires SpareOk(n0, l0, spare, root) && root.Some? && Keeps(n0, l0, n1, l1, {root.value}) && root2 >= |n0|
    ensures SpareOk(n1, l1, spare, Some(root2))
  {
  }

  lemma KeepsShots<V>(n0: seq<Node<V>>, l0: Ledger<V>, n1: seq<Node<V>>, l1: Ledger<V>, mine: set<Id>)
    requires Keeps(n0, l0, n1, l1, mine)
    ensures ShotsKept(l0, l1)
  {
  }

  lemma ShotsTwice<V>(l0: Ledger<V>, l1: Ledger<V>, l2: Ledger<V>)
    requires ShotsKept(l0, l1) && ShotsKept(l1, l2)
    ensures ShotsKept(l0, l2)
  {
  }

  lemma ShotsSame<V>(l: Ledger<V>)
    ensures ShotsKept(l, l)
  {
  }

  lemma GoodCopied<V>(nodes: seq<Node<V>>, l: Ledger<V>)
    ensures Good(nodes, l, false) ==> Good(nodes, l, true)
  {
  }

  lemma EmptyLeaf<V>(t: Shape<V>, h: nat)
    requires Shaped(t, h) && Flat(t) == []
    ensures t.items == [] && t.kids == []
  {
    if t.items != [] { FlatSome(t, h); }
    if t.kids != [] { FlatKids(t, h); }
  }

  lemma FlatKids<V>(t: Shape<V>, h: nat)
    requires Shaped(t, h) && t.kids != []
    ensures Flat(t) != []
  {
    ShapedFormed(t, h, t.id);
    hide Shaped, Flat, Weave, Balanced;
    KidItems(t, h, 0);
    FlatSome(t.kids[0], h - 1);
    FlatBranch(t);
    Focus(t.kids, t.items, 0);
  }

  lemma NoItems<V>(t: Shape<V>)
    requires Flat(t) != []
    ensures t.kids == [] ==> t.items != []
  {
  }

  lemma MatchSizes<V>(o: Others, l: Ledger<V>)
    requires Match(o, l)
    ensures |o.roots| == |l.shots| && o.leaving == l.leaving && o.pend == l.pend
  {
  }

  lemma LoosenedOwn<V>(n0: seq<Node<V>>, l0: Ledger<V>, l0': Ledger<V>, n1: seq<Node<V>>, l1: Ledger<V>)
    requires Loosened(n0, l0, n1, l1) && l0' == l0.(own := l0'.own)
    ensures Loosened(n0, l0', n1, l1)
  {
  }

  /** The root made exclusive, from the store n0 before to n1 after, and about to be unpacked. */
  lemma RootOpened<V>(n0: seq<Node<V>>, l0: Ledger<V>, n1: seq<Node<V>>, o: Others, l: Ledger<V>, copied: bool, r0: Id,
                      r: Id, shape: Shape<V>, h: nat, spare: Option<Id>) returns (l': Ledger<V>)
    requires Good(n0, l0, copied) && Grown(n0, l0, n1, l) && SpareOk(n0, l0, spare, Some(r0)) && Shaped(shape, h)
    requires l0.own == multiset{r0} && l.own == multiset{r} && (r == r0 || r >= |n0|)
    requires Good(n1, l, copied) && Match(o, l) && Rep(n1, Renamed(shape, r)) && r < |n1| && n1[r].rc == 0
    ensures Good(n1, l', copied) && Match(o, l') && Held(n1, l', r, Renamed(shape, r)) && Shaped(Renamed(shape, r), h)
    ensures Flat(Renamed(shape, r)) == Flat(shape) && |Renamed(shape, r).items| == |shape.items|
    ensures SpareOk(n1, l', spare, Some(r))
    ensures l'.frame == l0.frame && ShotsKept(l0, l')
  {
    hide Good, Match, Rep, Flat, Shaped, Keeps, Grown;
    ShapedFormed(shape, h, r);
    GrownKeeps(n0, l0, n1, l);
    RcOwned(n0, l0, copied, r0);
    SpareKept(n0, l0, n1, l, spare, Some(r0), Some(r), {});
    RcOwned(n1, l, copied, r);
    l' := Enter(n1, o, l, copied, Renamed(shape, r), multiset{});
  }

  /** One more snapshot of the tree with the given root. */
  lemma OneMoreShot<V>(nodes: seq<Node<V>>, o: Others, l: Ledger<V>, root: Option<Id>, t: Shape<V>, spare: Option<Id>)
    returns (nodes': seq<Node<V>>, l': Ledger<V>)
    requires Good(nodes, l, true) && Match(o, l) && SpareOk(nodes, l, spare, root)
    requires l.own == (if root.Some? then multiset{root.value} else multiset{})
    requires root.Some? ==> t.id == root.value && Rep(nodes, t)
    ensures root.Some? ==> root.value < |nodes| && Rep(nodes', t)
    ensures nodes' == match root case None => nodes case Some(r) => nodes[r := nodes[r].(rc := nodes[r].rc + 1)]
    ensures l' == l.(shots := l.shots + [if root.Some? then Some(t) else None])
    ensures Good(nodes', l', true) && Match(o.(roots := o.roots + [root]), l') && SpareOk(nodes', l', spare, root)
    ensures |o.roots| == |l.shots|
  {
    hide Good, Match, Rep;
    MatchSizes(o, l);
    if root.Some? {
      nodes', l' := Snap(nodes, o, l, root.value, t);
      RcOwned(nodes, l, true, root.value);
    } else {
      nodes' := nodes;
      l' := SnapNothing(nodes, o, l);
    }
  }

  /** A branch without items has one child and reads as that child. */
  lemma OnlyKid<V>(nodes: seq<Node<V>>, l: Ledger<V>, n: Id, t: Shape<V>, h: nat)
    requires Held(nodes, l, n, t) && t.items == [] && t.kids != [] && Shaped(t, h)
    ensures |t.kids| == 1 && Flat(t) == Flat(t.kids[0]) && Rep(nodes, t.kids[0])
    ensures nodes[n].children == [t.kids[0].id] && l.own == multiset{t.kids[0].id}
  {
    RepParts(nodes, t);
    HereSizes(nodes, t);
    hide Flat, Weave, Balanced;
    FlatBranch(t);
    Focus(t.kids, t.items, 0);
    BeforeNone(t.kids, t.items);
    AfterEnd(t.kids, t.items);
    assert nodes[n].children == [t.kids[0].id];
  }

  lemma GrowItems<V>(k: Shape<V>, root2: Id, right: Id)
    requires |k.items| == MAX_ITEMS && Formed(k)
    ensures |Grow(k, root2, right).items| == 1
  {
  }

  lemma LeafRep<V>(nodes: seq<Node<V>>, t: Shape<V>)
    requires t.id < |nodes| && t.kids == [] && nodes[t.id] == Node(t.items, [], [], 0) && |t.items| <= MAX_ITEMS
    ensures Rep(nodes, t) && Flat(t) == t.items && Shaped(t, 0)
  {
  }

  lemma FlatSome<V>(t: Shape<V>, h: nat)
    requires Shaped(t, h) && t.items != []
    ensures Flat(t) != []
  {
    ShapedFormed(t, h, t.id);
    if t.kids != [] {
      hide Flat, Shaped;
      FirstKid(t);
    }
  }

  class Tree<V> {
    const store: Store<V>
    var copied: bool
    var count: int
    var root: Option<Id>
    var spare: Option<Id>
    ghost var shape: Shape<V>
    ghost var h: nat

    /** What reading the tree needs. */
    ghost predicate Readable()
      reads this, store
    {
      if root.None? then count == 0
      else shape.id == root.value && Rep(store.nodes, shape) && Shaped(shape, h)
           && shape.items != [] && count == |Flat(shape)|
    }

    ghost function Contents(): seq<V>
      reads this
    {
      if root.None? then [] else Flat(shape)
    }

    /** The tree that is written to. */
    ghost predicate Valid()
      reads this, store
    {
      && store.Good(copied) && store.l.frame == [] && Readable()
      && store.l.own == (if root.Some? then multiset{root.value} else multiset{})
      && SpareOk(store.nodes, store.l, spare, root)
    }

    /** ... while its root is unpacked. */
    ghost predicate Working()
      reads this, store
    {
      && store.Good(copied) && store.l.frame == [] && root.Some?
      && Held(store.nodes, store.l, root.value, shape) && Shaped(shape, h)
      && SpareOk(store.nodes, store.l, spare, root)
    }

    constructor (store: Store<V>)
      requires store.Good(false) && store.l.frame == [] && store.l.own == multiset{}
      ensures Valid() && Contents() == [] && this.store == store && !copied && root == None && spare == None
    {
      this.store := store;
      copied, count, root, spare := false, 0, None, None;
    }

    /** The zero value, for CopyInto to fill. */
    constructor Zero(store: Store<V>)
      ensures this.store == store && root == None && count == 0
    {
      this.store := store;
      copied, count, root, spare := false, 0, None, None;
    }

    /** cowRoot, and the root is the writer's to change. */
    method OpenRoot()
      requires Valid() && root.Some?
      modifies this, store
      ensures Working() && Flat(shape) == old(Flat(shape)) && |shape.items| == old(|shape.items|)
      ensures h == old(h) && count == old(count) && copied == old(copied) && spare == old(spare)
      ensures ShotsKept(old(store.l), store.l)
    {
      hide Store.Good, NodeGraph.Good, Match, Rep, Flat, Shaped, Grown, Held, SpareOk, ShotsKept, Tree.Valid;
      hide Tree.Working, Tree.Readable, Renamed;
      ValidParts();
      ReadableParts();
      store.GoodParts(copied);
      ghost var n0, l0 := store.nodes, store.l;
      var r := store.CowRef(copied, root.value, shape);
      store.GoodParts(copied);
      store.l := RootOpened(n0, l0, store.nodes, store.others, store.l, copied, root.value, r, shape, h, spare);
      shape := Renamed(shape, r);
      root := Some(r);
      store.GoodParts(copied);
      WorkingParts();
    }

    /** Make room at the root for one more item. */
    method EnsureRoot() returns (wasSplit: bool)
      requires Working()
      modifies this, store
      ensures Working() && Flat(shape) == old(Flat(shape)) && |shape.items| < MAX_ITEMS
      ensures old(shape.items) != [] ==> shape.items != []
      ensures count == old(count) && copied == old(copied) && spare == old(spare)
      ensures ShotsKept(old(store.l), store.l)
    {
      hide NodeGraph.Good, Match, Rep, Flat, Shaped, Keeps, Grow;
      HeldAt(store.nodes, store.l, root.value, shape, h);
      wasSplit := false;
      if |store.nodes[root.value].items| == MAX_ITEMS {
        ghost var n0, l0 := store.nodes, store.l;
        ShapedFormed(shape, h, root.value);
        var root2;
        ghost var t;
        root2, t := store.SplitRoot(copied, root.value, shape);
        ghost var right :| t == Grow(shape, root2, right);
        GrowKeeps(shape, h, root2, right);
        GrowItems(shape, root2, right);
        KeepsShots(n0, l0, store.nodes, store.l, {root.value});
        SpareSplit(n0, l0, store.nodes, store.l, spare, root, root2, t);
        shape, h := t, h + 1;
        root := Some(root2);
        wasSplit := true;
      }
    }

    /** The start of every insertion into a non-empty tree. */
    method OpenWithRoom()
      requires Valid() && root.Some?
      modifies this, store
      ensures Working() && Flat(shape) == old(Flat(shape)) && |shape.items| < MAX_ITEMS && shape.items != []
      ensures count == |Flat(shape)| && copied == old(copied)
      ensures ShotsKept(old(store.l), store.l)
    {
      hide NodeGraph.Good, Match, Rep, Flat, Shaped, Keeps, Held, SpareOk, ShotsKept;
      ghost var l0 := store.l;
      OpenRoot();
      ghost var l1 := store.l;
      var _ := EnsureRoot();
      ShotsTwice(l0, l1, store.l);
    }

    /** Put the root back, after which the tree can be read and copied again. */
    ghost method CloseRoot()
      requires Working() && shape.items != [] && count == |Flat(shape)|
      modifies store`l
      ensures Valid() && ShotsKept(old(store.l), store.l)
    {
      hide NodeGraph.Good, Flat, Shaped, Rep;
      store.l := Pack(store.nodes, store.l, copied, root.value);
    }

    /** The first item of an empty tree goes into the spare leaf if there is one. */
    method InsertFirstItem(v: V)
      requires Valid() && count == 0
      modifies this, store
      ensures Valid() && Contents() == [v] && copied == old(copied) && ShotsKept(old(store.l), store.l)
    {
      hide Store.Good, NodeGraph.Good, Match;
      EmptyRoot();
      store.GoodParts(copied);
      ghost var n0 := store.nodes;
      GoodBelow(store.nodes, store.l, copied);
      if spare.Some? {
        root := spare;
        spare := None;
      } else {
        root := Some(|store.nodes|);
        store.nodes := store.nodes + [Node([], [], [], 0)];
      }
      var r := root.value;
      Rewrite(n0, store.nodes, store.l, copied, {});
      store.GoodParts(copied);
      store.Write(copied, r, store.nodes[r].(items := [v]));
      count := 1;
      shape, h := Shape(r, [v], []), 0;
      LeafRep(store.nodes, shape);
      CloseRoot();
    }

    lemma EmptyRoot()
      requires Readable() && count == 0
      ensures root.None?
    {
      if root.Some? { FlatSome(shape, h); }
    }

    // The predicates taken apart and put together, for methods that hide them.

    lemma ValidParts()
      ensures Valid() <==>
        && store.Good(copied) && store.l.frame == [] && Readable() && SpareOk(store.nodes, store.l, spare, root)
        && store.l.own == if root.Some? then multiset{root.value} else multiset{}
    {
    }

    lemma ReadableParts()
      ensures Readable() <==>
        if root.None? then count == 0
        else shape.id == root.value && Rep(store.nodes, shape) && Shaped(shape, h)
             && shape.items != [] && count == |Flat(shape)|
    {
    }

    lemma WorkingParts()
      requires store.Good(copied) && store.l.frame == [] && root.Some?
      requires Held(store.nodes, store.l, root.value, shape) && Shaped(shape, h)
      requires SpareOk(store.nodes, store.l, spare, root)
      ensures Working()
    {
    }

    lemma NonEmptyRoot()
      requires Readable() && count != 0
      ensures root.Some?
    {
    }

    method PushFront(v: V) returns (ok: bool)
      requires Valid()
      modifies this, store
      ensures Valid() && ok && Contents() == [v] + old(Contents())
      ensures copied == old(copied) && ShotsKept(old(store.l), store.l)
    {
      hide NodeGraph.Good, Match, Rep, Flat, Shaped, Keeps, SpareOk, ShotsKept, Held;
      if count == 0 {
        EmptyRoot();
        InsertFirstItem(v);
        return true;
      }
      ghost var l00 := store.l;
      NonEmptyRoot();
      OpenWithRoom();
      ghost var n0, l0, t0 := store.nodes, store.l, shape;
      shape := store.NodePushFront(copied, root.value, v, shape, h);
      Grew(n0, l0, t0, 0, v);
      ShotsTwice(l00, l0, store.l);
      return true;
    }

    method PushBack(v: V) returns (ok: bool)
      requires Valid()
      modifies this, store
      ensures Valid() && ok && Contents() == old(Contents()) + [v]
      ensures copied == old(copied) && ShotsKept(old(store.l), store.l)
    {
      hide NodeGraph.Good, Match, Rep, Flat, Shaped, Keeps, SpareOk, ShotsKept, Held;
      if count == 0 {
        EmptyRoot();
        InsertFirstItem(v);
        return true;
      }
      ghost var l00 := store.l;
      NonEmptyRoot();
      OpenWithRoom();
      ghost var n0, l0, t0 := store.nodes, store.l, shape;
      shape := store.NodePushBack(copied, root.value, v, shape, h);
      Grew(n0, l0, t0, |Flat(t0)|, v);
      ShotsTwice(l00, l0, store.l);
      return true;
    }

    /** After an insertion below the root. */
    method Grew(ghost n0: seq<Node<V>>, ghost l0: Ledger<V>, ghost t0: Shape<V>, ghost p: nat, ghost v: V)
      requires store.Good(copied) && store.l.frame == [] && root.Some?
      requires Held(store.nodes, store.l, root.value, shape) && Shaped(shape, h)
      requires SpareOk(n0, l0, spare, root) && Keeps(n0, l0, store.nodes, store.l, {root.value})
      requires Inserted(Flat(t0), p, v, Flat(shape)) && count == |Flat(t0)| && t0.items != []
      requires |t0.items| <= |shape.items|
      modifies this, store
      ensures Valid() && Inserted(Flat(t0), p, v, Contents())
      ensures copied == old(copied) && ShotsKept(l0, store.l)
    {
      hide NodeGraph.Good, Match, Rep, Flat, Shaped, Keeps;
      SpareKept(n0, l0, store.nodes, store.l, spare, root, root, {root.value});
      KeepsShots(n0, l0, store.nodes, store.l, {root.value});
      count := count + 1;
      CloseRoot();
    }

    method InsertAt(index: int, v: V) returns (ok: bool)
      requires Valid()
      modifies this, store
      ensures Valid() && copied == old(copied) && ShotsKept(old(store.l), store.l)
      ensures ok == (0 <= index <= |old(Contents())|)
      ensures Contents() == if ok then old(Contents())[..index] + [v] + old(Contents())[index..] else old(Contents())
    {
      hide NodeGraph.Good, Match, Rep, Flat, Shaped, Keeps, SpareOk, ShotsKept, FullAt, Held;
      CountIsLength();
      if index < 0 || index > count {
        ShotsSame(store.l);
        return false;
      }
      if index == 0 {
        ok := PushFront(v);
        return;
      }
      if index == count {
        ok := PushBack(v);
        return;
      }
      NonEmptyRoot();
      ghost var l00 := store.l;
      OpenWithRoom();
      ghost var n0, l0, t0 := store.nodes, store.l, shape;
      shape := store.NodeInsertAt(copied, root.value, index, v, shape, h);
      Grew(n0, l0, t0, index, v);
      ShotsTwice(l00, l0, store.l);
      return true;
    }

    lemma CountIsLength()
      requires Readable()
      ensures count == |Contents()|
    {
    }

    /** After a removal below the root. */
    method Shrank(ghost n0: seq<Node<V>>, ghost l0: Ledger<V>, ghost t0: Shape<V>, ghost p: nat, ghost v: V)
      requires store.Good(copied) && store.l.frame == [] && root.Some?
      requires Held(store.nodes, store.l, root.value, shape) && Shaped(shape, h)
      requires SpareOk(n0, l0, spare, root) && Keeps(n0, l0, store.nodes, store.l, {root.value})
      requires Removed(Flat(t0), p, v, Flat(shape)) && count == |Flat(t0)|
      modifies this, store
      ensures Valid() && Removed(Flat(t0), p, v, Contents())
      ensures copied == old(copied) && ShotsKept(l0, store.l)
    {
      hide NodeGraph.Good, Match, Rep, Flat, Shaped, Keeps, ShotsKept;
      SpareKept(n0, l0, store.nodes, store.l, spare, root, root, {root.value});
      KeepsShots(n0, l0, store.nodes, store.l, {root.value});
      count := count - 1;
      ghost var l1 := store.l;
      CollapseRootIfNeeded();
      ShotsTwice(l0, l1, store.l);
    }

    method CollapseRootIfNeeded()
      requires Working() && count == |Flat(shape)|
      modifies this, store
      ensures Valid() && Contents() == old(Flat(shape))
      ensures copied == old(copied) && ShotsKept(old(store.l), store.l)
    {
      hide NodeGraph.Good, Match, Rep, Flat, Shaped, ShotsKept;
      HeldAt(store.nodes, store.l, root.value, shape, h);
      ShotsSame(store.l);
      var r := root.value;
      if count == 0 {
        EmptyLeaf(shape, h);
        if spare == None && root != None && store.nodes[r].Leaf() && store.nodes[r].rc == 0 {
          spare := root;
        }
        root := None;
      } else if |store.nodes[r].items| == 0 && !store.nodes[r].Leaf() {
        HeldSizes(store.nodes, store.l, r, shape, 0);
        KidItems(shape, h, 0);
        OnlyKid(store.nodes, store.l, r, shape, h);
        RcOwned(store.nodes, store.l, copied, shape.kids[0].id);
        root := Some(store.nodes[r].children[0]);
        shape, h := shape.kids[0], h - 1;
      } else {
        NoItems(shape);
        CloseRoot();
      }
    }

    method PopFront() returns (v: Option<V>)
      requires Valid()
      modifies this, store
      ensures Valid() && copied == old(copied) && ShotsKept(old(store.l), store.l)
      ensures if old(Contents()) == [] then v == None && Contents() == []
              else v.Some? && v.value == old(Contents())[0] && Contents() == old(Contents())[1..]
    {
      hide NodeGraph.Good, Match, Rep, Flat, Shaped, Keeps, SpareOk, ShotsKept, Held;
      CountIsLength();
      if count == 0 {
        ShotsSame(store.l);
        return None;
      }
      NonEmptyRoot();
      ghost var l00 := store.l;
      OpenRoot();
      ghost var n0, l0, t0 := store.nodes, store.l, shape;
      var x: V;
      x, shape := store.NodePopFront(copied, root.value, shape, h);
      Shrank(n0, l0, t0, 0, x);
      ShotsTwice(l00, l0, store.l);
      return Some(x);
    }

    method PopBack() returns (v: Option<V>)
      requires Valid()
      modifies this, store
      ensures Valid() && copied == old(copied) && ShotsKept(old(store.l), store.l)
      ensures if old(Contents()) == [] then v == None && Contents() == []
              else v.Some? && v.value == old(Contents())[|old(Contents())|-1]
                   && Contents() == old(Contents())[..|old(Contents())|-1]
    {
      hide NodeGraph.Good, Match, Rep, Flat, Shaped, Keeps, SpareOk, ShotsKept, Held;
      CountIsLength();
      if count == 0 {
        ShotsSame(store.l);
        return None;
      }
      NonEmptyRoot();
      ghost var l00 := store.l;
      OpenRoot();
      ghost var n0, l0, t0 := store.nodes, store.l, shape;
      var x: V;
      x, shape := store.NodePopBack(copied, root.value, shape, h);
      Shrank(n0, l0, t0, |Flat(t0)| - 1, x);
      ShotsTwice(l00, l0, store.l);
      return Some(x);
    }

    method DeleteAt(index: int) returns (v: Option<V>)
      requires Valid()
      modifies this, store
      ensures Valid() && copied == old(copied) && ShotsKept(old(store.l), store.l)
      ensures if 0 <= index < |old(Contents())|
              then v == Some(old(Contents())[index])
                   && Contents() == old(Contents())[..index] + old(Contents())[index+1..]
              else v == None && Contents() == old(Contents())
    {
      hide NodeGraph.Good, Match, Rep, Flat, Shaped, Keeps, SpareOk, ShotsKept, Held;
      CountIsLength();
      if index < 0 || index >= count {
        ShotsSame(store.l);
        return None;
      }
      NonEmptyRoot();
      ghost var l00 := store.l;
      OpenRoot();
      ghost var n0, l0, t0 := store.nodes, store.l, shape;
      var x: V;
      x, shape := store.NodeDeleteAt(copied, root.value, index, shape, h);
      Shrank(n0, l0, t0, index, x);
      ShotsTwice(l00, l0, store.l);
      return Some(x);
    }

    /** Clear drops the root; the reference it held is not given back. */
    method Clear()
      requires Valid()
      modifies this, store`l
      ensures Valid() && Contents() == [] && copied == old(copied) && ShotsKept(old(store.l), store.l)
    {
      hide NodeGraph.Good, Match, Rep;
      count := 0;
      root := None;
      store.l := Forget(store.nodes, store.others, store.l, copied);
    }

    /** A snapshot, made by CopyInto and not yet released. */
    ghost predicate Snapshot(handle: nat)
      reads this, store
    {
      && Readable() && handle < |store.l.shots|
      && (root.Some? ==> store.l.shots[handle] == Some(shape))
    }

    /** t2 becomes a snapshot: it shares every node with this tree, from the root down. */
    method CopyInto(t2: Tree<V>) returns (handle: nat)
      requires Valid() && t2 != this && t2.store == store
      modifies this, t2, store
      ensures Valid() && Contents() == old(Contents()) && copied
      ensures t2.Snapshot(handle) && t2.Contents() == Contents() && t2.copied && t2.spare == spare == old(spare)
      ensures store.l.leaving == old(store.l.leaving) && handle == |old(store.l.shots)|
      ensures old(store.l.shots) <= store.l.shots && |store.l.shots| == handle + 1
    {
      hide Store.Good, NodeGraph.Good, Match, Rep, Shaped, Flat, SpareOk, Tree.Valid, Tree.Readable;
      ValidParts();
      ReadableParts();
      store.GoodParts(copied);
      copied := true;
      GoodCopied(store.nodes, store.l);
      t2.copied, t2.count, t2.root, t2.spare := copied, count, root, spare;
      t2.shape, t2.h := shape, h;
      handle := |store.others.roots|;
      ghost var n1, l1 := OneMoreShot(store.nodes, store.others, store.l, root, shape, spare);
      if root.Some? {
        var r := root.value;
        store.nodes := store.nodes[r := store.nodes[r].(rc := store.nodes[r].rc + 1)];
      }
      store.others := store.others.(roots := store.others.roots + [root]);
      store.l := l1;
      store.GoodParts(true);
      ReadableParts();
      ValidParts();
      t2.ReadableParts();
    }

    /** Release of a snapshot: its references are dropped and it reads empty from then on. */
    method Release(handle: nat)
      requires store.Good(true) && Snapshot(handle)
      modifies this, store
      ensures store.Good(true) && Contents() == [] && count == 0 && root == None
      ensures old(root).None? ==> store.l == old(store.l) && store.nodes == old(store.nodes)
      ensures old(root).Some? ==>
        Loosened(old(store.nodes), old(store.l).(shots := old(store.l.shots)[handle := None]), store.nodes, store.l)
      ensures store.l.own == old(store.l.own)
    {
      hide NodeGraph.Good, Rep, Shaped, Flat, Loosened, Match;
      MatchSizes(store.others, store.l);
      if root.Some? {
        var r := root.value;
        ghost var l1 := Unsnap(store.nodes, store.others, store.l, true, handle);
        store.others := store.others.(roots := store.others.roots[handle := None]);
        store.l := l1;
        ghost var n1, l0 := store.nodes, old(store.l).(shots := old(store.l.shots)[handle := None]);
        store.ReleaseNode(true, r);
        LoosenedOwn(n1, l1, l0, store.nodes, store.l);
      }
      count := 0;
      root := None;
    }

    /** Release of the tree that is written to: unlike Clear it gives its reference back. */
    method ReleaseWritten()
      requires Valid()
      modifies this, store
      ensures Valid() && Contents() == [] && copied == old(copied) && ShotsKept(old(store.l), store.l)
    {
      hide NodeGraph.Good, Rep, Shaped, Flat, Match, ShotsKept;
      ShotsSame(store.l);
      if root.Some? { store.ReleaseNode(copied, root.value); }
      count := 0;
      root := None;
    }
  }
}
