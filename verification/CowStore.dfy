/** The nodes a positional tree and its copy-on-write snapshots share, and the node-level operations
    that may write to them. */
module CowStore {
  import opened Basics
  import opened Shapes
  import opened NodeGraph
  import opened Handover

  class Store<V> {
    var nodes: seq<Node<V>>
    var others: Others
    ghost var l: Ledger<V>

    ghost predicate Good(copied: bool)
      reads this
    {
      NodeGraph.Good(nodes, l, copied) && Match(others, l)
    }

    /** For methods that hide the invariant and pass it on. */
    lemma GoodParts(copied: bool)
      ensures Good(copied) <==> NodeGraph.Good(nodes, l, copied) && Match(others, l)
    {
    }

    /** No nodes yet. Of the snapshots that will be taken, those with handles in `leaving` may be released while the
        writer works. */
    constructor (leaving: set<nat>)
      ensures Good(false) && nodes == [] && l == Ledger({}, multiset{}, [], [], multiset{}, leaving)
    {
      nodes, others, l := [], Others([], multiset{}, leaving), Ledger({}, multiset{}, [], [], multiset{}, leaving);
    }

    /** Whatever concurrent Releases of snapshots do between two steps of the writer: begin, for a
        snapshot that is leaving, and make single decrements. */
    method Interfere(ghost copied: bool)
      requires Good(copied)
      modifies this
      ensures Good(copied)
      ensures Loosened(old(nodes), old(l), nodes, l) && l.own == old(l).own
    {
      hide NodeGraph.Good, Match;
      var k: nat := *;
      while k > 0
        invariant Good(copied)
        invariant Loosened(old(nodes), old(l), nodes, l) && l.own == old(l).own
      {
        var begins: bool, x: nat := *, *;
        if begins {
          if x < |others.roots| && x in others.leaving && others.roots[x].Some? {
            BeginRelease(copied, x);
          }
        } else if x in others.pend {
          StepRelease(copied, x);
        }
        k := k - 1;
      }
    }

    /** The owner of snapshot h calls Release. */
    method BeginRelease(ghost copied: bool, h: nat)
      requires Good(copied) && h < |others.roots| && h in others.leaving && others.roots[h].Some?
      modifies this
      ensures Good(copied)
      ensures Loosened(old(nodes), old(l), nodes, l) && l.own == old(l).own
    {
      hide NodeGraph.Good, Match, Loosened;
      ghost var l' := Begin(nodes, others, l, copied, h);
      others := others.(roots := others.roots[h := None], pend := others.pend + multiset{others.roots[h].value});
      l := l';
    }

    /** One decrement a running Release owes. */
    method StepRelease(ghost copied: bool, c: Id)
      requires Good(copied) && c in others.pend
      modifies this
      ensures Good(copied)
      ensures Loosened(old(nodes), old(l), nodes, l) && l.own == old(l).own
    {
      hide Store.Good, NodeGraph.Good, Match, Loosened;
      GoodParts(copied);
      ghost var ns, l' := Step(nodes, others, l, copied, c);
      nodes := nodes[c := nodes[c].(rc := nodes[c].rc - 1)];
      var more := if nodes[c].rc < 0 then multiset(nodes[c].children) else multiset{};
      others := others.(pend := others.pend - multiset{c} + more);
      l := l';
      GoodParts(copied);
    }

    /** Drop a reference the caller holds; the last one out releases the children too. */
    method ReleaseNode(ghost copied: bool, c: Id)
      requires Good(copied) && c in l.own
      modifies this
      ensures Good(copied)
      ensures Loosened(old(nodes), old(l), nodes, l)
      ensures l.own == old(l).own - multiset{c} && l.live <= old(l).live
      decreases l.live, 0
    {
      hide NodeGraph.Good, Match, Loosened;
      ghost var n1, l1 := Release(nodes, others, l, copied, c);
      nodes := nodes[c := nodes[c].(rc := nodes[c].rc - 1)];
      l := l1;
      if nodes[c].rc < 0 {
        n1 := nodes;
        ReleaseKids(copied, nodes[c].children);
        LoosenedTwice(old(nodes), old(l), n1, l1, nodes, l);
      }
    }

    static lemma OneRetained(own: multiset<Id>, kids: seq<Id>, i: nat)
      requires i < |kids|
      ensures own + multiset(kids[..i]) + multiset{kids[i]} == own + multiset(kids[..i+1])
    {
      assert kids[..i+1] == kids[..i] + [kids[i]];
    }

    static lemma AllRetained(own: multiset<Id>, kids: seq<Id>)
      ensures own + multiset(kids[..|kids|]) == own + multiset(kids)
    {
      assert kids[..|kids|] == kids;
    }

    static lemma OneReleased(own: multiset<Id>, kids: seq<Id>, i: nat)
      requires i < |kids|
      ensures var left := own - multiset(kids) + multiset(kids[i..]);
        kids[i] in left && left - multiset{kids[i]} == own - multiset(kids) + multiset(kids[i+1..])
    {
      assert kids[i..] == [kids[i]] + kids[i+1..];
    }

    method ReleaseKids(ghost copied: bool, kids: seq<Id>)
      requires Good(copied) && multiset(kids) <= l.own
      modifies this
      ensures Good(copied)
      ensures Loosened(old(nodes), old(l), nodes, l)
      ensures l.own == old(l).own - multiset(kids) && l.live <= old(l).live
      decreases l.live, 1
    {
      hide Store.Good, Loosened;
      LoosenedNot(nodes, l);
      for i := 0 to |kids|
        invariant Good(copied)
        invariant Loosened(old(nodes), old(l), nodes, l) && l.live <= old(l).live
        invariant l.own == old(l).own - multiset(kids) + multiset(kids[i..])
      {
        OneReleased(old(l).own, kids, i);
        ghost var n1, l1 := nodes, l;
        Interfere(copied);
        LoosenedTwice(old(nodes), old(l), n1, l1, nodes, l);
        n1, l1 := nodes, l;
        ReleaseNode(copied, kids[i]);
        LoosenedTwice(old(nodes), old(l), n1, l1, nodes, l);
      }
    }

    /** One assignment to the data of node n, which is outside the graph. No snapshot that is not released reaches n,
        so an iteration over one, which takes no lock, may come between any two assignments. */
    method Write(ghost copied: bool, n: Id, nd: Node<V>)
      requires Good(copied) && n < |nodes| && n !in l.live
      modifies `nodes
      ensures Good(copied) && nodes == old(nodes)[n := nd] && Unshared(l, n)
    {
      hide NodeGraph.Good, Match, Unshared;
      OutsideIsUnshared(nodes, l, copied, n);
      ghost var n0 := nodes;
      nodes := nodes[n := nd];
      Rewrite(n0, nodes, l, copied, {n});
    }

    /** copyNode: a node of its own with c's items, sharing c's children. */
    method CopyNode(c: Id, ghost k: Shape<V>) returns (n2: Id)
      requires Good(true) && c in l.own && Rep(nodes, k) && k.id == c
      modifies this
      ensures Good(true) && Grown(old(nodes), old(l), nodes, l)
      ensures l.own == old(l).own + multiset{n2}
      ensures n2 == |old(nodes)| && |nodes| == n2 + 1 && nodes[n2].rc == 0
      ensures Rep(nodes, Shape(n2, k.items, k.kids))
    {
      hide NodeGraph.Good, Match, Loosened, Grown;
      RetainKids(c);
      ghost var n1, l1 := nodes, l;
      GrownRep(old(nodes), old(l), n1, l1, k);
      CopyRep(nodes, k, 0);
      n2 := |nodes|;
      var nd := nodes[c].(rc := 0);
      ghost var l2 := Allocate(nodes, others, l, true, nd);
      nodes := nodes + [nd];
      l := l2;
      GrownTwice(old(nodes), old(l), n1, l1, nodes, l);
    }

    /** One more reference to each child of c. */
    method RetainKids(c: Id)
      requires Good(true) && c in l.own && c < |nodes|
      modifies this
      ensures Good(true) && Grown(old(nodes), old(l), nodes, l) && |nodes| == |old(nodes)|
      ensures l.own == old(l).own + multiset(nodes[c].children)
    {
      hide Store.Good, Loosened, Keeps, Grown;
      var kids := nodes[c].children;
      LoosenedNot(nodes, l);
      LoosenedGrown(nodes, l, nodes, l);
      for i := 0 to |kids|
        invariant Good(true) && Grown(old(nodes), old(l), nodes, l) && |nodes| == |old(nodes)|
        invariant l.own == old(l).own + multiset(kids[..i]) && nodes[c].children == kids
      {
        OneRetained(old(l).own, kids, i);
        ghost var n0, l0 := nodes, l;
        RetainKid(c, i);
        GrownTwice(old(nodes), old(l), n0, l0, nodes, l);
      }
      AllRetained(old(l).own, kids);
    }

    /** ... to child i, and whatever Releases do then. */
    method RetainKid(c: Id, i: nat)
      requires Good(true) && c in l.own && c < |nodes| && i < |nodes[c].children|
      modifies this
      ensures Good(true) && Grown(old(nodes), old(l), nodes, l) && |nodes| == |old(nodes)|
      ensures nodes[c].children == old(nodes[c].children) && l.own == old(l).own + multiset{nodes[c].children[i]}
    {
      hide Store.Good, NodeGraph.Good, Match, Loosened, Keeps;
      GoodParts(true);
      ghost var n1, l1 := Retain(nodes, others, l, c, i);
      var kid := nodes[c].children[i];
      nodes := nodes[kid := nodes[kid].(rc := nodes[kid].rc + 1)];
      l := l1;
      GoodParts(true);
      Interfere(true);
      LoosenedGrown(n1, l1, nodes, l);
      GrownTwice(old(nodes), old(l), n1, l1, nodes, l);
    }

    /** The private copy of c replaces the caller's reference to c. */
    method Cow0(c: Id, ghost k: Shape<V>) returns (n2: Id)
      requires Good(true) && c in l.own && Rep(nodes, k) && k.id == c
      modifies this
      ensures Good(true) && Grown(old(nodes), old(l), nodes, l)
      ensures l.own == old(l).own - multiset{c} + multiset{n2}
      ensures n2 == |old(nodes)| && |nodes| == n2 + 1 && nodes[n2].rc <= 0
      ensures Rep(nodes, Shape(n2, k.items, k.kids))
    {
      hide NodeGraph.Good, Match, Keeps, Grown;
      n2 := CopyNode(c, k);
      ghost var n1, l1 := nodes, l;
      Interfere(true);
      GrownTwice(old(nodes), old(l), n1, l1, nodes, l);
      ghost var n3, l3 := nodes, l;
      ReleaseNode(true, c);
      GrownTwice(old(nodes), old(l), n3, l3, nodes, l);
      LoosenedTwice(n1, l1, n3, l3, nodes, l);
      LoosenedGrown(n1, l1, nodes, l);
      GrownRep(n1, l1, nodes, l, Shape(n2, k.items, k.kids));
    }

    /** cowRoot, cowChild: a shared node is replaced by a private copy before anything is written to
        it. The count is read once; Releases may run between that and the copy. */
    method CowRef(copied: bool, c: Id, ghost k: Shape<V>) returns (c2: Id)
      requires Good(copied) && c in l.own && Rep(nodes, k) && k.id == c
      modifies this
      ensures Good(copied) && Grown(old(nodes), old(l), nodes, l)
      ensures l.own == old(l).own - multiset{c} + multiset{c2}
      ensures c2 < |nodes| && nodes[c2].rc == 0 && Rep(nodes, Renamed(k, c2))
      ensures c2 == c || c2 >= |old(nodes)|
    {
      hide NodeGraph.Good, Match, Grown, Loosened, Rep;
      RcOwned(nodes, l, copied, c);
      var shared := nodes[c].rc > 0;
      ghost var was := nodes[c].rc;
      Interfere(copied);
      ghost var n1, l1 := nodes, l;
      LoosenedGrown(old(nodes), old(l), nodes, l);
      GrownRep(old(nodes), old(l), nodes, l, k);
      LoosenedRc(old(nodes), old(l), nodes, l, c);
      if copied && shared {
        c2 := Cow0(c, k);
        GrownTwice(old(nodes), old(l), n1, l1, nodes, l);
      } else {
        c2 := c;
      }
      assert c2 in l.own;
      RcOwned(nodes, l, copied, c2);
    }

    /** Go down from n to its child i, with its siblings set aside. */
    method OpenChild(copied: bool, n: Id, i: nat, ghost t: Shape<V>) returns (c: Id)
      requires Good(copied) && Held(nodes, l, n, t) && i < |t.kids|
      modifies this
      ensures Good(copied) && Loose(nodes, l, n) && Above(nodes, n, t, i, c, 0)
      ensures Held(nodes, l, c, Renamed(t.kids[i], c)) && c != n
      ensures l.frame == old(l).frame + Rest(t, i, i + 1)
      ensures Keeps(old(nodes), old(l), nodes, l, {n})
      ensures c in old(l).live || c >= |old(nodes)|
    {
      hide NodeGraph.Good, Match, Rep, Flat, Here, Above, Grown, Keeps;
      ghost var n0, l00 := nodes, l;
      RepParts(nodes, t);
      l := SetSiblingsAside(nodes, others, l, copied, n, t, i);
      ghost var l0 := l;
      c := CowRef(copied, nodes[n].children[i], t.kids[i]);
      ghost var n1, l1 := nodes, l;
      GrownLoose(n0, l0, n1, l1, n);
      Write(copied, n, nodes[n].(children := nodes[n].children[i := c]));
      l := Arrive(n1, nodes, others, l, copied, n, i, Renamed(t.kids[i], c), multiset{});
      AboveOf(n0, nodes, n, t, i, c);
      GrownWrite(n0, l0, n1, l1, nodes, l, n);
      KeepsFrom(n0, l0, l00, nodes, l, {n});
    }

    /** With node a already unpacked, the same for child j of n, which reads as k. */
    method OpenBeside(copied: bool, n: Id, j: nat, ghost k: Shape<V>, ghost a: Shape<V>) returns (b: Id)
      requires Good(copied) && Loose(nodes, l, n) && Loose(nodes, l, a.id) && a.id != n
      requires Rep(nodes, a) && Rep(nodes, k) && k.id in l.live
      requires j < |nodes[n].children| && nodes[n].children[j] == k.id
      requires l.own == multiset(nodes[a.id].children) + multiset{k.id}
      modifies this
      ensures Good(copied) && HeldThree(nodes, l, n, a, Renamed(k, b))
      ensures l.frame == old(l).frame && Keeps(old(nodes), old(l), nodes, l, {n})
      ensures n < |nodes| && nodes[n] == old(nodes)[n].(children := old(nodes)[n].children[j := b])
      ensures b in old(l).live || b >= |old(nodes)|
    {
      hide NodeGraph.Good, Match, Rep, Grown, Keeps, HeldThree, Loosened, Unshared, Store.Good;
      ghost var n0, l0 := nodes, l;
      b := CowRef(copied, nodes[n].children[j], k);
      GoodParts(copied);
      ghost var n2, l2 := OpenedBeside(n0, l0, nodes, others, l, copied, n, j, k, b, a);
      Write(copied, n, nodes[n].(children := nodes[n].children[j := b]));
      assert nodes == n2;
      l := l2;
      GoodParts(copied);
    }

    /** Go down from n to its children i and i + 1. */
    method OpenTwo(copied: bool, n: Id, i: nat, ghost t: Shape<V>) returns (a: Id, b: Id)
      requires Good(copied) && Held(nodes, l, n, t) && i + 1 < |t.kids| == |t.items| + 1
      modifies this
      ensures Good(copied)
      ensures Pair(nodes, l, n, t, i, old(l).frame, Renamed(t.kids[i], a), Renamed(t.kids[i+1], b))
      ensures Keeps(old(nodes), old(l), nodes, l, {n})
      ensures a in old(l).live || a >= |old(nodes)|
      ensures b in old(l).live || b >= |old(nodes)|
    {
      hide NodeGraph.Good, Match, Rep, Flat, Here, AboveTwo, Keeps, HeldThree;
      ghost var n0, l00 := nodes, l;
      RepParts(nodes, t);
      l := SetTwoAside(nodes, others, l, copied, n, t, i);
      ghost var l0 := l;
      ghost var second := t.kids[i+1];
      a := OpenFirst(copied, n, i, t.kids[i], second);
      ghost var n1, l1 := nodes, l;
      b := OpenBeside(copied, n, i + 1, second, Renamed(t.kids[i], a));
      AboveTwoOf(n0, nodes, n, t, i, a, b);
      KeepsTwice(n0, l0, n1, l1, nodes, l, n);
      KeepsFrom(n0, l0, l00, nodes, l, {n});
    }

    /** Go down to child i of n, reading as k, while child i + 1, reading as k2, waits its turn. */
    method OpenFirst(copied: bool, n: Id, i: nat, ghost k: Shape<V>, ghost k2: Shape<V>) returns (a: Id)
      requires Good(copied) && Loose(nodes, l, n) && Rep(nodes, k) && Rep(nodes, k2)
      requires i < |nodes[n].children| && nodes[n].children[i] == k.id
      requires l.own == multiset{k.id, k2.id} && k.id in l.live && k2.id in l.live
      modifies this
      ensures Good(copied) && Loose(nodes, l, n) && Loose(nodes, l, a)
      ensures Rep(nodes, Renamed(k, a)) && Rep(nodes, k2) && a != n && k2.id in l.live
      ensures l.own == multiset(nodes[a].children) + multiset{k2.id}
      ensures l.frame == old(l).frame && Keeps(old(nodes), old(l), nodes, l, {n})
      ensures nodes[n] == old(nodes)[n].(children := old(nodes)[n].children[i := a])
      ensures a in old(l).live || a >= |old(nodes)|
    {
      hide Store.Good, NodeGraph.Good, Match, Rep, Grown, Keeps;
      ghost var n0, l0 := nodes, l;
      a := CowRef(copied, nodes[n].children[i], k);
      GoodParts(copied);
      ghost var n1, l1 := nodes, l;
      GrownRep(n0, l0, n1, l1, k2);
      GrownLoose(n0, l0, n1, l1, n);
      assert l.own == multiset{k2.id} + multiset{a};
      Write(copied, n, nodes[n].(children := nodes[n].children[i := a]));
      OwnedRep(n1, nodes, l, copied, {n}, k2);
      l := Arrive(n1, nodes, others, l, copied, n, i, Renamed(k, a), multiset{k2.id});
      RcOwned(nodes, l, copied, k2.id);
      GoodParts(copied);
      GrownWrite(n0, l0, n1, l1, nodes, l, n);
    }

    /** node.count(): the number of items in the subtree. */
    method NodeCount(n: Id, ghost t: Shape<V>) returns (m: int)
      requires t.id == n && Rep(nodes, t) && Formed(t)
      ensures m == |Flat(t)|
    {
      hide Rep, Flat, Weave;
      RepParts(nodes, t);
      var nd := nodes[n];
      m := |nd.items|;
      if nd.Leaf() {
        FlatLeaf(t);
      } else {
        FlatBranch(t);
        BeforeIs(t.kids, t.items, 0);
        WeaveNone(t.items[..0]);
        assert t.kids[..0] == [];
        for j := 0 to |nd.counts|
          invariant j <= |nd.items| ==> m == |nd.items| + |Before(t.kids, t.items, j)| - j
          invariant j == |nd.items| + 1 ==> m == |Weave(t.kids, t.items)|
        {
          m := m + nd.counts[j];
          if j < |nd.items| {
            BeforeStep(t.kids, t.items, j);
          } else {
            Focus(t.kids, t.items, j);
            AfterEnd(t.kids, t.items);
          }
        }
      }
    }

    /** The end of rebalance: recalculate the counts of child i, and of child i + 1 if there is one. */
    method Recount(ghost copied: bool, n: Id, i: nat, ghost k: Shape<V>, ghost next: Option<Shape<V>>)
      requires Good(copied) && n < |nodes| && n !in l.live
      requires i < |nodes[n].children| == |nodes[n].counts|
      requires nodes[n].children[i] == k.id && Rep(nodes, k) && Formed(k)
      requires next.Some? <==> i + 1 < |nodes[n].children|
      requires next.Some? ==> nodes[n].children[i+1] == next.value.id && Rep(nodes, next.value) && Formed(next.value)
      modifies `nodes
      ensures Good(copied) && |nodes| == |old(nodes)|
      ensures nodes == old(nodes)[n := nodes[n].(counts := nodes[n].counts)]
      ensures nodes[n] == old(nodes)[n].(counts := nodes[n].counts)
      ensures nodes[n].counts == if next.None? then old(nodes)[n].counts[i := |Flat(k)|]
                                 else old(nodes)[n].counts[i := |Flat(k)|][i+1 := |Flat(next.value)|]
    {
      hide Rep, Flat;
      var c := NodeCount(nodes[n].children[i], k);
      var counts := nodes[n].counts[i := c];
      if i + 1 < |nodes[n].children| {
        c := NodeCount(nodes[n].children[i+1], next.value);
        counts := counts[i+1 := c];
      }
      Write(copied, n, nodes[n].(counts := counts));
    }

    /** rebalance, first case: left, separator and right become one node in left's place. */
    method MergePair(ghost copied: bool, n: Id, i: nat, a: Id, b: Id, ghost t: Shape<V>, ghost base: seq<Shape<V>>,
                     ghost ka: Shape<V>, ghost kb: Shape<V>)
      requires Good(copied) && Pair(nodes, l, n, t, i, base, ka, kb) && ka.id == a && kb.id == b
      requires Formed(ka) && Formed(kb) && (ka.kids == [] <==> kb.kids == [])
      requires i + 2 < |t.kids| ==> Formed(t.kids[i+2])
      modifies this
      ensures Good(copied) && Held(nodes, l, n, MergedAt(t, i, Merged(ka, t.items[i], kb))) && l.frame == base
      ensures Settled(old(nodes), old(l), nodes, l, n, a, b)
    {
      hide NodeGraph.Good, Match, Rep, Flat, Here;
      RepParts(nodes, ka);
      RepParts(nodes, kb);
      var n0, nd, ld, rd := nodes, nodes[n], nodes[a], nodes[b];
      Write(copied, a, Node(ld.items + [nd.items[i]] + rd.items, ld.children + rd.children,
                            ld.counts + rd.counts, ld.rc));
      Write(copied, n, Node(nd.items[..i] + nd.items[i+1..], nd.children[..i+1] + nd.children[i+2..],
                            nd.counts[..i+1] + nd.counts[i+2..], nd.rc));
      HereMerged(n0, nodes, ka, t.items[i], kb);
      FinishMerge(copied, n, i, n0, t, base, ka, kb);
    }

    method FinishMerge(ghost copied: bool, n: Id, i: nat, ghost n0: seq<Node<V>>, ghost t: Shape<V>,
                       ghost base: seq<Shape<V>>, ghost ka: Shape<V>, ghost kb: Shape<V>)
      requires NodeGraph.Good(n0, l, copied) && Match(others, l) && Pair(n0, l, n, t, i, base, ka, kb)
      requires Formed(ka) && Formed(kb) && (ka.kids == [] <==> kb.kids == [])
      requires i + 2 < |t.kids| ==> Formed(t.kids[i+2])
      requires Rewrote(n0, nodes, {n, ka.id}) && nodes[ka.id].rc == 0
      requires Here(nodes, Merged(ka, t.items[i], kb))
      requires nodes[ka.id].children == n0[ka.id].children + n0[kb.id].children
      requires var nd := n0[n];
               nodes[n] == Node(nd.items[..i] + nd.items[i+1..], nd.children[..i+1] + nd.children[i+2..],
                                nd.counts[..i+1] + nd.counts[i+2..], nd.rc)
      modifies this
      ensures Good(copied) && Held(nodes, l, n, MergedAt(t, i, Merged(ka, t.items[i], kb))) && l.frame == base
      ensures Settled(n0, old(l), nodes, l, n, ka.id, kb.id)
    {
      hide NodeGraph.Good, Match, Rep, Flat, Here, AboveTwo, HeldThree, Pair, Merged, Formed, Keeps;
      MergePointers(n0, nodes, l, n, t, i, base, ka, kb);
      ghost var m := Merged(ka, t.items[i], kb);
      MergeHeld(n0, nodes, l, copied, n, t, i, base, ka, kb);
      ghost var n1 := nodes;
      ghost var next := if i + 2 < |t.kids| then Some(t.kids[i+2]) else None;
      if i + 2 < |t.kids| {
        AsideRep(nodes, l, copied, base, t, i);
      }
      Recount(copied, n, i, m, next);
      HeldKept(n1, nodes, l, copied, {n}, m);
      AboveMerged(n0, nodes, n, t, i, m, kb.id);
      l := Leave(nodes, others, l, copied, n, t, i, i + 2, base, m, MergedAt(t, i, m));
    }

    /** rebalance, second case: left's last item goes up and the separator down into right. */
    method ShiftRight(ghost copied: bool, n: Id, i: nat, a: Id, b: Id, ghost t: Shape<V>, ghost base: seq<Shape<V>>,
                      ghost ka: Shape<V>, ghost kb: Shape<V>)
      requires Good(copied) && Pair(nodes, l, n, t, i, base, ka, kb) && ka.id == a && kb.id == b
      requires Formed(ka) && Formed(kb) && (ka.kids == [] <==> kb.kids == []) && ka.items != []
      modifies this
      ensures Good(copied) && l.frame == base && Settled(old(nodes), old(l), nodes, l, n, a, b)
      ensures var (ka', y, kb') := ShiftedRight(ka, t.items[i], kb);
              Held(nodes, l, n, ShiftedAt(t, i, ka', y, kb'))
    {
      hide Store.Good, NodeGraph.Good, Match, Rep, Flat, Here, Pair, Shifted, Settled, Held, ShiftedAt;
      GoodParts(copied);
      PairRecords(nodes, l, n, t, i, base, ka, kb);
      ghost var (ka', y, kb') := ShiftedRight(ka, t.items[i], kb);
      var n0, nd, ld, rd := nodes, nodes[n], nodes[a], nodes[b];
      var m := |ld.items| - 1;
      Write(copied, b, rd.(items := [nd.items[i]] + rd.items));
      Write(copied, n, nd.(items := nd.items[i := ld.items[m]]));
      Write(copied, a, ld.(items := ld.items[..m]));
      if !ld.Leaf() {
        Write(copied, b, nodes[b].(children := [ld.children[m+1]] + rd.children,
                                   counts := [ld.counts[m+1]] + rd.counts));
        Write(copied, a, nodes[a].(children := ld.children[..m+1], counts := ld.counts[..m+1]));
      }
      ShiftedRightWritten(n0, nodes, l, n, t, i, base, ka, kb);
      GoodParts(copied);
      FinishShift(copied, n, i, n0, t, base, ka, kb, ka', y, kb');
    }

    /** rebalance, third case: right's first item goes up and the separator down into left. */
    method ShiftLeft(ghost copied: bool, n: Id, i: nat, a: Id, b: Id, ghost t: Shape<V>, ghost base: seq<Shape<V>>,
                     ghost ka: Shape<V>, ghost kb: Shape<V>)
      requires Good(copied) && Pair(nodes, l, n, t, i, base, ka, kb) && ka.id == a && kb.id == b
      requires Formed(ka) && Formed(kb) && (ka.kids == [] <==> kb.kids == []) && kb.items != []
      modifies this
      ensures Good(copied) && l.frame == base && Settled(old(nodes), old(l), nodes, l, n, a, b)
      ensures var (ka', y, kb') := ShiftedLeft(ka, t.items[i], kb);
              Held(nodes, l, n, ShiftedAt(t, i, ka', y, kb'))
    {
      hide Store.Good, NodeGraph.Good, Match, Rep, Flat, Here, Pair, Shifted, Settled, Held, ShiftedAt;
      GoodParts(copied);
      PairRecords(nodes, l, n, t, i, base, ka, kb);
      ghost var (ka', y, kb') := ShiftedLeft(ka, t.items[i], kb);
      var n0, nd, ld, rd := nodes, nodes[n], nodes[a], nodes[b];
      Write(copied, a, ld.(items := ld.items + [nd.items[i]]));
      Write(copied, n, nd.(items := nd.items[i := rd.items[0]]));
      Write(copied, b, rd.(items := rd.items[1..]));
      if !ld.Leaf() {
        Write(copied, a, nodes[a].(children := ld.children + [rd.children[0]],
                                   counts := ld.counts + [rd.counts[0]]));
        Write(copied, b, nodes[b].(children := rd.children[1..], counts := rd.counts[1..]));
      }
      ShiftedLeftWritten(n0, nodes, l, n, t, i, base, ka, kb);
      GoodParts(copied);
      FinishShift(copied, n, i, n0, t, base, ka, kb, ka', y, kb');
    }

    /** After either: the counts of both children, and back up to n. */
    method FinishShift(ghost copied: bool, n: Id, i: nat, ghost n0: seq<Node<V>>, ghost t: Shape<V>,
                       ghost base: seq<Shape<V>>, ghost ka: Shape<V>, ghost kb: Shape<V>,
                       ghost ka': Shape<V>, ghost y: V, ghost kb': Shape<V>)
      requires NodeGraph.Good(n0, l, copied) && Match(others, l) && Pair(n0, l, n, t, i, base, ka, kb)
      requires Shifted(n0, nodes, n, i, ka, kb, ka', y, kb')
      modifies this
      ensures Good(copied) && l.frame == base && Settled(n0, old(l), nodes, l, n, ka.id, kb.id)
      ensures Held(nodes, l, n, ShiftedAt(t, i, ka', y, kb'))
    {
      hide NodeGraph.Good, Match, Rep, Flat, Here, Store.Good, Keeps, Settled, HeldThree;
      ghost var a, b, n1, l0 := ka.id, kb.id, nodes, l;
      ShiftHeld(n0, nodes, l, copied, n, t, i, base, ka, kb, ka', y, kb');
      HeldThreeReads(nodes, l, n, ka', kb');
      GoodParts(copied);
      Recount(copied, n, i, ka', Some(kb'));
      HeldThreeKept(n1, nodes, l, copied, n, ka', kb');
      AboveShifted(n0, nodes, n, t, i, ka', y, kb');
      GoodParts(copied);
      HeldThreeParts(nodes, l, n, ka', kb');
      l := LeaveTwo(nodes, others, l, copied, n, t, i, i + 2, base, ka', kb', ShiftedAt(t, i, ka', y, kb'));
      GoodParts(copied);
      SettledAfter(n0, l0, n1, nodes, l, n, a, b);
    }

    /** Restore the fill of child d of n, which has fallen one item below the minimum. */
    method Rebalance(copied: bool, n: Id, d: nat, ghost t: Shape<V>, ghost h: nat) returns (ghost t': Shape<V>)
      requires Good(copied) && Held(nodes, l, n, t) && Lopsided(t, h, d)
      modifies this
      ensures Good(copied) && Held(nodes, l, n, t') && Shaped(t', h) && Flat(t') == Flat(t)
      ensures |t.items| - 1 <= |t'.items| <= |t.items|
      ensures l.frame == old(l).frame && Keeps(old(nodes), old(l), nodes, l, {n})
    {
      hide NodeGraph.Good, Match, Rep, Flat, Shaped, Balanced, Keeps, Here, Pair, Settled;
      RepParts(nodes, t);
      HereSizes(nodes, t);
      var i := d;
      if i == |nodes[n].items| {
        i := i - 1;
      }
      ghost var n0, l0 := nodes, l;
      var a, b := OpenTwo(copied, n, i, t);
      ghost var n1, l1 := nodes, l;
      t' := RebalancePair(copied, n, i, a, b, t, h, d, l0.frame);
      SettledKeeps(n1, l1, nodes, l, n, a, b);
      Nested(n0, l0, n1, l1, nodes, l, n, {a, b});
    }

    method RebalancePair(ghost copied: bool, n: Id, i: nat, a: Id, b: Id, ghost t: Shape<V>, ghost h: nat, ghost d: nat,
                         ghost base: seq<Shape<V>>) returns (ghost t': Shape<V>)
      requires Lopsided(t, h, d) && i < |t.items| && i + 1 < |t.kids| && (d == i || d == i + 1)
      requires Good(copied) && Pair(nodes, l, n, t, i, base, Renamed(t.kids[i], a), Renamed(t.kids[i+1], b))
      modifies this
      ensures Good(copied) && Held(nodes, l, n, t') && Shaped(t', h) && Flat(t') == Flat(t)
      ensures |t.items| - 1 <= |t'.items| <= |t.items|
      ensures l.frame == base && Settled(old(nodes), old(l), nodes, l, n, a, b)
    {
      hide NodeGraph.Good, Match, Rep, Flat, Shaped, Balanced, Here, Pair, Settled, Lopsided, Held;
      ghost var ka, kb := Renamed(t.kids[i], a), Renamed(t.kids[i+1], b);
      LopsidedPair(t, h, d, i, a, b);
      PairSizes(nodes, l, n, t, i, base, ka, kb);
      if |nodes[a].items| + |nodes[b].items| < MAX_ITEMS {
        MergeKeeps(t, h, d, i, a, b);
        MergePair(copied, n, i, a, b, t, base, ka, kb);
        t' := MergedAt(t, i, Merged(ka, t.items[i], kb));
      } else if |nodes[a].items| > |nodes[b].items| {
        ShiftRightKeeps(t, h, d, i, a, b);
        ShiftRight(copied, n, i, a, b, t, base, ka, kb);
        ghost var (a', x, b') := ShiftedRight(ka, t.items[i], kb);
        t' := ShiftedAt(t, i, a', x, b');
      } else {
        ShiftLeftKeeps(t, h, d, i, a, b);
        ShiftLeft(copied, n, i, a, b, t, base, ka, kb);
        ghost var (a', x, b') := ShiftedLeft(ka, t.items[i], kb);
        t' := ShiftedAt(t, i, a', x, b');
      }
    }

    /** Back at n after child i, now node c reading as k, gave up an item: adjust its count, and
        rebalance if it fell below the minimum. */
    method AfterRemoval(copied: bool, n: Id, i: nat, c: Id, ghost t: Shape<V>, ghost h: nat,
                        ghost k: Shape<V>, ghost base: seq<Shape<V>>) returns (ghost t': Shape<V>)
      requires Good(copied) && Loose(nodes, l, n) && Above(nodes, n, t, i, c, 0) && Held(nodes, l, c, k) && c != n
      requires l.frame == base + Rest(t, i, i + 1)
      requires Shaped(t, h) && h > 0 && t.items != [] && Shaped(k, h - 1)
      requires |t.kids[i].items| - 1 <= |k.items| && |Flat(k)| == |Flat(t.kids[i])| - 1
      modifies this
      ensures Good(copied) && Held(nodes, l, n, t') && Shaped(t', h) && l.frame == base
      ensures Flat(t') == Flat(WithKid(t, i, k)) && |t.items| - 1 <= |t'.items| <= |t.items|
      ensures Keeps(old(nodes), old(l), nodes, l, {c} + {n})
    {
      hide NodeGraph.Good, Match, Rep, Flat, Shaped, Balanced, Keeps, Here;
      ghost var n0, l0 := nodes, l;
      ghost var u := WithKid(t, i, k);
      AboveSizes(nodes, n, t, i, c, 0);
      Write(copied, n, nodes[n].(counts := nodes[n].counts[i := nodes[n].counts[i] - 1]));
      ghost var n1 := nodes;
      HeldKept(n0, n1, l, copied, {n}, k);
      AboveCount(n0, n1, n, t, i, c, -1);
      AboveHere(n1, n, t, i, k, -1);
      l := Leave(nodes, others, l, copied, n, t, i, i + 1, base, k, u);
      ghost var l1 := l;
      LeaveKeeps(n0, l0, n1, l1, n, c);
      KidShrunk(t, h, i, k);
      HeldSizes(nodes, l, n, u, i);
      if |nodes[c].items| < MIN_ITEMS {
        t' := Rebalance(copied, n, i, u, h);
        KeepsThen(n0, l0, n1, l1, nodes, l, n, c);
      } else {
        t' := u;
      }
    }

    method NodePopFront(copied: bool, n: Id, ghost t: Shape<V>, ghost h: nat) returns (v: V, ghost t': Shape<V>)
      requires Good(copied) && Held(nodes, l, n, t) && Shaped(t, h) && t.items != []
      modifies this
      ensures Good(copied) && Held(nodes, l, n, t') && Shaped(t', h) && l.frame == old(l).frame
      ensures Removed(Flat(t), 0, v, Flat(t')) && |t.items| - 1 <= |t'.items| <= |t.items|
      ensures Keeps(old(nodes), old(l), nodes, l, {n})
      decreases h
    {
      hide NodeGraph.Good, Match, Rep, Flat, Shaped, Balanced, Keeps, Here, Above, Removed;
      HeldAt(nodes, l, n, t, h);
      if nodes[n].Leaf() {
        v := nodes[n].items[0];
        t' := LeafRemove(copied, n, 0, t, h);
      } else {
        ghost var base, n0, l0 := l.frame, nodes, l;
        var c := OpenChild(copied, n, 0, t);
        ghost var n1, l1, k := nodes, l, Renamed(t.kids[0], c);
        KidItems(t, h, 0);
        ShapedFormed(t.kids[0], h - 1, c);
        v, k := NodePopFront(copied, c, k, h - 1);
        ghost var n2, l2 := nodes, l;
        StillAbove(n1, l1, n2, l2, n, t, 0, c, 0);
        KidRemoved(t, h, 0, k, 0, v);
        t' := AfterRemoval(copied, n, 0, c, t, h, k, base);
        DownAndUp(n0, l0, n1, l1, n2, l2, nodes, l, n, c);
      }
    }

    /** Take out item p of the leaf n. */
    method LeafRemove(ghost copied: bool, n: Id, p: nat, ghost t: Shape<V>, ghost h: nat) returns (ghost t': Shape<V>)
      requires Good(copied) && Held(nodes, l, n, t) && Shaped(t, h) && t.kids == [] && p < |t.items|
      modifies this
      ensures Good(copied) && Held(nodes, l, n, t') && Shaped(t', h) && l.frame == old(l).frame
      ensures Removed(Flat(t), p, t.items[p], Flat(t')) && |t'.items| == |t.items| - 1
      ensures Keeps(old(nodes), old(l), nodes, l, {n})
    {
      hide NodeGraph.Good, Match, Rep;
      ghost var n0 := nodes;
      HeldAt(nodes, l, n, t, h);
      Write(copied, n, nodes[n].(items := nodes[n].items[..p] + nodes[n].items[p+1..]));
      t' := Shape(n, t.items[..p] + t.items[p+1..], []);
      LeafWrite(n0, nodes, l, n, t, t'.items);
    }

    /** Remove the last item below n. */
    method NodePopBack(copied: bool, n: Id, ghost t: Shape<V>, ghost h: nat) returns (v: V, ghost t': Shape<V>)
      requires Good(copied) && Held(nodes, l, n, t) && Shaped(t, h) && t.items != []
      modifies this
      ensures Good(copied) && Held(nodes, l, n, t') && Shaped(t', h) && l.frame == old(l).frame
      ensures |t.items| - 1 <= |t'.items| <= |t.items|
      ensures Flat(t) != [] && Removed(Flat(t), |Flat(t)| - 1, v, Flat(t'))
      ensures Keeps(old(nodes), old(l), nodes, l, {n})
      decreases h
    {
      hide NodeGraph.Good, Match, Rep, Flat, Shaped, Balanced, Keeps, Here, Above;
      HeldAt(nodes, l, n, t, h);
      if nodes[n].Leaf() {
        var i := |nodes[n].items| - 1;
        v := nodes[n].items[i];
        t' := LeafRemove(copied, n, i, t, h);
        FlatLeaf(t);
      } else {
        var i := |nodes[n].items|;
        ghost var base, n0, l0 := l.frame, nodes, l;
        var c := OpenChild(copied, n, i, t);
        ghost var n1, l1, k := nodes, l, Renamed(t.kids[i], c);
        KidItems(t, h, i);
        ShapedFormed(t.kids[i], h - 1, c);
        v, k := NodePopBack(copied, c, k, h - 1);
        ghost var n2, l2 := nodes, l;
        StillAbove(n1, l1, n2, l2, n, t, i, c, 0);
        KidRemoved(t, h, i, k, |Flat(t.kids[i])| - 1, v);
        t' := AfterRemoval(copied, n, i, c, t, h, k, base);
        DownAndUp(n0, l0, n1, l1, n2, l2, nodes, l, n, c);
      }
    }

    /** The largest item below n, removed to take the place of a deleted separator. */
    method NodeDeleteMax(copied: bool, n: Id, ghost t: Shape<V>, ghost h: nat) returns (v: V, ghost t': Shape<V>)
      requires Good(copied) && Held(nodes, l, n, t) && Shaped(t, h) && t.items != []
      modifies this
      ensures Good(copied) && Held(nodes, l, n, t') && Shaped(t', h) && l.frame == old(l).frame
      ensures |t.items| - 1 <= |t'.items| <= |t.items|
      ensures Flat(t) != [] && Removed(Flat(t), |Flat(t)| - 1, v, Flat(t'))
      ensures Keeps(old(nodes), old(l), nodes, l, {n})
      decreases h
    {
      hide NodeGraph.Good, Match, Rep, Flat, Shaped, Balanced, Keeps, Here, Above;
      HeldAt(nodes, l, n, t, h);
      var i := |nodes[n].items| - 1;
      if nodes[n].Leaf() {
        v := nodes[n].items[i];
        t' := LeafRemove(copied, n, i, t, h);
        FlatLeaf(t);
      } else {
        i := i + 1;
        ghost var base, n0, l0 := l.frame, nodes, l;
        var c := OpenChild(copied, n, i, t);
        ghost var n1, l1, k := nodes, l, Renamed(t.kids[i], c);
        KidItems(t, h, i);
        ShapedFormed(t.kids[i], h - 1, c);
        v, k := NodeDeleteMax(copied, c, k, h - 1);
        ghost var n2, l2 := nodes, l;
        StillAbove(n1, l1, n2, l2, n, t, i, c, 0);
        KidRemoved(t, h, i, k, |Flat(t.kids[i])| - 1, v);
        t' := AfterRemoval(copied, n, i, c, t, h, k, base);
        DownAndUp(n0, l0, n1, l1, n2, l2, nodes, l, n, c);
      }
    }

    /** The child that position `index` of the contents below n falls in, and the position there; with
        rest == counts[i] and i < n.len it is separator i itself. */
    method FindSlot(n: Id, index: nat, ghost t: Shape<V>, ghost h: nat) returns (i: nat, rest: nat)
      requires Held(nodes, l, n, t) && Shaped(t, h) && h > 0 && index <= |Flat(t)|
      ensures i <= |t.items| && i < |t.kids|
      ensures index == |Before(t.kids, t.items, i)| + rest && rest <= |Flat(t.kids[i])|
    {
      hide Rep, Flat, Shaped, Balanced, Before, After;
      HeldAt(nodes, l, n, t, h);
      BeforeNone(t.kids, t.items);
      i, rest := 0, index;
      while i < |nodes[n].items|
        invariant i <= |t.items| && index == |Before(t.kids, t.items, i)| + rest
      {
        HeldSizes(nodes, l, n, t, i);
        var count := nodes[n].counts[i];
        if rest <= count {
          return;
        }
        BeforeStep(t.kids, t.items, i);
        rest := rest - (count + 1);
        i := i + 1;
      }
      Focus(t.kids, t.items, i);
      FlatBranch(t);
      AfterEnd(t.kids, t.items);
    }

    method NodeDeleteAt(copied: bool, n: Id, index: nat, ghost t: Shape<V>, ghost h: nat)
      returns (v: V, ghost t': Shape<V>)
      requires Good(copied) && Held(nodes, l, n, t) && Shaped(t, h) && t.items != [] && index < |Flat(t)|
      modifies this
      ensures Good(copied) && Held(nodes, l, n, t') && Shaped(t', h) && l.frame == old(l).frame
      ensures Removed(Flat(t), index, v, Flat(t')) && |t.items| - 1 <= |t'.items| <= |t.items|
      ensures Keeps(old(nodes), old(l), nodes, l, {n})
      decreases h
    {
      hide NodeGraph.Good, Match, Rep, Flat, Shaped, Balanced, Keeps, Here, Above, Removed, Before;
      HeldAt(nodes, l, n, t, h);
      if nodes[n].Leaf() {
        FlatLeaf(t);
        v := nodes[n].items[index];
        t' := LeafRemove(copied, n, index, t, h);
      } else {
        ghost var base, n0, l0 := l.frame, nodes, l;
        var i, rest := FindSlot(n, index, t, h);
        HeldSizes(nodes, l, n, t, i);
        var found := i < |nodes[n].items| && rest == nodes[n].counts[i];
        var c := OpenChild(copied, n, i, t);
        ghost var n1, l1, k := nodes, l, Renamed(t.kids[i], c);
        AboveSizes(nodes, n, t, i, c, 0);
        KidItems(t, h, i);
        ShapedFormed(t.kids[i], h - 1, c);
        if found {
          v, t' := DeleteSeparator(copied, n, i, c, t, h, base);
          Nested(n0, l0, n1, l1, nodes, l, n, {c});
        } else {
          NotSeparator(t, h, i, index, rest);
          v, k := NodeDeleteAt(copied, c, rest, k, h - 1);
          ghost var n2, l2 := nodes, l;
          StillAbove(n1, l1, n2, l2, n, t, i, c, 0);
          KidRemoved(t, h, i, k, rest, v);
          t' := AfterRemoval(copied, n, i, c, t, h, k, base);
          DownAndUp(n0, l0, n1, l1, n2, l2, nodes, l, n, c);
        }
      }
    }

    /** The deleted item is separator i of n: the largest item below child i, node c, replaces it. */
    method DeleteSeparator(copied: bool, n: Id, i: nat, c: Id, ghost t: Shape<V>, ghost h: nat,
                           ghost base: seq<Shape<V>>)
        returns (v: V, ghost t': Shape<V>)
      requires Good(copied) && Loose(nodes, l, n) && Above(nodes, n, t, i, c, 0) && c != n
      requires Shaped(t, h) && h > 0 && i < |t.items| && i < |t.kids|
      requires Held(nodes, l, c, Renamed(t.kids[i], c)) && l.frame == base + Rest(t, i, i + 1)
      modifies this
      ensures Good(copied) && Held(nodes, l, n, t') && Shaped(t', h) && l.frame == base
      ensures Removed(Flat(t), |Before(t.kids, t.items, i)| + |Flat(t.kids[i])|, v, Flat(t'))
      ensures |t.items| - 1 <= |t'.items| <= |t.items|
      ensures Keeps(old(nodes), old(l), nodes, l, {c} + {n})
      decreases h, 0
    {
      hide NodeGraph.Good, Match, Rep, Flat, Shaped, Balanced, Keeps, Here, Above, Removed, Before;
      ghost var n1, l1 := nodes, l;
      KidItems(t, h, i);
      ShapedFormed(t.kids[i], h - 1, c);
      AboveSizes(nodes, n, t, i, c, 0);
      v := nodes[n].items[i];
      var m: V;
      ghost var k: Shape<V>;
      m, k := NodeDeleteMax(copied, c, Renamed(t.kids[i], c), h - 1);
      ghost var n2, l2 := nodes, l;
      StillAbove(n1, l1, n2, l2, n, t, i, c, 0);
      Write(copied, n, nodes[n].(items := nodes[n].items[i := m]));
      ghost var n3 := nodes;
      HeldKept(n2, nodes, l, copied, {n}, k);
      SeparatorAbove(n2, nodes, l, n, t, i, c, m);
      SeparatorRemoved(t, h, i, k, m);
      t' := AfterRemoval(copied, n, i, c, WithItem(t, i, m), h, k, base);
      WriteThen(n2, l2, n3, nodes, l, n, c);
      BelowThen(n1, l1, n2, l2, nodes, l, n, c);
    }

    /** Move the upper half of node c to a new node and take out the item between the halves. */
    method SplitNode(ghost copied: bool, c: Id) returns (right: Id, x: V)
      requires Good(copied) && c < |nodes| && c !in l.live && |nodes[c].items| == MAX_ITEMS
      requires nodes[c].Leaf() || |nodes[c].children| == |nodes[c].counts| == MAX_ITEMS + 1
      requires nodes[c].Leaf() ==> nodes[c].counts == []
      modifies `nodes
      ensures Good(copied) && Halved(old(nodes), nodes, c) && right == |old(nodes)|
      ensures x == old(nodes)[c].items[MIN_ITEMS]
    {
      hide NodeGraph.Good, Match;
      var m := MAX_ITEMS - MIN_ITEMS - 1;
      var cd := nodes[c];
      GoodBelow(nodes, l, copied);
      Rewrite(nodes, nodes + [Node(cd.items[m+1..], [], [], 0)], l, copied, {});
      x := cd.items[m];
      right := |nodes|;
      nodes := nodes + [Node(cd.items[m+1..], [], [], 0)];
      Write(copied, c, cd.(items := cd.items[..m]));
      if !cd.Leaf() {
        Write(copied, right, nodes[right].(children := cd.children[m+1..], counts := cd.counts[m+1..]));
        Write(copied, c, nodes[c].(children := cd.children[..m+1], counts := cd.counts[..m+1]));
      }
    }

    /** Split the full child i of n, node c. */
    method SplitBranch(ghost copied: bool, n: Id, i: nat, c: Id, ghost t: Shape<V>, ghost base: seq<Shape<V>>)
        returns (right: Id)
      requires i < |t.kids| && i <= |t.items| && |t.kids[i].items| == MAX_ITEMS && Formed(t.kids[i])
      requires Good(copied) && Loose(nodes, l, n) && Above(nodes, n, t, i, c, 0) && c != n
      requires Held(nodes, l, c, Renamed(t.kids[i], c)) && l.frame == base + Rest(t, i, i + 1)
      modifies this
      ensures Good(copied) && Held(nodes, l, n, SplitTree(t, i, c, right)) && l.frame == base
      ensures c < |nodes| && nodes[c].rc == 0 && right < |nodes| && nodes[right].rc == 0
      ensures Keeps(old(nodes), old(l), nodes, l, {c} + {n})
    {
      hide NodeGraph.Good, Match, Rep, Flat, Here, Above, Halved, Keeps;
      ghost var n0, l0, k := nodes, l, Renamed(t.kids[i], c);
      RenamedFormed(t.kids[i], c);
      RepParts(nodes, k);
      HereSizes(nodes, k);
      AboveSizes(nodes, n, t, i, c, 0);
      var x: V;
      right, x := SplitNode(copied, c);
      ghost var a, b := LeftHalf(k), RightHalf(k, right);
      HalvesFlat(k, right);
      HalvesHeld(n0, nodes, l, copied, n, k);
      HalvedRest(n0, nodes, c);
      var nd := nodes[n];
      ghost var n1 := nodes;
      Write(copied, n, Node(nd.items[..i] + [x] + nd.items[i..], nd.children[..i+1] + [right] + nd.children[i+1..],
                            nd.counts[..i+1] + [0] + nd.counts[i+1..], nd.rc));
      FinishSplit(copied, n, i, n0, n1, t, base, a, x, b);
      SplitSettled(n0, l0, nodes, l, n, c, right);
    }

    /** The counts of both halves, and back up to n. */
    method FinishSplit(ghost copied: bool, n: Id, i: nat, ghost n0: seq<Node<V>>, ghost n1: seq<Node<V>>,
                       ghost t: Shape<V>, ghost base: seq<Shape<V>>, ghost a: Shape<V>, ghost x: V, ghost b: Shape<V>)
      requires NodeGraph.Good(n1, l, copied) && Match(others, l) && HeldThree(n1, l, n, a, b) && Formed(a) && Formed(b)
      requires n < |n0| && n0[n] == n1[n] && Above(n0, n, t, i, a.id, 0) && i <= |t.items|
      requires l.frame == base + Rest(t, i, i + 1)
      requires var nd := n1[n];
               nodes == n1[n := Node(nd.items[..i] + [x] + nd.items[i..],
                                     nd.children[..i+1] + [b.id] + nd.children[i+1..],
                                     nd.counts[..i+1] + [0] + nd.counts[i+1..], nd.rc)]
      modifies this
      ensures Good(copied) && Held(nodes, l, n, SplitAt(t, i, a, x, b)) && l.frame == base
      ensures Rewrote(n1, nodes, {n}) && |nodes| == |n1|
      ensures l.live == old(l).live + {a.id, b.id} && l.shots == old(l).shots && l.leaving == old(l).leaving
      ensures nodes[a.id].rc == 0 && nodes[b.id].rc == 0
    {
      hide NodeGraph.Good, Match, Rep, Flat, Here, Above;
      ghost var n2 := nodes;
      AboveSizes(n0, n, t, i, a.id, 0);
      Rewrite(n1, nodes, l, copied, {n});
      HeldKept(n1, nodes, l, copied, {n}, a);
      HeldKept(n1, nodes, l, copied, {n}, b);
      Recount(copied, n, i, a, Some(b));
      HeldKept(n2, nodes, l, copied, {n}, a);
      HeldKept(n2, nodes, l, copied, {n}, b);
      AboveSplit(n0, nodes, n, t, i, a, x, b);
      l := LeaveTwo(nodes, others, l, copied, n, t, i, i + 1, base, a, b, SplitAt(t, i, a, x, b));
    }

    method LeafInsert(ghost copied: bool, n: Id, p: nat, v: V, ghost t: Shape<V>, ghost h: nat)
      returns (ghost t': Shape<V>)
      requires Good(copied) && Held(nodes, l, n, t) && Shaped(t, h) && t.kids == []
      requires p <= |t.items| < MAX_ITEMS
      modifies this
      ensures Good(copied) && Held(nodes, l, n, t') && Shaped(t', h) && l.frame == old(l).frame
      ensures Inserted(Flat(t), p, v, Flat(t')) && |t'.items| == |t.items| + 1
      ensures Keeps(old(nodes), old(l), nodes, l, {n})
    {
      hide NodeGraph.Good, Match, Rep;
      ghost var n0 := nodes;
      HeldAt(nodes, l, n, t, h);
      Write(copied, n, nodes[n].(items := nodes[n].items[..p] + [v] + nodes[n].items[p..]));
      t' := Shape(n, t.items[..p] + [v] + t.items[p..], []);
      LeafWrite(n0, nodes, l, n, t, t'.items);
    }

    /** One more item is about to go below child i, node c. */
    method CountUp(ghost copied: bool, n: Id, i: nat, c: Id, ghost t: Shape<V>)
      requires Good(copied) && Loose(nodes, l, n) && Above(nodes, n, t, i, c, 0) && c != n
      requires i < |t.kids| && Held(nodes, l, c, Renamed(t.kids[i], c))
      modifies `nodes
      ensures Good(copied) && Loose(nodes, l, n) && Above(nodes, n, t, i, c, 1)
      ensures Held(nodes, l, c, Renamed(t.kids[i], c)) && Rewrote(old(nodes), nodes, {n})
    {
      hide NodeGraph.Good, Match, Rep, Flat, Above;
      AboveSizes(nodes, n, t, i, c, 0);
      ghost var n0 := nodes;
      Write(copied, n, nodes[n].(counts := nodes[n].counts[i := nodes[n].counts[i] + 1]));
      HeldKept(n0, nodes, l, copied, {n}, Renamed(t.kids[i], c));
      AboveCount(n0, nodes, n, t, i, c, 1);
    }

    /** ensureBranch, on the way down along the left or right edge: when child i, node c, is full it is
        split, and the half at that edge is the one to go on with. */
    method MakeRoom(ghost copied: bool, n: Id, i: nat, c: Id, atBack: bool, ghost t: Shape<V>, ghost h: nat,
                    ghost n0: seq<Node<V>>, ghost l0: Ledger<V>, ghost base: seq<Shape<V>>)
        returns (ghost u: Shape<V>, e: Id)
      requires Shaped(t, h) && h > 0 && |t.kids| == |t.items| + 1 && |t.items| < MAX_ITEMS
      requires i == if atBack then |t.items| else 0
      requires Good(copied) && Loose(nodes, l, n) && Above(nodes, n, t, i, c, 0) && c != n
      requires Held(nodes, l, c, Renamed(t.kids[i], c)) && l.frame == base + Rest(t, i, i + 1)
      requires Keeps(n0, l0, nodes, l, {n}) && (c in l0.live || c >= |n0|)
      modifies this
      ensures Shaped(u, h) && |u.kids| == |u.items| + 1 && Flat(u) == Flat(t) && |t.items| <= |u.items|
      ensures var j := if atBack then |u.items| else 0;
              && Good(copied) && Loose(nodes, l, n) && Above(nodes, n, u, j, e, 0) && e != n
              && Held(nodes, l, e, Renamed(u.kids[j], e)) && l.frame == base + Rest(u, j, j + 1)
              && |u.kids[j].items| < MAX_ITEMS
      ensures Keeps(n0, l0, nodes, l, {n}) && (e in l0.live || e >= |n0|)
    {
      hide Store.Good, NodeGraph.Good, Match, Rep, Flat, Shaped, Balanced, Keeps, Here, Above, FallsIn, FullAt;
      KidItems(t, h, i);
      ShapedFormed(t.kids[i], h - 1, c);
      HeldAt(nodes, l, c, Renamed(t.kids[i], c), h - 1);
      u, e := t, c;
      if |nodes[c].items| == MAX_ITEMS {
        ghost var n1, l1 := nodes, l;
        var right := SplitBranch(copied, n, i, c, t, base);
        u := SplitTree(t, i, c, right);
        SplitKeeps(t, h, i, c, right);
        Nested(n0, l0, n1, l1, nodes, l, n, {c});
        ghost var n2, l2 := nodes, l;
        e := if atBack then right else c;
        ghost var j := if atBack then |u.items| else 0;
        GoodParts(copied);
        l := EnterChild(nodes, others, l, copied, n, u, j);
        GoodParts(copied);
        KeepsTwice(n0, l0, n2, l2, nodes, l, n);
      }
    }

    /** PushFront below n, which has room. */
    method NodePushFront(copied: bool, n: Id, v: V, ghost t: Shape<V>, ghost h: nat) returns (ghost t': Shape<V>)
      requires Good(copied) && Held(nodes, l, n, t) && Shaped(t, h) && |t.items| < MAX_ITEMS
      modifies this
      ensures Good(copied) && Held(nodes, l, n, t') && Shaped(t', h) && l.frame == old(l).frame
      ensures Inserted(Flat(t), 0, v, Flat(t')) && |t.items| <= |t'.items|
      ensures Keeps(old(nodes), old(l), nodes, l, {n})
      decreases h, 1
    {
      hide NodeGraph.Good, Match, Rep, Flat, Shaped, Balanced, Keeps, Here, Above, Inserted, FallsIn, FullAt;
      HeldAt(nodes, l, n, t, h);
      if nodes[n].Leaf() {
        FlatLeaf(t);
        t' := LeafInsert(copied, n, 0, v, t, h);
      } else {
        ghost var base, n0, l0 := l.frame, nodes, l;
        var c := OpenChild(copied, n, 0, t);
        ghost var u := t;
        KidItems(t, h, 0);
        u, c := MakeRoom(copied, n, 0, c, false, t, h, n0, l0, base);
        ghost var n1, l1 := nodes, l;
        t' := NodePushFrontBelow(copied, n, c, v, u, h, base);
        Nested(n0, l0, n1, l1, nodes, l, n, {c});
      }
    }

    /** ... with child 0, node c, having room. */
    method NodePushFrontBelow(copied: bool, n: Id, c: Id, v: V, ghost t: Shape<V>, ghost h: nat,
                              ghost base: seq<Shape<V>>)
        returns (ghost t': Shape<V>)
      requires Shaped(t, h) && h > 0 && |t.kids| == |t.items| + 1 && |t.kids[0].items| < MAX_ITEMS
      requires Good(copied) && Loose(nodes, l, n) && Above(nodes, n, t, 0, c, 0) && c != n
      requires Held(nodes, l, c, Renamed(t.kids[0], c)) && l.frame == base + Rest(t, 0, 0 + 1)
      modifies this
      ensures Good(copied) && Held(nodes, l, n, t') && Shaped(t', h) && l.frame == base
      ensures Inserted(Flat(t), 0, v, Flat(t')) && |t'.items| == |t.items|
      ensures Keeps(old(nodes), old(l), nodes, l, {c} + {n})
      decreases h, 0
    {
      hide NodeGraph.Good, Match, Rep, Flat, Shaped, Balanced, Keeps, Here, Above, Inserted;
      ghost var n0, l0 := nodes, l;
      KidItems(t, h, 0);
      ShapedFormed(t.kids[0], h - 1, c);
      AboveSizes(nodes, n, t, 0, c, 0);
      CountUp(copied, n, 0, c, t);
      ghost var n1, l1 := nodes, l;
      ghost var k := NodePushFront(copied, c, v, Renamed(t.kids[0], c), h - 1);
      KidInserted(t, h, 0, k, 0, v);
      l := AfterInsertion(n1, l1, nodes, others, l, copied, n, t, 0, c, k, base);
      t' := WithKid(t, 0, k);
      WriteThen(n0, l0, n1, nodes, l, n, c);
    }

    /** PushBack below n, which has room. */
    method NodePushBack(copied: bool, n: Id, v: V, ghost t: Shape<V>, ghost h: nat) returns (ghost t': Shape<V>)
      requires Good(copied) && Held(nodes, l, n, t) && Shaped(t, h) && |t.items| < MAX_ITEMS
      modifies this
      ensures Good(copied) && Held(nodes, l, n, t') && Shaped(t', h) && l.frame == old(l).frame
      ensures Inserted(Flat(t), |Flat(t)|, v, Flat(t')) && |t.items| <= |t'.items|
      ensures Keeps(old(nodes), old(l), nodes, l, {n})
      decreases h, 1
    {
      hide NodeGraph.Good, Match, Rep, Flat, Shaped, Balanced, Keeps, Here, Above, Inserted, FallsIn, FullAt;
      HeldAt(nodes, l, n, t, h);
      if nodes[n].Leaf() {
        FlatLeaf(t);
        t' := LeafInsert(copied, n, |nodes[n].items|, v, t, h);
      } else {
        ghost var base, n0, l0 := l.frame, nodes, l;
        var c := OpenChild(copied, n, |nodes[n].items|, t);
        ghost var u := t;
        KidItems(t, h, |t.items|);
        AboveSizes(nodes, n, t, |t.items|, c, 0);
        u, c := MakeRoom(copied, n, |nodes[n].items|, c, true, t, h, n0, l0, base);
        ghost var n1, l1 := nodes, l;
        t' := NodePushBackBelow(copied, n, c, v, u, h, base);
        Nested(n0, l0, n1, l1, nodes, l, n, {c});
      }
    }

    /** ... with child n.len, node c, having room. */
    method NodePushBackBelow(copied: bool, n: Id, c: Id, v: V, ghost t: Shape<V>, ghost h: nat,
                             ghost base: seq<Shape<V>>)
        returns (ghost t': Shape<V>)
      requires Shaped(t, h) && h > 0 && |t.kids| == |t.items| + 1 && |t.kids[|t.items|].items| < MAX_ITEMS
      requires Good(copied) && Loose(nodes, l, n) && Above(nodes, n, t, |t.items|, c, 0) && c != n
      requires Held(nodes, l, c, Renamed(t.kids[|t.items|], c)) && l.frame == base + Rest(t, |t.items|, |t.items| + 1)
      modifies this
      ensures Good(copied) && Held(nodes, l, n, t') && Shaped(t', h) && l.frame == base
      ensures Inserted(Flat(t), |Flat(t)|, v, Flat(t')) && |t'.items| == |t.items|
      ensures Keeps(old(nodes), old(l), nodes, l, {c} + {n})
      decreases h, 0
    {
      hide NodeGraph.Good, Match, Rep, Flat, Shaped, Balanced, Keeps, Here, Above, Inserted;
      ghost var n0, l0 := nodes, l;
      KidItems(t, h, |t.items|);
      ShapedFormed(t.kids[|t.items|], h - 1, c);
      AboveSizes(nodes, n, t, |t.items|, c, 0);
      CountUp(copied, n, |nodes[n].items|, c, t);
      ghost var n1, l1 := nodes, l;
      ghost var k := NodePushBack(copied, c, v, Renamed(t.kids[|t.items|], c), h - 1);
      KidInserted(t, h, |t.items|, k, |Flat(t.kids[|t.items|])|, v);
      l := AfterInsertion(n1, l1, nodes, others, l, copied, n, t, |t.items|, c, k, base);
      t' := WithKid(t, |t.items|, k);
      WriteThen(n0, l0, n1, nodes, l, n, c);
    }

    /** InsertAt below n. When the child the position falls in is full it is split and the search at n
        starts over. */
    method NodeInsertAt(copied: bool, n: Id, index: nat, v: V, ghost t: Shape<V>, ghost h: nat)
      returns (ghost t': Shape<V>)
      requires Good(copied) && Held(nodes, l, n, t) && Shaped(t, h) && index <= |Flat(t)|
      requires |t.items| < MAX_ITEMS || (h > 0 && !FullAt(t, index))
      modifies this
      ensures Good(copied) && Held(nodes, l, n, t') && Shaped(t', h) && l.frame == old(l).frame
      ensures Inserted(Flat(t), index, v, Flat(t')) && |t.items| <= |t'.items|
      ensures Keeps(old(nodes), old(l), nodes, l, {n})
      decreases h, if FullAt(t, index) then 1 else 0, 1
    {
      hide NodeGraph.Good, Match, Rep, Flat, Shaped, Balanced, Keeps, Here, Above, Inserted, Before;
      HeldAt(nodes, l, n, t, h);
      if nodes[n].Leaf() {
        FlatLeaf(t);
        t' := LeafInsert(copied, n, index, v, t, h);
      } else {
        ghost var base, n0, l0 := l.frame, nodes, l;
        var i, rest := FindSlot(n, index, t, h);
        assert FallsIn(t, i, index);
        hide FallsIn;
        var c := OpenChild(copied, n, i, t);
        ghost var n1, l1 := nodes, l;
        KidItems(t, h, i);
        ShapedFormed(t.kids[i], h - 1, c);
        HeldAt(nodes, l, c, Renamed(t.kids[i], c), h - 1);
        if |nodes[c].items| == MAX_ITEMS {
          assert FullAt(t, index);
          hide FullAt;
          var right := SplitBranch(copied, n, i, c, t, base);
          ghost var u := SplitTree(t, i, c, right);
          SplitKeeps(t, h, i, c, right);
          Nested(n0, l0, n1, l1, nodes, l, n, {c});
          ghost var n2, l2 := nodes, l;
          t' := NodeInsertAt(copied, n, index, v, u, h);
          KeepsTwice(n0, l0, n2, l2, nodes, l, n);
        } else {
          t' := NodeInsertBelow(copied, n, i, c, index, rest, v, t, h, base);
          Nested(n0, l0, n1, l1, nodes, l, n, {c});
        }
      }
    }

    /** ... with child i, node c, having room. */
    method NodeInsertBelow(copied: bool, n: Id, i: nat, c: Id, ghost index: nat, rest: nat, v: V, ghost t: Shape<V>,
                           ghost h: nat, ghost base: seq<Shape<V>>) returns (ghost t': Shape<V>)
      requires Shaped(t, h) && h > 0 && i < |t.kids| && i <= |t.items| && |t.kids[i].items| < MAX_ITEMS
      requires index == |Before(t.kids, t.items, i)| + rest && rest <= |Flat(t.kids[i])|
      requires Good(copied) && Loose(nodes, l, n) && Above(nodes, n, t, i, c, 0) && c != n
      requires Held(nodes, l, c, Renamed(t.kids[i], c)) && l.frame == base + Rest(t, i, i + 1)
      modifies this
      ensures Good(copied) && Held(nodes, l, n, t') && Shaped(t', h) && l.frame == base
      ensures Inserted(Flat(t), index, v, Flat(t')) && |t'.items| == |t.items|
      ensures Keeps(old(nodes), old(l), nodes, l, {c} + {n})
      decreases h, 0, 0
    {
      hide NodeGraph.Good, Match, Rep, Flat, Shaped, Balanced, Keeps, Here, Above, Inserted, Before, FullAt, FallsIn;
      ghost var n0, l0 := nodes, l;
      KidItems(t, h, i);
      ShapedFormed(t.kids[i], h - 1, c);
      CountUp(copied, n, i, c, t);
      ghost var n1, l1 := nodes, l;
      ghost var k := NodeInsertAt(copied, c, rest, v, Renamed(t.kids[i], c), h - 1);
      KidInserted(t, h, i, k, rest, v);
      l := AfterInsertion(n1, l1, nodes, others, l, copied, n, t, i, c, k, base);
      t' := WithKid(t, i, k);
      WriteThen(n0, l0, n1, nodes, l, n, c);
    }

    // ---- the root

    /** splitRoot: a new root over the two halves of the full root r. */
    method SplitRoot(ghost copied: bool, r: Id, ghost k: Shape<V>) returns (root2: Id, ghost t: Shape<V>)
      requires Good(copied) && Held(nodes, l, r, k) && Formed(k) && |k.items| == MAX_ITEMS
      modifies this
      ensures Good(copied) && l.frame == old(l).frame && Held(nodes, l, root2, t)
      ensures exists right :: t == Grow(k, root2, right)
      ensures root2 >= |old(nodes)| && Keeps(old(nodes), old(l), nodes, l, {r})
    {
      hide NodeGraph.Good, Match, Rep, Flat, Here, Halved;
      ghost var n00, l0 := nodes, l;
      RepParts(nodes, k);
      HereSizes(nodes, k);
      GoodBelow(nodes, l, copied);
      root2 := |nodes|;
      nodes := nodes + [Node([], [], [], 0)];
      Rewrite(n00, nodes, l, copied, {});
      HeldKept(n00, nodes, l, copied, {}, k);
      ghost var n0 := nodes;
      var right, x := SplitNode(copied, r);
      ghost var a, b := LeftHalf(k), RightHalf(k, right);
      HalvesFlat(k, right);
      HalvesHeld(n0, nodes, l, copied, root2, k);
      HalvedRest(n0, nodes, r);
      ghost var n1 := nodes;
      Write(copied, root2, Node([x], [r, right], [0, 0], 0));
      t := Shape(root2, [x], [a, b]);
      FinishGrow(copied, root2, n1, a, b, t, k);
      assert t == Grow(k, root2, right);
    }

    /** The counts of both halves in the new root. */
    method FinishGrow(ghost copied: bool, root2: Id, ghost n1: seq<Node<V>>, ghost a: Shape<V>, ghost b: Shape<V>,
                      ghost t: Shape<V>, ghost k: Shape<V>)
      requires NodeGraph.Good(n1, l, copied) && Match(others, l) && HeldThree(n1, l, root2, a, b) && Formed(a)
      requires Formed(b)
      requires |t.items| == 1 && t.kids == [a, b] && t.id == root2
      requires nodes == n1[root2 := Node(t.items, [a.id, b.id], [0, 0], 0)]
      modifies this
      ensures Good(copied) && Held(nodes, l, root2, t) && l.frame == old(l).frame
      ensures Rewrote(n1, nodes, {root2}) && |nodes| == |n1|
      ensures l.live == old(l).live + {a.id, b.id} && l.shots == old(l).shots && l.leaving == old(l).leaving
    {
      hide NodeGraph.Good, Match, Rep, Flat, Here, HeldThree;
      ghost var n2 := nodes;
      HeldThreeReads(n1, l, root2, a, b);
      HeldThreeKept(n1, nodes, l, copied, root2, a, b);
      HeldThreeReads(nodes, l, root2, a, b);
      Recount(copied, root2, 0, a, Some(b));
      HeldThreeKept(n2, nodes, l, copied, root2, a, b);
      GrowHere(nodes, t);
      l := LeaveGrown(nodes, others, l, copied, a, b, t);
    }
  }
}
