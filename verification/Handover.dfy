/** How the writer moves between a node and its children: which references it sets aside on the way
    down, and what it finds again on the way up. */
module Handover {
  import opened Basics
  import opened Shapes
  import opened NodeGraph

  /** The writer holds node n, unpacked: it is out of the graph, nobody else refers to it, it reads as
      t, and the writer holds the references to its children and no other. */
  ghost predicate Held<V>(nodes: seq<Node<V>>, l: Ledger<V>, n: Id, t: Shape<V>)
  {
    && Loose(nodes, l, n)
    && t.id == n && Rep(nodes, t)
    && l.own == multiset(nodes[n].children)
  }

  /** Node n is out of the graph and unshared. */
  ghost predicate Loose<V>(nodes: seq<Node<V>>, l: Ledger<V>, n: Id)
  {
    n < |nodes| && n !in l.live && nodes[n].rc == 0
  }

  /** The children of t other than those at i .. j - 1. */
  ghost function Rest<V>(t: Shape<V>, i: nat, j: nat): seq<Shape<V>>
    requires i <= j <= |t.kids|
  {
    t.kids[..i] + t.kids[j..]
  }

  /** Before going down to child i the writer sets its siblings aside. */
  lemma SetSiblingsAside<V>(nodes: seq<Node<V>>, o: Others, l: Ledger<V>, copied: bool, n: Id, t: Shape<V>, i: nat)
      returns (l': Ledger<V>)
    requires Good(nodes, l, copied) && Match(o, l) && Held(nodes, l, n, t) && i < |t.kids|
    ensures l' == l.(own := multiset{t.kids[i].id}, frame := l.frame + Rest(t, i, i + 1))
    ensures Good(nodes, l', copied) && Match(o, l') && Rep(nodes, t.kids[i])
    ensures i < |nodes[n].children| && nodes[n].children[i] == t.kids[i].id && t.kids[i].id in l.live
  {
    hide Counted, Rep, Heads, Pins, Edges, Flat;
    RepParts(nodes, t);
    HeadsApart(t.kids, nodes[n].children, i);
    var rest := Rest(t, i, i + 1);
    assert AllRep(nodes, rest);
    l' := SetAside(nodes, l, copied, rest, multiset{t.kids[i].id});
    RcOwned(nodes, l', copied, t.kids[i].id);
  }

  lemma SetTwoAside<V>(nodes: seq<Node<V>>, o: Others, l: Ledger<V>, copied: bool, n: Id, t: Shape<V>, i: nat)
      returns (l': Ledger<V>)
    requires Good(nodes, l, copied) && Match(o, l) && Held(nodes, l, n, t) && i + 1 < |t.kids|
    ensures l' == l.(own := multiset{t.kids[i].id, t.kids[i+1].id}, frame := l.frame + Rest(t, i, i + 2))
    ensures Good(nodes, l', copied) && Match(o, l') && Rep(nodes, t.kids[i]) && Rep(nodes, t.kids[i+1])
    ensures |nodes[n].children| == |t.kids| && t.kids[i].id in l.live && t.kids[i+1].id in l.live
    ensures nodes[n].children[i] == t.kids[i].id && nodes[n].children[i+1] == t.kids[i+1].id
  {
    hide Counted, Rep, Heads, Pins, Edges, Flat;
    RepParts(nodes, t);
    HeadsApartTwo(t.kids, nodes[n].children, i);
    var rest := Rest(t, i, i + 2);
    assert AllRep(nodes, rest);
    l' := SetAside(nodes, l, copied, rest, multiset{t.kids[i].id, t.kids[i+1].id});
    RcOwned(nodes, l', copied, t.kids[i].id);
    RcOwned(nodes, l', copied, t.kids[i+1].id);
  }

  /** Trees side by side all hold when the middle ones and the rest do. */
  lemma AllRepAround<V>(nodes: seq<Node<V>>, a: seq<Shape<V>>, mid: seq<Shape<V>>, b: seq<Shape<V>>)
    requires AllRep(nodes, a + b) && AllRep(nodes, mid)
    ensures AllRep(nodes, a + mid + b)
  {
    hide Rep;
    var all := a + mid + b;
    forall x | 0 <= x < |all| ensures Rep(nodes, all[x]) {
      if x < |a| {
        assert all[x] == (a + b)[x];
      } else if x >= |a| + |mid| {
        assert all[x] == (a + b)[x - |mid|];
      }
    }
  }

  lemma PackTwo<V>(nodes: seq<Node<V>>, g: Ledger<V>, copied: bool, l: Id, r: Id) returns (g': Ledger<V>)
    requires Good(nodes, g, copied) && l != r && Loose(nodes, g, l) && Loose(nodes, g, r)
    requires g.own == multiset(nodes[l].children) + multiset(nodes[r].children)
    ensures g' == g.(live := g.live + {l, r}, own := multiset{l, r}) && Good(nodes, g', copied)
  {
    hide Good;
    var a, b := multiset(nodes[l].children), multiset(nodes[r].children);
    Traded(g.live, a, b, l, r);
    var g1 := Pack(nodes, g, copied, l);
    g' := Pack(nodes, g1, copied, r);
  }

  lemma Traded(live: set<Id>, a: multiset<Id>, b: multiset<Id>, l: Id, r: Id)
    ensures live + {l} + {r} == live + {l, r}
    ensures a <= a + b && a + b - a + multiset{l} == b + multiset{l}
    ensures b <= b + multiset{l} && b + multiset{l} - b + multiset{r} == multiset{l, r}
  {
  }

  /** Back at n, with the one child c in place of children i .. j - 1 of t and everything else as it
      was: c returns to the graph and the siblings are taken up again. */
  lemma Leave<V>(nodes: seq<Node<V>>, o: Others, l: Ledger<V>, copied: bool, n: Id, t: Shape<V>, i: nat, j: nat,
                 base: seq<Shape<V>>, k: Shape<V>, t': Shape<V>) returns (l': Ledger<V>)
    requires Good(nodes, l, copied) && Match(o, l) && Held(nodes, l, k.id, k) && Loose(nodes, l, n) && n != k.id
    requires i < j <= |t.kids| && l.frame == base + Rest(t, i, j)
    requires t'.id == n && t'.kids == t.kids[..i] + [k] + t.kids[j..] && Here(nodes, t')
    ensures Good(nodes, l', copied) && Match(o, l') && Held(nodes, l', n, t')
    ensures l'.frame == base && l'.live == l.live + {k.id} && l'.shots == l.shots && l'.leaving == l.leaving
  {
    hide Good, Rep, Heads, Pins, Edges, Flat;
    var rest := Rest(t, i, j);
    var l1 := Pack(nodes, l, copied, k.id);
    assert l1.own == multiset{k.id};
    l' := TakeUp(nodes, l1, copied, base, rest);
    AllRepAround(nodes, t.kids[..i], [k], t.kids[j..]);
    RepParts(nodes, t');
    assert t'.kids[..i] + t'.kids[i+1..] == rest;
    HeadsApart(t'.kids, nodes[n].children, i);
  }

  /** Back at n with two children l, r in place of children i .. j - 1. */
  lemma LeaveTwo<V>(nodes: seq<Node<V>>, o: Others, g: Ledger<V>, copied: bool, n: Id, t: Shape<V>, i: nat, j: nat,
                    base: seq<Shape<V>>, l: Shape<V>, r: Shape<V>, t': Shape<V>) returns (g': Ledger<V>)
    requires Good(nodes, g, copied) && Match(o, g) && Loose(nodes, g, n) && n != l.id && n != r.id && l.id != r.id
    requires Loose(nodes, g, l.id) && Loose(nodes, g, r.id) && Rep(nodes, l) && Rep(nodes, r)
    requires g.own == multiset(nodes[l.id].children) + multiset(nodes[r.id].children)
    requires i < j <= |t.kids| && g.frame == base + Rest(t, i, j)
    requires t'.id == n && t'.kids == t.kids[..i] + [l, r] + t.kids[j..] && Here(nodes, t')
    ensures Good(nodes, g', copied) && Match(o, g') && Held(nodes, g', n, t')
    ensures g'.frame == base && g'.live == g.live + {l.id, r.id} && g'.shots == g.shots && g'.leaving == g.leaving
  {
    hide Good, Rep, Heads, Pins, Edges, Flat;
    var rest := Rest(t, i, j);
    var g1 := PackTwo(nodes, g, copied, l.id, r.id);
    g' := TakeUp(nodes, g1, copied, base, rest);
    AllRepAround(nodes, t.kids[..i], [l, r], t.kids[j..]);
    RepParts(nodes, t');
    assert t'.kids[..i] + t'.kids[i+2..] == rest;
    HeadsApartTwo(t'.kids, nodes[n].children, i);
  }

  /** The records in `mine`, all outside the graph, were rewritten and nothing else. */
  ghost predicate Rewrote<V>(nodes: seq<Node<V>>, nodes': seq<Node<V>>, mine: set<Id>)
  {
    |nodes| <= |nodes'| && forall id :: 0 <= id < |nodes| && id !in mine ==> nodes'[id] == nodes[id]
  }

  lemma Rewrite<V>(nodes: seq<Node<V>>, nodes': seq<Node<V>>, l: Ledger<V>, copied: bool, mine: set<Id>)
    requires Good(nodes, l, copied) && Rewrote(nodes, nodes', mine) && mine !! l.live
    ensures Good(nodes', l, copied)
  {
    hide Rep, Heads, Pins, Edges;
    WriteOutside(nodes, nodes', l, copied);
  }

  /** What an operation on n did, from what it did on the way down to the nodes in c, and after. */
  lemma Nested<V>(n0: seq<Node<V>>, l0: Ledger<V>, n1: seq<Node<V>>, l1: Ledger<V>, n2: seq<Node<V>>, l2: Ledger<V>,
                  n: Id, c: set<Id>)
    requires Keeps(n0, l0, n1, l1, {n}) && Keeps(n1, l1, n2, l2, c + {n})
    requires forall x :: x in c ==> x in l0.live || x >= |n0|
    ensures Keeps(n0, l0, n2, l2, {n})
  {
  }

  lemma SettledKeeps<V>(n0: seq<Node<V>>, g0: Ledger<V>, nodes: seq<Node<V>>, g: Ledger<V>, n: Id, a: Id, b: Id)
    requires Settled(n0, g0, nodes, g, n, a, b)
    ensures Keeps(n0, g0, nodes, g, {a, b} + {n})
  {
  }

  /** A tree whose root the writer refers to is not touched by writes outside the graph. */
  lemma OwnedRep<V>(nodes: seq<Node<V>>, nodes': seq<Node<V>>, l: Ledger<V>, copied: bool, mine: set<Id>, t: Shape<V>)
    requires Good(nodes, l, copied) && Rewrote(nodes, nodes', mine) && mine !! l.live
    requires t.id in l.own && Rep(nodes, t)
    ensures Rep(nodes', t)
  {
    hide Rep, Heads, Pins, Edges;
    assert t.id in Refs(nodes, l.live, l.Ext());
    RepLive(nodes, nodes', l.live, l.Ext(), t);
  }

  /** ... and so are the trees below a node whose children the writer holds. */
  lemma OwnedKids<V>(nodes: seq<Node<V>>, nodes': seq<Node<V>>, l: Ledger<V>, copied: bool, mine: set<Id>, t: Shape<V>)
    requires Good(nodes, l, copied) && Rewrote(nodes, nodes', mine) && mine !! l.live
    requires Rep(nodes, t) && multiset(nodes[t.id].children) <= l.own
    ensures AllRep(nodes', t.kids)
  {
    hide Rep, Counted, Flat;
    RepParts(nodes, t);
    forall k | 0 <= k < |t.kids| ensures Rep(nodes', t.kids[k]) {
      assert nodes[t.id].children[k] in multiset(nodes[t.id].children);
      OwnedRep(nodes, nodes', l, copied, mine, t.kids[k]);
    }
  }

  /** A held node stays held while others outside the graph are rewritten. */
  lemma HeldKept<V>(nodes: seq<Node<V>>, nodes': seq<Node<V>>, l: Ledger<V>, copied: bool, mine: set<Id>, t: Shape<V>)
    requires Good(nodes, l, copied) && Rewrote(nodes, nodes', mine) && mine !! l.live
    requires Loose(nodes, l, t.id) && Rep(nodes, t) && t.id !in mine && multiset(nodes[t.id].children) <= l.own
    ensures Loose(nodes', l, t.id) && Rep(nodes', t)
  {
    hide Rep, Flat, Counted;
    OwnedKids(nodes, nodes', l, copied, mine, t);
    RepParts(nodes, t);
    RepParts(nodes', t);
    HereSame(nodes, nodes', t, t);
  }

  /** A referenced node has a reference count to match. */
  lemma RcOwned<V>(nodes: seq<Node<V>>, l: Ledger<V>, copied: bool, c: Id)
    requires Good(nodes, l, copied) && c in l.own
    ensures c < |nodes| && c in l.live && nodes[c].rc >= 0 && (!copied ==> nodes[c].rc == 0)
  {
    hide Rep, Heads, Pins, Edges;
    assert c in Refs(nodes, l.live, l.Ext());
  }

  /** Going down to child c of n, unshared by now: n's pointer is set and c is unpacked. */
  lemma Enter<V>(nodes: seq<Node<V>>, o: Others, l: Ledger<V>, copied: bool, k: Shape<V>, rest: multiset<Id>)
      returns (l': Ledger<V>)
    requires Good(nodes, l, copied) && Match(o, l) && Rep(nodes, k) && nodes[k.id].rc == 0
    requires l.own == rest + multiset{k.id}
    ensures Good(nodes, l', copied) && Match(o, l') && Loose(nodes, l', k.id) && k.id in l.live
    ensures l' == l.(live := l.live - {k.id}, own := rest + multiset(nodes[k.id].children))
  {
    hide Good, Flat;
    l' := Unpack(nodes, l, copied, k.id);
    assert l.own - multiset{k.id} + multiset(nodes[k.id].children) == rest + multiset(nodes[k.id].children);
  }

  /** While the writer is at child i of n: n still describes t, except that child i is now node c and
      its count is off by d. */
  ghost predicate Above<V>(nodes: seq<Node<V>>, n: Id, t: Shape<V>, i: nat, c: Id, d: int)
  {
    && n < |nodes| && t.id == n && i < |t.kids|
    && nodes[n].items == t.items && |nodes[n].children| == |nodes[n].counts| == |t.kids|
    && nodes[n].children[i] == c && nodes[n].counts[i] == |Flat(t.kids[i])| + d
    && forall j :: 0 <= j < |t.kids| && j != i ==>
         nodes[n].children[j] == t.kids[j].id && nodes[n].counts[j] == |Flat(t.kids[j])|
  }

  lemma AboveOf<V>(nodes: seq<Node<V>>, nodes': seq<Node<V>>, n: Id, t: Shape<V>, i: nat, c: Id)
    requires Here(nodes, t) && t.id == n && i < |t.kids| && n < |nodes'|
    requires nodes'[n] == nodes[n].(children := nodes[n].children[i := c])
    ensures Above(nodes', n, t, i, c, 0)
  {
    hide Flat;
  }

  lemma AboveCount<V>(nodes: seq<Node<V>>, nodes': seq<Node<V>>, n: Id, t: Shape<V>, i: nat, c: Id, d: int)
    requires Above(nodes, n, t, i, c, 0) && n < |nodes'|
    requires nodes'[n] == nodes[n].(counts := nodes[n].counts[i := nodes[n].counts[i] + d])
    ensures Above(nodes', n, t, i, c, d)
  {
    hide Flat;
  }

  lemma AboveHere<V>(nodes: seq<Node<V>>, n: Id, t: Shape<V>, i: nat, k: Shape<V>, d: int)
    requires Above(nodes, n, t, i, k.id, d) && |Flat(k)| == |Flat(t.kids[i])| + d
    ensures Here(nodes, WithKid(t, i, k))
  {
    hide Flat;
  }

  /** With child i of n unshared as node k.id, n's pointer is set and the child unpacked. */
  lemma Arrive<V>(n1: seq<Node<V>>, nodes: seq<Node<V>>, o: Others, l: Ledger<V>, copied: bool, n: Id, i: nat,
                  k: Shape<V>, rest: multiset<Id>) returns (l': Ledger<V>)
    requires Good(n1, l, copied) && Match(o, l) && Loose(n1, l, n) && i < |n1[n].children|
    requires l.own == rest + multiset{k.id} && Rep(n1, k) && n1[k.id].rc == 0
    requires nodes == n1[n := n1[n].(children := n1[n].children[i := k.id])]
    ensures Good(nodes, l', copied) && Match(o, l') && Loose(nodes, l', n) && Loose(nodes, l', k.id)
    ensures Rep(nodes, k) && k.id in l.live && k.id != n && nodes[k.id] == n1[k.id]
    ensures l' == l.(live := l.live - {k.id}, own := rest + multiset(nodes[k.id].children))
  {
    hide Good, Rep, Flat;
    Rewrite(n1, nodes, l, copied, {n});
    OwnedRep(n1, nodes, l, copied, {n}, k);
    RcOwned(nodes, l, copied, k.id);
    l' := Enter(nodes, o, l, copied, k, rest);
  }

  /** n still describes t, except that children i and i + 1 are now nodes a and b. */
  ghost predicate AboveTwo<V>(nodes: seq<Node<V>>, n: Id, t: Shape<V>, i: nat, a: Id, b: Id)
  {
    && n < |nodes| && t.id == n && i + 1 < |t.kids| && |t.kids| == |t.items| + 1
    && nodes[n].items == t.items && |nodes[n].children| == |nodes[n].counts| == |t.kids|
    && nodes[n].children[i] == a && nodes[n].children[i+1] == b
    && forall j :: 0 <= j < |t.kids| && j != i && j != i + 1 ==>
         nodes[n].children[j] == t.kids[j].id && nodes[n].counts[j] == |Flat(t.kids[j])|
  }

  /** The writer holds n and two of its children a, b, all unpacked. */
  ghost predicate HeldThree<V>(nodes: seq<Node<V>>, g: Ledger<V>, n: Id, a: Shape<V>, b: Shape<V>)
  {
    && Loose(nodes, g, n) && Loose(nodes, g, a.id) && Loose(nodes, g, b.id)
    && n != a.id && n != b.id && a.id != b.id
    && Rep(nodes, a) && Rep(nodes, b)
    && g.own == multiset(nodes[a.id].children) + multiset(nodes[b.id].children)
  }

  lemma HeldThreeReads<V>(nodes: seq<Node<V>>, g: Ledger<V>, n: Id, a: Shape<V>, b: Shape<V>)
    requires HeldThree(nodes, g, n, a, b)
    ensures n < |nodes| && n !in g.live && Rep(nodes, a) && Rep(nodes, b)
  {
  }

  lemma HeldThreeParts<V>(nodes: seq<Node<V>>, g: Ledger<V>, n: Id, a: Shape<V>, b: Shape<V>)
    requires HeldThree(nodes, g, n, a, b)
    ensures Loose(nodes, g, n) && Loose(nodes, g, a.id) && Loose(nodes, g, b.id)
    ensures n != a.id && n != b.id && a.id != b.id && Rep(nodes, a) && Rep(nodes, b)
    ensures g.own == multiset(nodes[a.id].children) + multiset(nodes[b.id].children)
  {
  }

  /** Only n's own record was written. */
  lemma HeldThreeKept<V>(n0: seq<Node<V>>, nodes: seq<Node<V>>, g: Ledger<V>, copied: bool, n: Id, a: Shape<V>,
                         b: Shape<V>)
    requires Good(n0, g, copied) && HeldThree(n0, g, n, a, b) && Rewrote(n0, nodes, {n}) && |nodes| == |n0|
    requires nodes[n].rc == 0
    ensures Good(nodes, g, copied) && HeldThree(nodes, g, n, a, b)
  {
    hide Good, Rep;
    Rewrite(n0, nodes, g, copied, {n});
    HeldKept(n0, nodes, g, copied, {n}, a);
    HeldKept(n0, nodes, g, copied, {n}, b);
  }

  /** The writer at the adjacent children i and i + 1 of n, now nodes a and b. */
  ghost predicate Pair<V>(nodes: seq<Node<V>>, g: Ledger<V>, n: Id, t: Shape<V>, i: nat, base: seq<Shape<V>>,
                          a: Shape<V>, b: Shape<V>)
  {
    && HeldThree(nodes, g, n, a, b) && AboveTwo(nodes, n, t, i, a.id, b.id)
    && g.frame == base + Rest(t, i, i + 2)
  }

  lemma AboveTwoOf<V>(nodes: seq<Node<V>>, nodes': seq<Node<V>>, n: Id, t: Shape<V>, i: nat, a: Id, b: Id)
    requires Here(nodes, t) && t.id == n && i + 1 < |t.kids| && |t.kids| == |t.items| + 1 && n < |nodes'|
    requires nodes'[n] == nodes[n].(children := nodes[n].children[i := a][i+1 := b])
    ensures AboveTwo(nodes', n, t, i, a, b)
  {
    hide Flat;
  }

  /** Two steps at n in a row. */
  lemma KeepsTwice<V>(n0: seq<Node<V>>, l0: Ledger<V>, n1: seq<Node<V>>, l1: Ledger<V>, n2: seq<Node<V>>,
                      l2: Ledger<V>, n: Id)
    requires Keeps(n0, l0, n1, l1, {n}) && Keeps(n1, l1, n2, l2, {n}) && n !in l1.live
    ensures Keeps(n0, l0, n2, l2, {n})
    ensures forall x :: x in l1.live || x >= |n1| ==> x in l0.live || x >= |n0|
  {
  }

  /** Which references the writer holds has no bearing on what a step kept. */
  lemma KeepsFrom<V>(n0: seq<Node<V>>, l0: Ledger<V>, l0': Ledger<V>, n1: seq<Node<V>>, l1: Ledger<V>, mine: set<Id>)
    requires Keeps(n0, l0, n1, l1, mine)
    requires l0'.live == l0.live && l0'.shots == l0.shots && l0'.leaving == l0.leaving
    ensures Keeps(n0, l0', n1, l1, mine)
  {
  }

  /** Arriving at a second child while the first, a, is held. */
  lemma ArriveBeside<V>(n1: seq<Node<V>>, nodes: seq<Node<V>>, o: Others, l: Ledger<V>, copied: bool, n: Id, j: nat,
                        k: Shape<V>, a: Shape<V>) returns (l': Ledger<V>)
    requires Good(n1, l, copied) && Match(o, l) && Loose(n1, l, n) && j < |n1[n].children|
    requires Loose(n1, l, a.id) && Rep(n1, a) && a.id != n
    requires l.own == multiset(n1[a.id].children) + multiset{k.id} && Rep(n1, k) && n1[k.id].rc == 0
    requires nodes == n1[n := n1[n].(children := n1[n].children[j := k.id])]
    ensures Good(nodes, l', copied) && Match(o, l')
    ensures HeldThree(nodes, l', n, a, k) && k.id in l.live
    ensures l'.live <= l.live && l'.shots == l.shots && l'.leaving == l.leaving && l'.frame == l.frame
  {
    hide Good, Rep, Flat, Match;
    HeldKept(n1, nodes, l, copied, {n}, a);
    l' := Arrive(n1, nodes, o, l, copied, n, j, k, multiset(n1[a.id].children));
  }

  /** Copy-on-write elsewhere leaves a node that is out of the graph alone. */
  lemma GrownLoose<V>(n0: seq<Node<V>>, l0: Ledger<V>, n1: seq<Node<V>>, l1: Ledger<V>, n: Id)
    requires Grown(n0, l0, n1, l1) && Loose(n0, l0, n)
    ensures Loose(n1, l1, n) && n1[n] == n0[n]
  {
  }

  /** Copy-on-write followed by setting n's pointer and unpacking the child. */
  lemma GrownWrite<V>(n0: seq<Node<V>>, l0: Ledger<V>, n1: seq<Node<V>>, l1: Ledger<V>, nodes: seq<Node<V>>,
                      l: Ledger<V>, n: Id)
    requires Grown(n0, l0, n1, l1) && Rewrote(n1, nodes, {n})
    requires l.live <= l1.live && l.shots == l1.shots && l.leaving == l1.leaving && l.frame == l1.frame
    ensures Keeps(n0, l0, nodes, l, {n}) && l.frame == l0.frame
    ensures forall x :: x in l1.live ==> x in l0.live || x >= |n0|
  {
  }

  lemma HereMerged<V>(nodes: seq<Node<V>>, nodes': seq<Node<V>>, a: Shape<V>, x: V, b: Shape<V>)
    requires Here(nodes, a) && Here(nodes, b) && a.id < |nodes'|
    requires nodes'[a.id].items == nodes[a.id].items + [x] + nodes[b.id].items
    requires nodes'[a.id].children == nodes[a.id].children + nodes[b.id].children
    requires nodes'[a.id].counts == nodes[a.id].counts + nodes[b.id].counts
    ensures Here(nodes', Merged(a, x, b))
  {
    hide Flat;
  }

  /** n, but for the count of the merged child. */
  lemma AboveMerged<V>(nodes: seq<Node<V>>, nodes': seq<Node<V>>, n: Id, t: Shape<V>, i: nat, m: Shape<V>, b: Id)
    requires AboveTwo(nodes, n, t, i, m.id, b) && n < |nodes'|
    requires nodes'[n].items == nodes[n].items[..i] + nodes[n].items[i+1..]
    requires nodes'[n].children == nodes[n].children[..i+1] + nodes[n].children[i+2..]
    requires |nodes'[n].counts| == |nodes[n].counts| - 1 && nodes'[n].counts[i] == |Flat(m)|
    requires forall j :: 0 <= j < |nodes[n].counts| - 1 && j != i ==>
               nodes'[n].counts[j] == (nodes[n].counts[..i+1] + nodes[n].counts[i+2..])[j]
    ensures Here(nodes', MergedAt(t, i, m))
  {
    hide Flat;
  }

  lemma HereShiftedRight<V>(nodes: seq<Node<V>>, nodes': seq<Node<V>>, a: Shape<V>, x: V, b: Shape<V>)
    requires Here(nodes, a) && Here(nodes, b) && a.id < |nodes'| && b.id < |nodes'| && Formed(a) && a.items != []
    requires a.kids == [] <==> b.kids == []
    requires var l, r, m := nodes[a.id], nodes[b.id], |a.items| - 1;
             && nodes'[a.id].items == l.items[..m] && nodes'[b.id].items == [x] + r.items
             && if l.children == [] then
                  nodes'[a.id].children == nodes'[b.id].children == []
                  && nodes'[a.id].counts == nodes'[b.id].counts == []
                else
                  && nodes'[a.id].children == l.children[..m+1]
                  && nodes'[b.id].children == [l.children[m+1]] + r.children
                  && nodes'[a.id].counts == l.counts[..m+1] && nodes'[b.id].counts == [l.counts[m+1]] + r.counts
    ensures var (a', y, b') := ShiftedRight(a, x, b);
            Here(nodes', a') && Here(nodes', b') && y == nodes[a.id].items[|a.items|-1]
  {
    hide Flat;
  }

  lemma HereShiftedLeft<V>(nodes: seq<Node<V>>, nodes': seq<Node<V>>, a: Shape<V>, x: V, b: Shape<V>)
    requires Here(nodes, a) && Here(nodes, b) && a.id < |nodes'| && b.id < |nodes'| && Formed(b) && b.items != []
    requires a.kids == [] <==> b.kids == []
    requires var l, r := nodes[a.id], nodes[b.id];
             && nodes'[a.id].items == l.items + [x] && nodes'[b.id].items == r.items[1..]
             && if l.children == [] then
                  nodes'[a.id].children == nodes'[b.id].children == []
                  && nodes'[a.id].counts == nodes'[b.id].counts == []
                else
                  && nodes'[a.id].children == l.children + [r.children[0]] && nodes'[b.id].children == r.children[1..]
                  && nodes'[a.id].counts == l.counts + [r.counts[0]] && nodes'[b.id].counts == r.counts[1..]
    ensures var (a', y, b') := ShiftedLeft(a, x, b);
            Here(nodes', a') && Here(nodes', b') && y == nodes[b.id].items[0]
  {
    hide Flat;
  }

  /** One item and one subtree moved between the children a and b of n through separator i: a' and b' by now. */
  ghost predicate Shifted<V>(n0: seq<Node<V>>, nodes: seq<Node<V>>, n: Id, i: nat, a: Shape<V>, b: Shape<V>,
                             a': Shape<V>, y: V, b': Shape<V>)
  {
    && n < |n0| && a.id < |n0| && b.id < |n0| && i < |n0[n].items|
    && a'.id == a.id && b'.id == b.id && Rewrote(n0, nodes, {n, a.id, b.id})
    && nodes[n] == n0[n].(items := n0[n].items[i := y])
    && nodes[a.id].rc == 0 && nodes[b.id].rc == 0
    && Here(nodes, a') && Here(nodes, b') && Formed(a') && Formed(b') && a'.kids + b'.kids == a.kids + b.kids
    && nodes[a.id].children + nodes[b.id].children == n0[a.id].children + n0[b.id].children
  }

  /** What the writer may write to at the pair, and how long the records are. */
  lemma PairRecords<V>(nodes: seq<Node<V>>, g: Ledger<V>, n: Id, t: Shape<V>, i: nat, base: seq<Shape<V>>, a: Shape<V>,
                       b: Shape<V>)
    requires Pair(nodes, g, n, t, i, base, a, b)
    ensures n < |nodes| && a.id < |nodes| && b.id < |nodes| && n != a.id && n != b.id && a.id != b.id
    ensures n !in g.live && a.id !in g.live && b.id !in g.live
    ensures i < |nodes[n].items| && nodes[n].items == t.items
    ensures nodes[a.id].items == a.items && |nodes[a.id].children| == |nodes[a.id].counts| == |a.kids|
    ensures nodes[b.id].items == b.items && |nodes[b.id].children| == |nodes[b.id].counts| == |b.kids|
  {
    hide Flat;
    RepParts(nodes, a);
    RepParts(nodes, b);
  }

  lemma ShiftedRightWritten<V>(n0: seq<Node<V>>, nodes: seq<Node<V>>, g: Ledger<V>, n: Id, t: Shape<V>, i: nat,
                               base: seq<Shape<V>>, a: Shape<V>, b: Shape<V>)
    requires Pair(n0, g, n, t, i, base, a, b) && Rewrote(n0, nodes, {n, a.id, b.id})
    requires Formed(a) && Formed(b) && (a.kids == [] <==> b.kids == []) && a.items != []
    requires n < |n0| && a.id < |n0| && b.id < |n0| && i < |n0[n].items|
    requires |n0[a.id].items| == |a.items| && |n0[a.id].children| == |n0[a.id].counts| == |a.kids|
    requires var nd, ld, rd, m := n0[n], n0[a.id], n0[b.id], |a.items| - 1;
      && nodes[n] == nd.(items := nd.items[i := ld.items[m]])
      && nodes[a.id] == (if ld.Leaf() then ld.(items := ld.items[..m])
                         else Node(ld.items[..m], ld.children[..m+1], ld.counts[..m+1], ld.rc))
      && nodes[b.id] == (if ld.Leaf() then rd.(items := [nd.items[i]] + rd.items)
                         else Node([nd.items[i]] + rd.items, [ld.children[m+1]] + rd.children,
                                   [ld.counts[m+1]] + rd.counts, rd.rc))
    ensures i < |t.items|
    ensures var (a', y, b') := ShiftedRight(a, t.items[i], b); Shifted(n0, nodes, n, i, a, b, a', y, b')
  {
    hide Flat, Rep, Here;
    PairRecords(n0, g, n, t, i, base, a, b);
    RepParts(n0, a);
    RepParts(n0, b);
    HereShiftedRight(n0, nodes, a, t.items[i], b);
  }

  lemma ShiftedLeftWritten<V>(n0: seq<Node<V>>, nodes: seq<Node<V>>, g: Ledger<V>, n: Id, t: Shape<V>, i: nat,
                              base: seq<Shape<V>>, a: Shape<V>, b: Shape<V>)
    requires Pair(n0, g, n, t, i, base, a, b) && Rewrote(n0, nodes, {n, a.id, b.id})
    requires Formed(a) && Formed(b) && (a.kids == [] <==> b.kids == []) && b.items != []
    requires n < |n0| && a.id < |n0| && b.id < |n0| && i < |n0[n].items|
    requires |n0[b.id].items| == |b.items| && |n0[b.id].children| == |n0[b.id].counts| == |b.kids|
    requires |n0[a.id].children| == |a.kids|
    requires var nd, ld, rd := n0[n], n0[a.id], n0[b.id];
      && nodes[n] == nd.(items := nd.items[i := rd.items[0]])
      && nodes[a.id] == (if ld.Leaf() then ld.(items := ld.items + [nd.items[i]])
                         else Node(ld.items + [nd.items[i]], ld.children + [rd.children[0]],
                                   ld.counts + [rd.counts[0]], ld.rc))
      && nodes[b.id] == (if ld.Leaf() then rd.(items := rd.items[1..])
                         else Node(rd.items[1..], rd.children[1..], rd.counts[1..], rd.rc))
    ensures i < |t.items|
    ensures var (a', y, b') := ShiftedLeft(a, t.items[i], b); Shifted(n0, nodes, n, i, a, b, a', y, b')
  {
    hide Flat, Rep, Here;
    PairRecords(n0, g, n, t, i, base, a, b);
    RepParts(n0, a);
    RepParts(n0, b);
    HereShiftedLeft(n0, nodes, a, t.items[i], b);
  }

  /** After the shift the writer still holds n and both children. */
  lemma ShiftHeld<V>(n0: seq<Node<V>>, nodes: seq<Node<V>>, g: Ledger<V>, copied: bool, n: Id, t: Shape<V>, i: nat,
                     base: seq<Shape<V>>, a: Shape<V>, b: Shape<V>, a': Shape<V>, y: V, b': Shape<V>)
    requires Good(n0, g, copied) && Pair(n0, g, n, t, i, base, a, b) && Shifted(n0, nodes, n, i, a, b, a', y, b')
    ensures Good(nodes, g, copied) && HeldThree(nodes, g, n, a', b') && nodes[n].rc == 0
    ensures n < |nodes| && i + 1 < |nodes[n].children| == |nodes[n].counts|
    ensures nodes[n].children[i] == a'.id && nodes[n].children[i+1] == b'.id
  {
    hide Good, Rep, Flat, Here;
    var mine := {n, a.id, b.id};
    Rewrite(n0, nodes, g, copied, mine);
    OwnedKids(n0, nodes, g, copied, mine, a);
    OwnedKids(n0, nodes, g, copied, mine, b);
    KidsApart(nodes, a.kids, b.kids, a', b');
    SameChildren(n0, nodes, a.id, b.id);
  }

  lemma AboveShifted<V>(nodes: seq<Node<V>>, nodes': seq<Node<V>>, n: Id, t: Shape<V>, i: nat, a: Shape<V>, x: V,
                        b: Shape<V>)
    requires AboveTwo(nodes, n, t, i, a.id, b.id) && n < |nodes'|
    requires nodes'[n].items == nodes[n].items[i := x] && nodes'[n].children == nodes[n].children
    requires nodes'[n].counts == nodes[n].counts[i := |Flat(a)|][i+1 := |Flat(b)|]
    ensures Here(nodes', ShiftedAt(t, i, a, x, b))
  {
    hide Flat;
  }

  lemma HereSizes<V>(nodes: seq<Node<V>>, t: Shape<V>)
    requires Here(nodes, t)
    ensures nodes[t.id].items == t.items && |nodes[t.id].children| == |nodes[t.id].counts| == |t.kids|
  {
  }

  /** Children redistributed between two nodes still hold what they held. */
  lemma KidsApart<V>(nodes: seq<Node<V>>, x: seq<Shape<V>>, y: seq<Shape<V>>, a: Shape<V>, b: Shape<V>)
    requires AllRep(nodes, x) && AllRep(nodes, y) && a.kids + b.kids == x + y
    requires Here(nodes, a) && Here(nodes, b)
    ensures Rep(nodes, a) && Rep(nodes, b)
  {
    hide Rep, Here;
    forall k | 0 <= k < |x + y| ensures Rep(nodes, (x + y)[k]) {
    }
    forall k | 0 <= k < |a.kids| ensures Rep(nodes, a.kids[k]) {
      assert a.kids[k] == (x + y)[k];
    }
    forall k | 0 <= k < |b.kids| ensures Rep(nodes, b.kids[k]) {
      assert b.kids[k] == (x + y)[|a.kids| + k];
    }
    RepParts(nodes, a);
    RepParts(nodes, b);
  }

  lemma SameChildren<V>(n0: seq<Node<V>>, nodes: seq<Node<V>>, a: Id, b: Id)
    requires a < |n0| && b < |n0| && a < |nodes| && b < |nodes|
    requires nodes[a].children + nodes[b].children == n0[a].children + n0[b].children
    ensures multiset(nodes[a].children) + multiset(nodes[b].children)
         == multiset(n0[a].children) + multiset(n0[b].children)
  {
    assert multiset(nodes[a].children + nodes[b].children) == multiset(n0[a].children + n0[b].children);
  }

  /** A tree that was set aside on the way down to children i, i + 1. */
  lemma AsideRep<V>(nodes: seq<Node<V>>, g: Ledger<V>, copied: bool, base: seq<Shape<V>>, t: Shape<V>, i: nat)
    requires Good(nodes, g, copied) && i + 2 < |t.kids| && g.frame == base + Rest(t, i, i + 2)
    ensures Rep(nodes, t.kids[i+2])
  {
    assert g.frame[|base| + i] == t.kids[i+2];
  }

  /** What a write to n, a, b did to the ledger's view of the store. */
  ghost predicate Settled<V>(n0: seq<Node<V>>, g0: Ledger<V>, nodes: seq<Node<V>>, g: Ledger<V>, n: Id, a: Id, b: Id)
  {
    && Rewrote(n0, nodes, {n, a, b}) && g.live <= g0.live + {a, b}
    && g.shots == g0.shots && g.leaving == g0.leaving
  }

  lemma SettledAfter<V>(n0: seq<Node<V>>, g0: Ledger<V>, n1: seq<Node<V>>, nodes: seq<Node<V>>, g: Ledger<V>, n: Id,
                        a: Id, b: Id)
    requires Rewrote(n0, n1, {n, a, b}) && Rewrote(n1, nodes, {n})
    requires g.live == g0.live + {a, b} && g.shots == g0.shots && g.leaving == g0.leaving
    ensures Settled(n0, g0, nodes, g, n, a, b)
  {
  }

  lemma PairSizes<V>(nodes: seq<Node<V>>, g: Ledger<V>, n: Id, t: Shape<V>, i: nat, base: seq<Shape<V>>, a: Shape<V>,
                     b: Shape<V>)
    requires Pair(nodes, g, n, t, i, base, a, b)
    ensures a.id < |nodes| && b.id < |nodes| && nodes[a.id].items == a.items && nodes[b.id].items == b.items
  {
  }

  lemma AboveSizes<V>(nodes: seq<Node<V>>, n: Id, t: Shape<V>, i: nat, c: Id, d: int)
    requires Above(nodes, n, t, i, c, d)
    ensures n < |nodes| && t.id == n && i < |t.kids| == |nodes[n].children| == |nodes[n].counts|
    ensures nodes[n].items == t.items && nodes[n].children[i] == c
    ensures t.kids[i := t.kids[i]] == t.kids
  {
  }

  /** The size of child i of a held node. */
  lemma HeldSizes<V>(nodes: seq<Node<V>>, l: Ledger<V>, n: Id, t: Shape<V>, i: nat)
    requires Held(nodes, l, n, t) && i < |t.kids|
    ensures nodes[n].items == t.items && |nodes[n].children| == |nodes[n].counts| == |t.kids|
    ensures nodes[n].children[i] == t.kids[i].id && nodes[n].counts[i] == |Flat(t.kids[i])|
    ensures t.kids[i].id < |nodes| && nodes[t.kids[i].id].items == t.kids[i].items
  {
    assert Rep(nodes, t.kids[i]);
  }

  /** Writing to n and putting c back into the graph. */
  lemma LeaveKeeps<V>(n0: seq<Node<V>>, l0: Ledger<V>, n1: seq<Node<V>>, l1: Ledger<V>, n: Id, c: Id)
    requires Rewrote(n0, n1, {n}) && l1.live == l0.live + {c} && l1.shots == l0.shots && l1.leaving == l0.leaving
    ensures Keeps(n0, l0, n1, l1, {c} + {n})
  {
  }

  lemma KeepsThen<V>(n0: seq<Node<V>>, l0: Ledger<V>, n1: seq<Node<V>>, l1: Ledger<V>, n2: seq<Node<V>>, l2: Ledger<V>,
                     n: Id, c: Id)
    requires Keeps(n0, l0, n1, l1, {c} + {n}) && Keeps(n1, l1, n2, l2, {n})
    ensures Keeps(n0, l0, n2, l2, {c} + {n})
  {
  }

  lemma HeldAt<V>(nodes: seq<Node<V>>, l: Ledger<V>, n: Id, t: Shape<V>, h: nat)
    requires Held(nodes, l, n, t) && Shaped(t, h)
    ensures t.id == n && nodes[n].items == t.items && |nodes[n].children| == |nodes[n].counts| == |t.kids|
    ensures nodes[n].Leaf() <==> t.kids == []
    ensures t.kids == [] <==> h == 0
    ensures |t.items| <= MAX_ITEMS && (h > 0 ==> |t.kids| == |t.items| + 1)
  {
    hide Flat, Counted, Balanced;
    RepParts(nodes, t);
    hide Rep;
    ShapedFormed(t, h, n);
  }

  /** A leaf whose items were rewritten. */
  lemma LeafWrite<V>(n0: seq<Node<V>>, nodes: seq<Node<V>>, l: Ledger<V>, n: Id, t: Shape<V>, items: seq<V>)
    requires Held(n0, l, n, t) && t.kids == [] && nodes == n0[n := n0[n].(items := items)]
    ensures Held(nodes, l, n, Shape(n, items, []))
  {
  }

  /** Work below child c leaves n alone. */
  lemma StillAbove<V>(n1: seq<Node<V>>, l1: Ledger<V>, n2: seq<Node<V>>, l2: Ledger<V>, n: Id, t: Shape<V>, i: nat,
                      c: Id, d: int)
    requires Keeps(n1, l1, n2, l2, {c}) && Loose(n1, l1, n) && Above(n1, n, t, i, c, d) && n != c
    ensures Loose(n2, l2, n) && Above(n2, n, t, i, c, d) && n2[n] == n1[n]
  {
    hide Flat;
  }

  /** Down to child c, work below it, and back up to n. */
  lemma DownAndUp<V>(n0: seq<Node<V>>, l0: Ledger<V>, n1: seq<Node<V>>, l1: Ledger<V>, n2: seq<Node<V>>, l2: Ledger<V>,
                     n3: seq<Node<V>>, l3: Ledger<V>, n: Id, c: Id)
    requires Keeps(n0, l0, n1, l1, {n}) && Keeps(n1, l1, n2, l2, {c}) && Keeps(n2, l2, n3, l3, {c} + {n})
    requires c in l0.live || c >= |n0|
    ensures Keeps(n0, l0, n3, l3, {n})
  {
  }

  /** The separator in n was replaced while the writer is at child i. */
  lemma SeparatorAbove<V>(n2: seq<Node<V>>, nodes: seq<Node<V>>, l: Ledger<V>, n: Id, t: Shape<V>, i: nat, c: Id, m: V)
    requires Loose(n2, l, n) && Above(n2, n, t, i, c, 0) && i < |t.items|
    requires nodes == n2[n := n2[n].(items := n2[n].items[i := m])]
    ensures Loose(nodes, l, n) && Above(nodes, n, WithItem(t, i, m), i, c, 0)
  {
    hide Flat;
  }

  lemma WriteThen<V>(n2: seq<Node<V>>, l2: Ledger<V>, n3: seq<Node<V>>, n4: seq<Node<V>>, l4: Ledger<V>, n: Id, c: Id)
    requires Rewrote(n2, n3, {n}) && Keeps(n3, l2, n4, l4, {c} + {n})
    ensures Keeps(n2, l2, n4, l4, {c} + {n})
  {
  }

  lemma BelowThen<V>(n1: seq<Node<V>>, l1: Ledger<V>, n2: seq<Node<V>>, l2: Ledger<V>, n3: seq<Node<V>>, l3: Ledger<V>,
                     n: Id, c: Id)
    requires Keeps(n1, l1, n2, l2, {c}) && Keeps(n2, l2, n3, l3, {c} + {n})
    ensures Keeps(n1, l1, n3, l3, {c} + {n})
  {
  }

  /** The second child of n, which reads as k, made exclusive: from the store n0 before to n1 after, now node b. */
  lemma OpenedBeside<V>(n0: seq<Node<V>>, l0: Ledger<V>, n1: seq<Node<V>>, o: Others, l: Ledger<V>, copied: bool, n: Id,
                        j: nat, k: Shape<V>, b: Id, a: Shape<V>) returns (nodes: seq<Node<V>>, l': Ledger<V>)
    requires Grown(n0, l0, n1, l) && Loose(n0, l0, n) && Loose(n0, l0, a.id) && a.id != n && Rep(n0, a)
    requires Good(n1, l, copied) && Match(o, l) && b < |n1| && Rep(n1, Renamed(k, b)) && n1[b].rc == 0
    requires j < |n0[n].children| && l0.own == multiset(n0[a.id].children) + multiset{k.id}
    requires l.own == l0.own - multiset{k.id} + multiset{b}
    ensures n < |n1| && n !in l.live && n1[n] == n0[n]
    ensures nodes == n1[n := n1[n].(children := n1[n].children[j := b])]
    ensures Good(nodes, l', copied) && Match(o, l') && HeldThree(nodes, l', n, a, Renamed(k, b))
    ensures l'.frame == l0.frame && Keeps(n0, l0, nodes, l', {n})
    ensures b in l0.live || b >= |n0|
  {
    hide Good, Match, Rep, Grown, Keeps, HeldThree;
    GrownRep(n0, l0, n1, l, a);
    GrownLoose(n0, l0, n1, l, a.id);
    GrownLoose(n0, l0, n1, l, n);
    nodes := n1[n := n1[n].(children := n1[n].children[j := b])];
    l' := ArriveBeside(n1, nodes, o, l, copied, n, j, Renamed(k, b), a);
    GrownWrite(n0, l0, n1, l, nodes, l', n);
  }

  /** left, separator and right written into left's node: the writer now holds the merged node. */
  lemma MergeHeld<V>(n0: seq<Node<V>>, nodes: seq<Node<V>>, l: Ledger<V>, copied: bool, n: Id, t: Shape<V>, i: nat,
                     base: seq<Shape<V>>, ka: Shape<V>, kb: Shape<V>)
    requires Good(n0, l, copied) && Pair(n0, l, n, t, i, base, ka, kb)
    requires Formed(ka) && Formed(kb) && (ka.kids == [] <==> kb.kids == [])
    requires Rewrote(n0, nodes, {n, ka.id}) && nodes[ka.id].rc == 0 && nodes[n].rc == 0
    requires Here(nodes, Merged(ka, t.items[i], kb))
    requires nodes[ka.id].children == n0[ka.id].children + n0[kb.id].children
    ensures Good(nodes, l, copied) && Loose(nodes, l, n) && Formed(Merged(ka, t.items[i], kb))
    ensures Held(nodes, l, ka.id, Merged(ka, t.items[i], kb))
  {
    hide Good, Rep, Flat, Here;
    var m, mine := Merged(ka, t.items[i], kb), {n, ka.id};
    MergedFlat(ka, t.items[i], kb);
    Rewrite(n0, nodes, l, copied, mine);
    OwnedKids(n0, nodes, l, copied, mine, ka);
    OwnedKids(n0, nodes, l, copied, mine, kb);
    RepParts(nodes, m);
  }

  lemma MergePointers<V>(n0: seq<Node<V>>, nodes: seq<Node<V>>, l: Ledger<V>, n: Id, t: Shape<V>, i: nat,
                         base: seq<Shape<V>>, ka: Shape<V>, kb: Shape<V>)
    requires Pair(n0, l, n, t, i, base, ka, kb) && |n0| <= |nodes|
    requires var nd := n0[n];
             nodes[n] == Node(nd.items[..i] + nd.items[i+1..], nd.children[..i+1] + nd.children[i+2..],
                              nd.counts[..i+1] + nd.counts[i+2..], nd.rc)
    ensures i < |nodes[n].children| == |nodes[n].counts| == |t.kids| - 1 && nodes[n].children[i] == ka.id
    ensures i + 2 < |t.kids| ==> nodes[n].children[i+1] == t.kids[i+2].id
    ensures |n0[n].counts| == |t.kids| && |n0[n].children| == |t.kids|
    ensures i + 2 < |t.kids| ==> n0[n].counts[i+2] == |Flat(t.kids[i+2])|
    ensures n != ka.id && n != kb.id && n0[n].rc == 0 && l.frame == base + Rest(t, i, i + 2)
    ensures AboveTwo(n0, n, t, i, ka.id, kb.id) && t.id == n && i + 1 < |t.kids| == |t.items| + 1
  {
    hide Flat;
  }

  // ---- splitting

  /** What splitNode leaves in node c and in the new node at the end of the store. */
  ghost predicate Halved<V>(n0: seq<Node<V>>, nodes: seq<Node<V>>, c: Id)
  {
    && c < |n0| && |nodes| == |n0| + 1 && |n0[c].items| == MAX_ITEMS
    && (forall id :: 0 <= id < |n0| && id != c ==> nodes[id] == n0[id])
    && var cd, m := n0[c], MIN_ITEMS;
       && (cd.children != [] ==> |cd.children| == |cd.counts| == MAX_ITEMS + 1)
       && nodes[c] == (if cd.children == [] then cd.(items := cd.items[..m])
                       else Node(cd.items[..m], cd.children[..m+1], cd.counts[..m+1], cd.rc))
       && nodes[|n0|] == (if cd.children == [] then Node(cd.items[m+1..], [], [], 0)
                          else Node(cd.items[m+1..], cd.children[m+1..], cd.counts[m+1..], 0))
  }

  lemma HalvedHere<V>(n0: seq<Node<V>>, nodes: seq<Node<V>>, k: Shape<V>)
    requires Here(n0, k) && Formed(k) && Halved(n0, nodes, k.id)
    ensures Here(nodes, LeftHalf(k)) && Here(nodes, RightHalf(k, |n0|))
  {
    hide Flat;
  }

  lemma HalvedChildren<V>(n0: seq<Node<V>>, nodes: seq<Node<V>>, c: Id)
    requires Halved(n0, nodes, c)
    ensures nodes[c].children + nodes[|n0|].children == n0[c].children
    ensures nodes[c].rc == n0[c].rc && nodes[|n0|].rc == 0
  {
  }

  /** The two halves of a held node, one of them new. */
  lemma HalvesHeld<V>(n0: seq<Node<V>>, nodes: seq<Node<V>>, l: Ledger<V>, copied: bool, n: Id, k: Shape<V>)
    requires Good(n0, l, copied) && Held(n0, l, k.id, k) && Formed(k) && |k.items| == MAX_ITEMS
    requires Loose(n0, l, n) && n != k.id
    requires Halved(n0, nodes, k.id)
    ensures Good(nodes, l, copied)
    ensures HeldThree(nodes, l, n, LeftHalf(k), RightHalf(k, |n0|))
  {
    hide Good, Rep, Flat, Halved;
    var a, b, mine := LeftHalf(k), RightHalf(k, |n0|), {k.id};
    HalvedRest(n0, nodes, k.id);
    GoodBelow(n0, l, copied);
    Rewrite(n0, nodes, l, copied, mine);
    OwnedKids(n0, nodes, l, copied, mine, k);
    RepParts(n0, k);
    HalvedHere(n0, nodes, k);
    HalvedChildren(n0, nodes, k.id);
    assert AllRep(nodes, a.kids) && AllRep(nodes, b.kids);
    RepParts(nodes, a);
    RepParts(nodes, b);
  }

  lemma HalvedRest<V>(n0: seq<Node<V>>, nodes: seq<Node<V>>, c: Id)
    requires Halved(n0, nodes, c)
    ensures Rewrote(n0, nodes, {c}) && |nodes| == |n0| + 1 && c < |n0|
  {
  }

  /** n with the separator and the new child in place, but for the counts. */
  lemma AboveSplit<V>(nodes: seq<Node<V>>, nodes': seq<Node<V>>, n: Id, t: Shape<V>, i: nat, l: Shape<V>, x: V,
                      r: Shape<V>)
    requires Above(nodes, n, t, i, l.id, 0) && n < |nodes'| && i <= |t.items|
    requires nodes'[n].items == nodes[n].items[..i] + [x] + nodes[n].items[i..]
    requires nodes'[n].children == nodes[n].children[..i+1] + [r.id] + nodes[n].children[i+1..]
    requires nodes'[n].counts ==
      (nodes[n].counts[..i+1] + [0] + nodes[n].counts[i+1..])[i := |Flat(l)|][i+1 := |Flat(r)|]
    ensures Here(nodes', SplitAt(t, i, l, x, r))
  {
    hide Flat;
    var u, m := SplitAt(t, i, l, x, r), nodes'[n];
    forall j | 0 <= j < |u.kids| ensures m.children[j] == u.kids[j].id && m.counts[j] == |Flat(u.kids[j])| {
      if j < i {
        assert u.kids[j] == t.kids[j];
      } else if j > i + 1 {
        assert u.kids[j] == t.kids[j-1];
      }
    }
  }

  lemma SplitSettled<V>(n0: seq<Node<V>>, l0: Ledger<V>, n2: seq<Node<V>>, l2: Ledger<V>, n: Id, c: Id, right: Id)
    requires Rewrote(n0, n2, {c, n}) && right >= |n0|
    requires l2.live == l0.live + {c, right} && l2.shots == l0.shots && l2.leaving == l0.leaving
    ensures Keeps(n0, l0, n2, l2, {c} + {n})
  {
  }

  /** Going down to a child already known to be unshared. */
  lemma EnterChild<V>(nodes: seq<Node<V>>, o: Others, l: Ledger<V>, copied: bool, n: Id, t: Shape<V>, i: nat)
      returns (l': Ledger<V>)
    requires Good(nodes, l, copied) && Match(o, l) && Held(nodes, l, n, t) && i < |t.kids|
    requires t.kids[i].id < |nodes| && nodes[t.kids[i].id].rc == 0
    ensures Good(nodes, l', copied) && Match(o, l') && Loose(nodes, l', n) && Above(nodes, n, t, i, t.kids[i].id, 0)
    ensures Held(nodes, l', t.kids[i].id, t.kids[i]) && t.kids[i].id != n && t.kids[i].id in l.live
    ensures l'.frame == l.frame + Rest(t, i, i + 1) && Keeps(nodes, l, nodes, l', {n})
  {
    hide Good, Rep, Flat, Here, Above, Rest;
    RepParts(nodes, t);
    HereSizes(nodes, t);
    var l1 := SetSiblingsAside(nodes, o, l, copied, n, t, i);
    l' := Enter(nodes, o, l1, copied, t.kids[i], multiset{});
    assert nodes[n] == nodes[n].(children := nodes[n].children[i := t.kids[i].id]);
    AboveOf(nodes, nodes, n, t, i, t.kids[i].id);
  }

  /** Back at n after an insertion below child i, whose count was raised beforehand. */
  lemma AfterInsertion<V>(n1: seq<Node<V>>, l1: Ledger<V>, nodes: seq<Node<V>>, o: Others, l: Ledger<V>, copied: bool,
                          n: Id, t: Shape<V>, i: nat, c: Id, k: Shape<V>, base: seq<Shape<V>>) returns (l': Ledger<V>)
    requires Loose(n1, l1, n) && Above(n1, n, t, i, c, 1) && Keeps(n1, l1, nodes, l, {c}) && c != n
    requires Good(nodes, l, copied) && Match(o, l) && Held(nodes, l, c, k)
    requires l.frame == base + Rest(t, i, i + 1) && |Flat(k)| == |Flat(t.kids[i])| + 1
    ensures Good(nodes, l', copied) && Match(o, l') && Held(nodes, l', n, WithKid(t, i, k)) && l'.frame == base
    ensures Keeps(n1, l1, nodes, l', {c} + {n})
  {
    hide Good, Match, Rep, Flat, Here, Above;
    StillAbove(n1, l1, nodes, l, n, t, i, c, 1);
    AboveSizes(nodes, n, t, i, c, 1);
    AboveHere(nodes, n, t, i, k, 1);
    l' := Leave(nodes, o, l, copied, n, t, i, i + 1, base, k, WithKid(t, i, k));
  }

  // ---- the root

  /** The writer gives up the references it holds without dropping them, as Clear does. */
  lemma Forget<V>(nodes: seq<Node<V>>, o: Others, l: Ledger<V>, copied: bool) returns (l': Ledger<V>)
    requires Good(nodes, l, copied) && Match(o, l)
    ensures l' == l.(own := multiset{}) && Good(nodes, l', copied) && Match(o, l')
  {
    hide Rep, Heads, Pins, Edges;
    l' := l.(own := multiset{});
    assert Refs(nodes, l'.live, l'.Ext()) <= Refs(nodes, l.live, l.Ext());
  }

  /** CopyInto: a second reference to the root, held by a new snapshot. */
  lemma Snap<V>(nodes: seq<Node<V>>, o: Others, l: Ledger<V>, r: Id, t: Shape<V>)
      returns (nodes': seq<Node<V>>, l': Ledger<V>)
    requires Good(nodes, l, true) && Match(o, l) && r in l.own && t.id == r && Rep(nodes, t)
    ensures r < |nodes| && nodes' == nodes[r := nodes[r].(rc := nodes[r].rc + 1)]
    ensures l' == l.(shots := l.shots + [Some(t)])
    ensures Good(nodes', l', true) && Match(o.(roots := o.roots + [Some(r)]), l') && Rep(nodes', t)
  {
    hide Edges, Rep, Heads, Pins, Counted;
    Referenced(nodes, l, true, r);
    var l1;
    nodes', l1 := AddOne(nodes, l, r);
    l' := l.(shots := l.shots + [Some(t)]);
    PinsTake(l.shots, t);
    SnapExt(l, l1, l', r);
    RepSame(nodes, nodes', t);
  }

  /** A snapshot of the empty tree holds no reference. */
  lemma SnapNothing<V>(nodes: seq<Node<V>>, o: Others, l: Ledger<V>) returns (l': Ledger<V>)
    requires Good(nodes, l, true) && Match(o, l)
    ensures l' == l.(shots := l.shots + [None])
    ensures Good(nodes, l', true) && Match(o.(roots := o.roots + [None]), l')
  {
    hide Edges, Rep, Heads, Pins, Counted;
    l' := l.(shots := l.shots + [None]);
    PinsTakeNone(l.shots);
    assert l'.Ext() == l.Ext();
  }

  lemma {:induction false} PinsTakeNone<V>(shots: seq<Option<Shape<V>>>)
    ensures Pins(shots + [None]) == Pins(shots)
    decreases |shots|
  {
    if shots == [] {
      assert shots + [None] == [None];
    } else {
      assert (shots + [None])[1..] == shots[1..] + [None];
      PinsTakeNone(shots[1..]);
    }
  }

  lemma Referenced<V>(nodes: seq<Node<V>>, l: Ledger<V>, copied: bool, r: Id)
    requires Good(nodes, l, copied) && r in l.own
    ensures r in Refs(nodes, l.live, l.Ext())
  {
    hide Edges, Rep, Heads, Pins;
  }

  lemma SnapExt<V>(l: Ledger<V>, l1: Ledger<V>, l': Ledger<V>, r: Id)
    requires l1 == l.(own := l.own + multiset{r})
    requires l'.own == l.own && l'.frame == l.frame && l'.pend == l.pend
    requires Pins(l'.shots) == Pins(l.shots) + multiset{r}
    ensures l'.Ext() == l1.Ext()
  {
    hide Heads, Pins;
    var a, b, p, q := l.own, Heads(l.frame), Pins(l.shots), l.pend;
    assert a + b + (p + multiset{r}) + q == (a + multiset{r}) + b + p + q;
  }

  /** A snapshot's Release begins: its reference is now the caller's to drop. */
  lemma Unsnap<V>(nodes: seq<Node<V>>, o: Others, l: Ledger<V>, copied: bool, k: nat) returns (l': Ledger<V>)
    requires Good(nodes, l, copied) && Match(o, l) && k < |l.shots| && l.shots[k].Some?
    ensures l' == l.(own := l.own + multiset{l.shots[k].value.id}, shots := l.shots[k := None])
    ensures Good(nodes, l', copied) && Match(o.(roots := o.roots[k := None]), l')
  {
    hide Edges, Rep, Heads, Pins, Counted;
    l' := l.(own := l.own + multiset{l.shots[k].value.id}, shots := l.shots[k := None]);
    PinsDrop(l.shots, k);
    var r, a, b, p, q := l.shots[k].value.id, l.own, Heads(l.frame), Pins(l'.shots), l.pend;
    assert (a + multiset{r}) + b + p + q == a + b + (p + multiset{r}) + q;
    assert l'.Ext() == l.Ext();
  }

  /** A new root over the two halves of the old one. */
  ghost function Grow<V>(k: Shape<V>, root2: Id, right: Id): Shape<V>
    requires |k.items| == MAX_ITEMS && Formed(k)
  {
    Shape(root2, [k.items[MIN_ITEMS]], [LeftHalf(k), RightHalf(k, right)])
  }

  lemma GrowKeeps<V>(k: Shape<V>, h: nat, root2: Id, right: Id)
    requires Shaped(k, h) && |k.items| == MAX_ITEMS
    ensures Formed(k) && Shaped(Grow(k, root2, right), h + 1) && Flat(Grow(k, root2, right)) == Flat(k)
  {
    hide Flat, Weave, Shaped, Balanced;
    ShapedFormed(k, h, k.id);
    var t := Grow(k, root2, right);
    var l, r := LeftHalf(k), RightHalf(k, right);
    HalvesFlat(k, right);
    HalvesBalanced(k, h, right);
    ShapedBy(t, h + 1);
    FlatBranch(t);
    FocusTwo(t.kids, t.items, 0);
    BeforeNone(t.kids, t.items);
    AfterEnd(t.kids, t.items);
  }

  /** A new root takes up the two halves. */
  lemma LeaveGrown<V>(nodes: seq<Node<V>>, o: Others, g: Ledger<V>, copied: bool, a: Shape<V>, b: Shape<V>, t: Shape<V>)
      returns (g': Ledger<V>)
    requires Good(nodes, g, copied) && Match(o, g) && HeldThree(nodes, g, t.id, a, b) && t.kids == [a, b]
    requires Here(nodes, t)
    ensures Good(nodes, g', copied) && Match(o, g') && Held(nodes, g', t.id, t) && g'.frame == g.frame
    ensures g'.live == g.live + {a.id, b.id} && g'.shots == g.shots && g'.leaving == g.leaving
  {
    hide Good, Rep, Match, Here, Flat;
    g' := LeaveTwo(nodes, o, g, copied, t.id, Shape(t.id, [], [a]), 0, 1, g.frame, a, b, t);
  }

  lemma GrowHere<V>(nodes: seq<Node<V>>, t: Shape<V>)
    requires t.id < |nodes| && |t.kids| == 2 && nodes[t.id].items == t.items
    requires nodes[t.id].children == [t.kids[0].id, t.kids[1].id]
    requires nodes[t.id].counts == [|Flat(t.kids[0])|, |Flat(t.kids[1])|]
    ensures Here(nodes, t)
  {
    hide Flat;
  }
}
