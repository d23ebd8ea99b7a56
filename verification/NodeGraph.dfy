/** Nodes as the store holds them, and the accounting of references that makes it safe to write to
    one: a ledger of who holds which reference, and the invariant `Good` every step keeps. */
module NodeGraph {
  import opened Basics
  import opened Shapes

  /** `items` are the first `len` slots of the node's arrays; `children` and `counts` are those of its
      branch, both empty in a leaf; `rc` is the number of references beyond the first. */
  datatype Node<V> = Node(items: seq<V>, children: seq<Id>, counts: seq<int>, rc: int) {
    predicate Leaf() { children == [] }

    ghost predicate SameData(other: Node<V>) {
      items == other.items && children == other.children && counts == other.counts
    }
  }

  /** Node t.id holds t's items, refers to the roots of t's kids and counts them right. */
  ghost predicate Here<V>(nodes: seq<Node<V>>, t: Shape<V>)
  {
    && t.id < |nodes|
    && nodes[t.id].items == t.items
    && |nodes[t.id].children| == |nodes[t.id].counts| == |t.kids|
    && forall i :: 0 <= i < |t.kids| ==>
         nodes[t.id].children[i] == t.kids[i].id && nodes[t.id].counts[i] == |Flat(t.kids[i])|
  }

  /** Node t.id and everything below it hold exactly t. */
  ghost predicate Rep<V>(nodes: seq<Node<V>>, t: Shape<V>)
    decreases t
  {
    Here(nodes, t) && forall k :: 0 <= k < |t.kids| ==> Rep(nodes, t.kids[k])
  }

  /** Every child reference out of a live node. */
  ghost function Edges<V>(nodes: seq<Node<V>>, live: set<Id>): multiset<Id>
  {
    if nodes == [] then multiset{}
    else
      var n := |nodes| - 1;
      Edges(nodes[..n], live) + Out(nodes[n], n in live)
  }

  ghost function Out<V>(n: Node<V>, isLive: bool): multiset<Id>
  {
    if isLive then multiset(n.children) else multiset{}
  }

  ghost function Heads<V>(ts: seq<Shape<V>>): multiset<Id>
  {
    if ts == [] then multiset{} else multiset{ts[0].id} + Heads(ts[1..])
  }

  ghost function Pins<V>(shots: seq<Option<Shape<V>>>): multiset<Id>
  {
    if shots == [] then multiset{}
    else (if shots[0].Some? then multiset{shots[0].value.id} else multiset{}) + Pins(shots[1..])
  }

  /** Who holds references into the node graph. A node is live while it takes part in the graph; the
      writer takes a node out of `live` to work on it, and then holds its children itself.
        own     - references the writer holds right now
        frame   - trees the writer has set aside and will find again unchanged
        shots   - snapshots by handle, None once their Release has begun
        pend    - references that Releases running concurrently have yet to drop
        leaving - the snapshots whose Release may begin during the writer's operation */
  datatype Ledger<V> = Ledger(live: set<Id>, own: multiset<Id>, frame: seq<Shape<V>>,
                              shots: seq<Option<Shape<V>>>, pend: multiset<Id>, leaving: set<nat>) {
    ghost function Ext(): multiset<Id> {
      own + Heads(frame) + Pins(shots) + pend
    }
  }

  ghost function Refs<V>(nodes: seq<Node<V>>, live: set<Id>, ext: multiset<Id>): multiset<Id>
  {
    Edges(nodes, live) + ext
  }

  /** Whatever is referenced is live, and has at most rc + 1 references. (Not exactly: Clear drops
      the root without giving its reference back.) */
  ghost predicate Counted<V>(nodes: seq<Node<V>>, live: set<Id>, ext: multiset<Id>)
  {
    && (forall id :: id in live ==> id < |nodes|)
    && (forall id :: id in Refs(nodes, live, ext) ==>
          id in live && Refs(nodes, live, ext)[id] <= nodes[id].rc + 1)
  }

  ghost predicate AllRep<V>(nodes: seq<Node<V>>, ts: seq<Shape<V>>)
  {
    forall k :: 0 <= k < |ts| ==> Rep(nodes, ts[k])
  }

  ghost predicate ShotsRep<V>(nodes: seq<Node<V>>, shots: seq<Option<Shape<V>>>)
  {
    forall k :: 0 <= k < |shots| && shots[k].Some? ==> Rep(nodes, shots[k].value)
  }

  /** The invariant: references are accounted for, every unreleased snapshot and every set-aside tree
      still reads as it did, and a tree that was never copied has no shared node. */
  ghost predicate Good<V>(nodes: seq<Node<V>>, l: Ledger<V>, copied: bool)
  {
    && Counted(nodes, l.live, l.Ext())
    && AllRep(nodes, l.frame)
    && ShotsRep(nodes, l.shots)
    && (copied || forall id :: id in l.live ==> nodes[id].rc <= 0)
  }

  ghost predicate ShotsKept<V>(l: Ledger<V>, l': Ledger<V>)
  {
    && |l.shots| == |l'.shots| && l.leaving == l'.leaving
    && forall k :: 0 <= k < |l.shots| ==>
         l'.shots[k] == l.shots[k] || (k in l.leaving && l'.shots[k] == None)
  }

  /** What a step may not do: touch a node that is out of the graph, or put one back, other than those
      in `mine`. Snapshots change only by their own release beginning. */
  ghost predicate Keeps<V>(nodes: seq<Node<V>>, l: Ledger<V>, nodes': seq<Node<V>>, l': Ledger<V>, mine: set<Id>)
  {
    && |nodes| <= |nodes'|
    && (forall id :: 0 <= id < |nodes| && id !in l.live && id !in mine ==> nodes'[id] == nodes[id])
    && (forall id :: 0 <= id < |nodes| && id !in l.live && id !in mine ==> id !in l'.live)
    && ShotsKept(l, l')
  }

  /** Every node that existed still holds the same data. */
  ghost predicate AllSame<V>(nodes: seq<Node<V>>, nodes': seq<Node<V>>)
  {
    |nodes| <= |nodes'| && forall id :: 0 <= id < |nodes| ==> nodes[id].SameData(nodes'[id])
  }

  // ---- edges and heads

  lemma EdgesLast<V>(nodes: seq<Node<V>>, live: set<Id>)
    requires nodes != []
    ensures var n := |nodes| - 1; Edges(nodes, live) == Edges(nodes[..n], live) + Out(nodes[n], n in live)
  {
  }

  lemma {:induction false} EdgesDrop<V>(nodes: seq<Node<V>>, live: set<Id>, p: Id)
    requires p in live && p < |nodes|
    ensures Edges(nodes, live) == Edges(nodes, live - {p}) + multiset(nodes[p].children)
    decreases |nodes|
  {
    hide Edges;
    var n := |nodes| - 1;
    EdgesLast(nodes, live);
    EdgesLast(nodes, live - {p});
    if p < n {
      EdgesDrop(nodes[..n], live, p);
    } else {
      EdgesSame(nodes[..n], nodes[..n], live, live - {p});
    }
  }

  lemma {:induction false} EdgesSame<V>(a: seq<Node<V>>, b: seq<Node<V>>, live: set<Id>, live': set<Id>)
    requires |a| == |b|
    requires forall i :: 0 <= i < |a| ==> (i in live <==> i in live')
    requires forall i :: 0 <= i < |a| && i in live ==> a[i].children == b[i].children
    ensures Edges(a, live) == Edges(b, live')
    decreases |a|
  {
    if a != [] {
      var n := |a| - 1;
      EdgesSame(a[..n], b[..n], live, live');
    }
  }

  /** Edges depend only on the children of live nodes. */
  lemma {:induction false} EdgesGrow<V>(a: seq<Node<V>>, b: seq<Node<V>>, live: set<Id>)
    requires |a| <= |b|
    requires forall id :: id in live ==> id < |a| && a[id].children == b[id].children
    ensures Edges(a, live) == Edges(b, live)
    decreases |b|
  {
    if |a| == |b| {
      EdgesSame(a, b, live, live);
    } else {
      EdgesGrow(a, b[..|b|-1], live);
    }
  }

  lemma {:induction false} HeadsCat<V>(a: seq<Shape<V>>, b: seq<Shape<V>>)
    ensures Heads(a + b) == Heads(a) + Heads(b)
    decreases |a|
  {
    if a == [] {
      assert a + b == b;
    } else {
      assert (a + b)[1..] == a[1..] + b;
      HeadsCat(a[1..], b);
    }
  }

  lemma {:induction false} HeadsIds<V>(ts: seq<Shape<V>>, ids: seq<Id>)
    requires |ts| == |ids| && forall i :: 0 <= i < |ts| ==> ids[i] == ts[i].id
    ensures Heads(ts) == multiset(ids)
    decreases |ts|
  {
    if ts != [] {
      HeadsIds(ts[1..], ids[1..]);
      assert ids == [ids[0]] + ids[1..];
    } else {
      assert ids == [];
    }
  }

  /** Children i set apart from its siblings. */
  lemma HeadsApart<V>(kids: seq<Shape<V>>, ids: seq<Id>, i: nat)
    requires |kids| == |ids| && forall j :: 0 <= j < |kids| ==> ids[j] == kids[j].id
    requires i < |kids|
    ensures multiset(ids) == Heads(kids[..i] + kids[i+1..]) + multiset{ids[i]}
  {
    hide Heads;
    HeadsIds(kids[..i] + kids[i+1..], ids[..i] + ids[i+1..]);
    assert ids == ids[..i] + [ids[i]] + ids[i+1..];
  }

  /** Children i and i + 1 set apart from their siblings. */
  lemma HeadsApartTwo<V>(kids: seq<Shape<V>>, ids: seq<Id>, i: nat)
    requires |kids| == |ids| && forall j :: 0 <= j < |kids| ==> ids[j] == kids[j].id
    requires i + 1 < |kids|
    ensures multiset(ids) == Heads(kids[..i] + kids[i+2..]) + multiset{ids[i], ids[i+1]}
  {
    hide Heads;
    HeadsIds(kids[..i] + kids[i+2..], ids[..i] + ids[i+2..]);
    assert ids == ids[..i] + [ids[i], ids[i+1]] + ids[i+2..];
  }

  lemma {:induction false} PinsDrop<V>(shots: seq<Option<Shape<V>>>, k: nat)
    requires k < |shots| && shots[k].Some?
    ensures Pins(shots) == Pins(shots[k := None]) + multiset{shots[k].value.id}
    decreases |shots|
  {
    if k > 0 {
      PinsDrop(shots[1..], k - 1);
      assert shots[k := None][1..] == shots[1..][k-1 := None];
    } else {
      assert shots[k := None][1..] == shots[1..];
    }
  }

  lemma {:induction false} PinsTake<V>(shots: seq<Option<Shape<V>>>, t: Shape<V>)
    ensures Pins(shots + [Some(t)]) == Pins(shots) + multiset{t.id}
    decreases |shots|
  {
    if shots == [] {
      assert shots + [Some(t)] == [Some(t)];
    } else {
      assert (shots + [Some(t)])[1..] == shots[1..] + [Some(t)];
      PinsTake(shots[1..], t);
    }
  }

  // ---- trees and stores

  lemma RepParts<V>(nodes: seq<Node<V>>, t: Shape<V>)
    ensures Rep(nodes, t) <==> Here(nodes, t) && AllRep(nodes, t.kids)
  {
  }

  lemma HereSame<V>(a: seq<Node<V>>, b: seq<Node<V>>, t: Shape<V>, u: Shape<V>)
    requires Here(a, t) && u.items == t.items && u.kids == t.kids
    requires u.id < |b| && a[t.id].SameData(b[u.id])
    ensures Here(b, u)
  {
    hide Flat;
  }

  lemma {:induction false} RepSame<V>(a: seq<Node<V>>, b: seq<Node<V>>, t: Shape<V>)
    requires AllSame(a, b) && Rep(a, t)
    ensures Rep(b, t)
    decreases t
  {
    hide Flat;
    HereSame(a, b, t, t);
    forall i | 0 <= i < |t.kids| ensures Rep(b, t.kids[i]) {
      RepSame(a, b, t.kids[i]);
    }
  }

  /** A tree whose root is referenced lies wholly in the live part of the store. */
  lemma {:induction false} RepLive<V>(a: seq<Node<V>>, b: seq<Node<V>>, live: set<Id>, ext: multiset<Id>, t: Shape<V>)
    requires Counted(a, live, ext) && Rep(a, t) && t.id in Refs(a, live, ext)
    requires |a| <= |b| && forall id :: id in live ==> a[id].SameData(b[id])
    ensures Rep(b, t)
    decreases t
  {
    hide Flat, Edges;
    HereSame(a, b, t, t);
    EdgesDrop(a, live, t.id);
    forall i | 0 <= i < |t.kids| ensures Rep(b, t.kids[i]) {
      assert a[t.id].children[i] == t.kids[i].id;
      assert t.kids[i].id in multiset(a[t.id].children);
      RepLive(a, b, live, ext, t.kids[i]);
    }
  }

  lemma {:induction false} HeadsHas<V>(ts: seq<Shape<V>>, k: nat)
    requires k < |ts|
    ensures ts[k].id in Heads(ts)
    decreases |ts|
  {
    if k > 0 { HeadsHas(ts[1..], k - 1); }
  }

  lemma PinsHas<V>(shots: seq<Option<Shape<V>>>, k: nat)
    requires k < |shots| && shots[k].Some?
    ensures shots[k].value.id in Pins(shots)
  {
    PinsDrop(shots, k);
  }

  /** Writing only to nodes outside the graph disturbs no snapshot and no set-aside tree. */
  lemma WriteOutside<V>(a: seq<Node<V>>, b: seq<Node<V>>, l: Ledger<V>, copied: bool)
    requires Good(a, l, copied)
    requires |a| <= |b| && forall id :: id in l.live ==> a[id] == b[id]
    ensures Good(b, l, copied)
  {
    hide Rep, Edges, Heads, Pins;
    EdgesGrow(a, b, l.live);
    forall k | 0 <= k < |l.frame| ensures Rep(b, l.frame[k]) {
      HeadsHas(l.frame, k);
      RepLive(a, b, l.live, l.Ext(), l.frame[k]);
    }
    forall k | 0 <= k < |l.shots| && l.shots[k].Some? ensures Rep(b, l.shots[k].value) {
      PinsHas(l.shots, k);
      RepLive(a, b, l.live, l.Ext(), l.shots[k].value);
    }
  }

  /** Node id is somewhere in t. */
  ghost predicate Reaches<V>(t: Shape<V>, id: Id)
    decreases t
  {
    id == t.id || exists k :: 0 <= k < |t.kids| && Reaches(t.kids[k], id)
  }

  lemma {:induction false} ReachedIsLive<V>(nodes: seq<Node<V>>, live: set<Id>, ext: multiset<Id>, t: Shape<V>, id: Id)
    requires Counted(nodes, live, ext) && Rep(nodes, t) && t.id in Refs(nodes, live, ext) && Reaches(t, id)
    ensures id in live
    decreases t
  {
    hide Flat, Edges;
    if id != t.id {
      var k :| 0 <= k < |t.kids| && Reaches(t.kids[k], id);
      EdgesDrop(nodes, live, t.id);
      assert nodes[t.id].children[k] == t.kids[k].id;
      assert t.kids[k].id in multiset(nodes[t.id].children);
      ReachedIsLive(nodes, live, ext, t.kids[k], id);
    }
  }

  /** No snapshot that is not released reaches node id. */
  ghost predicate Unshared<V>(l: Ledger<V>, id: Id)
  {
    forall k :: 0 <= k < |l.shots| && l.shots[k].Some? ==> !Reaches(l.shots[k].value, id)
  }

  lemma OutsideIsUnshared<V>(nodes: seq<Node<V>>, l: Ledger<V>, copied: bool, id: Id)
    requires Good(nodes, l, copied) && id !in l.live
    ensures Unshared(l, id)
  {
    hide Rep, Edges, Heads, Pins;
    forall k | 0 <= k < |l.shots| && l.shots[k].Some? ensures !Reaches(l.shots[k].value, id) {
      PinsHas(l.shots, k);
      if Reaches(l.shots[k].value, id) {
        ReachedIsLive(nodes, l.live, l.Ext(), l.shots[k].value, id);
      }
    }
  }

  lemma SameGood<V>(a: seq<Node<V>>, b: seq<Node<V>>, l: Ledger<V>)
    requires AllRep(a, l.frame) && ShotsRep(a, l.shots) && AllSame(a, b)
    ensures AllRep(b, l.frame) && ShotsRep(b, l.shots)
  {
    hide Rep, Counted;
    forall k | 0 <= k < |l.frame| ensures Rep(b, l.frame[k]) {
      RepSame(a, b, l.frame[k]);
    }
    forall k | 0 <= k < |l.shots| && l.shots[k].Some? ensures Rep(b, l.shots[k].value) {
      RepSame(a, b, l.shots[k].value);
    }
  }

  // ---- steps on references: first on the counts alone

  lemma CountedUnpack<V>(nodes: seq<Node<V>>, live: set<Id>, ext: multiset<Id>, c: Id)
    requires Counted(nodes, live, ext) && c in ext && c < |nodes| && nodes[c].rc == 0
    ensures Counted(nodes, live - {c}, ext - multiset{c} + multiset(nodes[c].children)) && c in live
    ensures c !in Refs(nodes, live - {c}, ext - multiset{c} + multiset(nodes[c].children))
  {
    hide Edges;
    var ext' := ext - multiset{c} + multiset(nodes[c].children);
    assert c in Refs(nodes, live, ext);
    EdgesDrop(nodes, live, c);
    assert Refs(nodes, live, ext) == Refs(nodes, live - {c}, ext') + multiset{c};
  }

  lemma CountedPack<V>(nodes: seq<Node<V>>, live: set<Id>, ext: multiset<Id>, c: Id)
    requires Counted(nodes, live, ext) && c !in live && c < |nodes| && nodes[c].rc == 0
    requires multiset(nodes[c].children) <= ext
    ensures Counted(nodes, live + {c}, ext - multiset(nodes[c].children) + multiset{c})
  {
    hide Edges;
    var ch := multiset(nodes[c].children);
    var ext' := ext - ch + multiset{c};
    EdgesDrop(nodes, live + {c}, c);
    assert live + {c} - {c} == live;
    assert Refs(nodes, live + {c}, ext') == Refs(nodes, live, ext) + multiset{c};
    assert c !in Refs(nodes, live, ext);
  }

  lemma CountedDrop<V>(nodes: seq<Node<V>>, nodes': seq<Node<V>>, live: set<Id>, ext: multiset<Id>, c: Id)
    requires Counted(nodes, live, ext) && c in ext && c in live
    requires nodes' == nodes[c := nodes[c].(rc := nodes[c].rc - 1)] && nodes'[c].rc >= 0
    ensures Counted(nodes', live, ext - multiset{c})
  {
    hide Edges;
    var r, r' := Refs(nodes, live, ext), Refs(nodes', live, ext - multiset{c});
    assert r == r' + multiset{c} by {
      EdgesSame(nodes, nodes', live, live);
    }
    assert c in r;
  }

  lemma CountedKill<V>(nodes: seq<Node<V>>, nodes': seq<Node<V>>, live: set<Id>, ext: multiset<Id>, c: Id)
    requires Counted(nodes, live, ext) && c in ext && c in live
    requires nodes' == nodes[c := nodes[c].(rc := nodes[c].rc - 1)] && nodes'[c].rc < 0
    ensures Counted(nodes', live - {c}, ext - multiset{c} + multiset(nodes[c].children))
  {
    hide Edges;
    var ext' := ext - multiset{c} + multiset(nodes[c].children);
    var r, r' := Refs(nodes, live, ext), Refs(nodes', live - {c}, ext');
    assert r == r' + multiset{c} by {
      EdgesDrop(nodes, live, c);
      EdgesSame(nodes, nodes', live - {c}, live - {c});
    }
    assert c in r && c !in r';
    forall id | id in r' ensures id in live - {c} && r'[id] <= nodes'[id].rc + 1 {
      assert id in r && id != c;
    }
  }

  lemma CountedAdd<V>(nodes: seq<Node<V>>, nodes': seq<Node<V>>, live: set<Id>, ext: multiset<Id>, c: Id)
    requires Counted(nodes, live, ext) && c in Refs(nodes, live, ext)
    requires c < |nodes| && nodes' == nodes[c := nodes[c].(rc := nodes[c].rc + 1)]
    ensures Counted(nodes', live, ext + multiset{c})
  {
    hide Edges;
    EdgesSame(nodes, nodes', live, live);
    assert Refs(nodes', live, ext + multiset{c}) == Refs(nodes, live, ext) + multiset{c};
  }

  // ---- ... and then on the whole ledger

  /** Taking an unshared node out of the graph: nothing else refers to it, and the writer now holds
      its children. */
  lemma Unpack<V>(nodes: seq<Node<V>>, l: Ledger<V>, copied: bool, c: Id) returns (l': Ledger<V>)
    requires Good(nodes, l, copied) && c in l.own && c < |nodes| && nodes[c].rc == 0
    ensures l' == l.(live := l.live - {c}, own := l.own - multiset{c} + multiset(nodes[c].children))
    ensures Good(nodes, l', copied) && c in l.live
    ensures c !in Refs(nodes, l'.live, l'.Ext())
  {
    hide Edges, Rep, Heads, Pins;
    l' := l.(live := l.live - {c}, own := l.own - multiset{c} + multiset(nodes[c].children));
    assert l'.Ext() == l.Ext() - multiset{c} + multiset(nodes[c].children);
    CountedUnpack(nodes, l.live, l.Ext(), c);
  }

  /** Putting a node into the graph in exchange for the references to its children. */
  lemma Pack<V>(nodes: seq<Node<V>>, l: Ledger<V>, copied: bool, c: Id) returns (l': Ledger<V>)
    requires Good(nodes, l, copied) && c < |nodes| && c !in l.live && nodes[c].rc == 0
    requires multiset(nodes[c].children) <= l.own
    ensures l' == l.(live := l.live + {c}, own := l.own - multiset(nodes[c].children) + multiset{c})
    ensures Good(nodes, l', copied)
  {
    hide Edges, Rep, Heads, Pins;
    var ch := multiset(nodes[c].children);
    l' := l.(live := l.live + {c}, own := l.own - ch + multiset{c});
    assert l'.Ext() == l.Ext() - ch + multiset{c};
    CountedPack(nodes, l.live, l.Ext(), c);
  }

  /** Which pool of references a decrement draws on. */
  ghost function Take<V>(l: Ledger<V>, mine: bool, c: Id, more: multiset<Id>): Ledger<V>
  {
    if mine then l.(own := l.own - multiset{c} + more) else l.(pend := l.pend - multiset{c} + more)
  }

  lemma TakeExt<V>(l: Ledger<V>, mine: bool, c: Id, more: multiset<Id>)
    requires if mine then c in l.own else c in l.pend
    ensures c in l.Ext() && Take(l, mine, c, more).Ext() == l.Ext() - multiset{c} + more
  {
    hide Heads, Pins;
    var rest := Heads(l.frame) + Pins(l.shots);
    if mine {
      assert l.Ext() == l.own + (rest + l.pend);
      Exchange(l.own, rest + l.pend, multiset{c}, more);
    } else {
      assert l.Ext() == l.pend + (rest + l.own);
      Exchange(l.pend, rest + l.own, multiset{c}, more);
    }
  }

  lemma Exchange(a: multiset<Id>, rest: multiset<Id>, one: multiset<Id>, more: multiset<Id>)
    requires one <= a
    ensures a - one + more + rest == a + rest - one + more
  {
  }

  /** One decrement of releaseNode. When it was the last reference the node leaves the graph and the
      references to its children become ones still to be dropped. */
  lemma DropOne<V>(nodes: seq<Node<V>>, l: Ledger<V>, copied: bool, mine: bool, c: Id)
      returns (nodes': seq<Node<V>>, l': Ledger<V>)
    requires Good(nodes, l, copied)
    requires if mine then c in l.own else c in l.pend
    ensures c in l.live && c < |nodes|
    ensures nodes' == nodes[c := nodes[c].(rc := nodes[c].rc - 1)]
    ensures l' == if nodes'[c].rc < 0
                  then Take(l, mine, c, multiset(nodes[c].children)).(live := l.live - {c})
                  else Take(l, mine, c, multiset{})
    ensures Good(nodes', l', copied)
  {
    hide Edges, Rep, Heads, Pins;
    TakeExt(l, mine, c, multiset{});
    assert c in Refs(nodes, l.live, l.Ext());
    nodes' := nodes[c := nodes[c].(rc := nodes[c].rc - 1)];
    SameGood(nodes, nodes', l);
    if nodes'[c].rc < 0 {
      l' := Take(l, mine, c, multiset(nodes[c].children)).(live := l.live - {c});
      TakeExt(l, mine, c, multiset(nodes[c].children));
      CountedKill(nodes, nodes', l.live, l.Ext(), c);
      assert Counted(nodes', l'.live, l'.Ext());
    } else {
      l' := Take(l, mine, c, multiset{});
      CountedDrop(nodes, nodes', l.live, l.Ext(), c);
      assert l'.Ext() == l.Ext() - multiset{c};
      assert Counted(nodes', l'.live, l'.Ext());
    }
  }

  /** One increment of copyNode: a second reference to a node that is already referenced. */
  lemma AddOne<V>(nodes: seq<Node<V>>, l: Ledger<V>, c: Id) returns (nodes': seq<Node<V>>, l': Ledger<V>)
    requires Good(nodes, l, true) && c in Refs(nodes, l.live, l.Ext())
    ensures c in l.live && c < |nodes|
    ensures nodes' == nodes[c := nodes[c].(rc := nodes[c].rc + 1)]
    ensures l' == l.(own := l.own + multiset{c})
    ensures Good(nodes', l', true)
  {
    hide Edges, Rep, Heads, Pins;
    nodes' := nodes[c := nodes[c].(rc := nodes[c].rc + 1)];
    l' := l.(own := l.own + multiset{c});
    SameGood(nodes, nodes', l);
    CountedAdd(nodes, nodes', l.live, l.Ext(), c);
    assert l'.Ext() == l.Ext() + multiset{c};
  }

  /** Setting trees the writer holds aside, and taking them up again, moves references only. */
  lemma SetAside<V>(nodes: seq<Node<V>>, l: Ledger<V>, copied: bool, ts: seq<Shape<V>>, rest: multiset<Id>)
      returns (l': Ledger<V>)
    requires Good(nodes, l, copied) && AllRep(nodes, ts) && l.own == Heads(ts) + rest
    ensures l' == l.(own := rest, frame := l.frame + ts)
    ensures Good(nodes, l', copied)
  {
    hide Edges, Rep, Heads, Pins;
    l' := l.(own := rest, frame := l.frame + ts);
    assert l'.Ext() == l.Ext() by {
      HeadsCat(l.frame, ts);
    }
    assert AllRep(nodes, l'.frame);
  }

  lemma TakeUp<V>(nodes: seq<Node<V>>, l: Ledger<V>, copied: bool, base: seq<Shape<V>>, ts: seq<Shape<V>>)
      returns (l': Ledger<V>)
    requires Good(nodes, l, copied) && l.frame == base + ts
    ensures l' == l.(own := l.own + Heads(ts), frame := base)
    ensures Good(nodes, l', copied) && AllRep(nodes, ts)
  {
    hide Edges, Rep, Heads, Pins;
    l' := l.(own := l.own + Heads(ts), frame := base);
    assert l'.Ext() == l.Ext() by {
      HeadsCat(base, ts);
    }
    forall k | 0 <= k < |ts| ensures Rep(nodes, ts[k]) {
      assert l.frame[|base| + k] == ts[k];
    }
    forall k | 0 <= k < |base| ensures Rep(nodes, base[k]) {
      assert l.frame[k] == base[k];
    }
  }

  // ---- what other goroutines may do

  /** What other goroutines hold: the root each unreleased snapshot reads from, the references running
      Releases have yet to drop, and the snapshots whose Release may begin. */
  datatype Others = Others(roots: seq<Option<Id>>, pend: multiset<Id>, leaving: set<nat>)

  ghost predicate Match<V>(o: Others, l: Ledger<V>)
  {
    && o.pend == l.pend && o.leaving == l.leaving && |o.roots| == |l.shots|
    && forall h :: 0 <= h < |o.roots| ==>
         o.roots[h] == if l.shots[h].Some? then Some(l.shots[h].value.id) else None
  }

  /** The effect of running Releases as the writer sees it: reference counts of live nodes went down,
      nodes nobody refers to any more left the graph, and nothing else changed. */
  ghost predicate Loosened<V>(nodes: seq<Node<V>>, l: Ledger<V>, nodes': seq<Node<V>>, l': Ledger<V>)
  {
    && |nodes| == |nodes'|
    && (forall id :: 0 <= id < |nodes| ==>
          nodes[id].SameData(nodes'[id]) && nodes'[id].rc <= nodes[id].rc
          && (id !in l.live ==> nodes'[id] == nodes[id]))
    && l'.live <= l.live && l'.frame == l.frame
    && ShotsKept(l, l')
  }

  lemma LoosenedTwice<V>(n0: seq<Node<V>>, l0: Ledger<V>, n1: seq<Node<V>>, l1: Ledger<V>, n2: seq<Node<V>>,
                         l2: Ledger<V>)
    requires Loosened(n0, l0, n1, l1) && Loosened(n1, l1, n2, l2)
    ensures Loosened(n0, l0, n2, l2) && l2.live <= l1.live <= l0.live
  {
  }

  /** The effect of copy-on-write as the rest of the tree sees it: no existing node holds other data,
      and nodes out of the graph are as they were. */
  ghost predicate Grown<V>(nodes: seq<Node<V>>, l: Ledger<V>, nodes': seq<Node<V>>, l': Ledger<V>)
  {
    AllSame(nodes, nodes') && Keeps(nodes, l, nodes', l', {}) && l'.frame == l.frame
  }

  lemma GrownTwice<V>(n0: seq<Node<V>>, l0: Ledger<V>, n1: seq<Node<V>>, l1: Ledger<V>, n2: seq<Node<V>>, l2: Ledger<V>)
    requires Grown(n0, l0, n1, l1) && (Grown(n1, l1, n2, l2) || Loosened(n1, l1, n2, l2))
    ensures Grown(n0, l0, n2, l2)
  {
  }

  lemma LoosenedGrown<V>(nodes: seq<Node<V>>, l: Ledger<V>, nodes': seq<Node<V>>, l': Ledger<V>)
    requires Loosened(nodes, l, nodes', l')
    ensures Grown(nodes, l, nodes', l') && |nodes| == |nodes'|
  {
  }

  lemma GrownRep<V>(nodes: seq<Node<V>>, l: Ledger<V>, nodes': seq<Node<V>>, l': Ledger<V>, t: Shape<V>)
    requires Grown(nodes, l, nodes', l') && Rep(nodes, t)
    ensures Rep(nodes', t)
  {
    RepSame(nodes, nodes', t);
  }

  lemma LoosenedRc<V>(nodes: seq<Node<V>>, l: Ledger<V>, nodes': seq<Node<V>>, l': Ledger<V>, c: Id)
    requires Loosened(nodes, l, nodes', l') && c < |nodes|
    ensures c < |nodes'| && nodes'[c].rc <= nodes[c].rc && nodes'[c].SameData(nodes[c])
  {
  }

  lemma GrownKeeps<V>(nodes: seq<Node<V>>, l: Ledger<V>, nodes': seq<Node<V>>, l': Ledger<V>)
    requires Grown(nodes, l, nodes', l')
    ensures Keeps(nodes, l, nodes', l', {}) && ShotsKept(l, l') && l'.frame == l.frame
  {
  }

  lemma LoosenedNot<V>(nodes: seq<Node<V>>, l: Ledger<V>)
    ensures Loosened(nodes, l, nodes, l)
  {
  }

  lemma BeginExt<V>(l: Ledger<V>, h: nat, l': Ledger<V>)
    requires h < |l.shots| && l.shots[h].Some?
    requires l' == l.(shots := l.shots[h := None], pend := l.pend + multiset{l.shots[h].value.id})
    ensures l'.Ext() == l.Ext()
  {
    hide Heads, Pins;
    PinsDrop(l.shots, h);
  }

  lemma Begin<V>(nodes: seq<Node<V>>, o: Others, l: Ledger<V>, copied: bool, h: nat)
      returns (l': Ledger<V>)
    requires Good(nodes, l, copied) && Match(o, l)
    requires h < |o.roots| && h in o.leaving && o.roots[h].Some?
    ensures Match(o.(roots := o.roots[h := None], pend := o.pend + multiset{o.roots[h].value}), l')
    ensures Good(nodes, l', copied) && Loosened(nodes, l, nodes, l') && l'.own == l.own
  {
    hide Counted, Rep, Heads, Pins;
    l' := l.(shots := l.shots[h := None], pend := l.pend + multiset{l.shots[h].value.id});
    BeginExt(l, h, l');
  }

  lemma Step<V>(nodes: seq<Node<V>>, o: Others, l: Ledger<V>, copied: bool, c: Id)
      returns (nodes': seq<Node<V>>, l': Ledger<V>)
    requires Good(nodes, l, copied) && Match(o, l) && c in o.pend
    ensures c < |nodes| && nodes' == nodes[c := nodes[c].(rc := nodes[c].rc - 1)]
    ensures Match(o.(pend := o.pend - multiset{c}
                           + if nodes'[c].rc < 0 then multiset(nodes'[c].children) else multiset{}), l')
    ensures Good(nodes', l', copied)
    ensures Loosened(nodes, l, nodes', l') && l'.own == l.own
  {
    hide Counted, Rep;
    nodes', l' := DropOne(nodes, l, copied, false, c);
    assert nodes'[c].children == nodes[c].children;
  }

  /** The writer drops a reference of its own. */
  lemma Release<V>(nodes: seq<Node<V>>, o: Others, l: Ledger<V>, copied: bool, c: Id)
      returns (nodes': seq<Node<V>>, l': Ledger<V>)
    requires Good(nodes, l, copied) && Match(o, l) && c in l.own
    ensures c < |nodes| && nodes' == nodes[c := nodes[c].(rc := nodes[c].rc - 1)]
    ensures Good(nodes', l', copied) && Match(o, l') && Loosened(nodes, l, nodes', l')
    ensures l'.own == l.own - multiset{c}
                      + if nodes'[c].rc < 0 then multiset(nodes'[c].children) else multiset{}
    ensures l'.live <= l.live && (nodes'[c].rc < 0 ==> l'.live < l.live)
  {
    hide Counted, Rep;
    nodes', l' := DropOne(nodes, l, copied, true, c);
    assert nodes'[c].children == nodes[c].children;
  }

  /** A child of a node the writer refers to is referenced as well. */
  lemma ChildLive<V>(nodes: seq<Node<V>>, l: Ledger<V>, copied: bool, c: Id, i: nat)
    requires Good(nodes, l, copied) && c in l.own && c < |nodes| && i < |nodes[c].children|
    ensures nodes[c].children[i] in Refs(nodes, l.live, l.Ext())
  {
    hide Edges, Rep, Heads, Pins;
    assert c in Refs(nodes, l.live, l.Ext());
    EdgesDrop(nodes, l.live, c);
    assert nodes[c].children[i] in multiset(nodes[c].children);
  }

  /** The writer, referring to c, takes a reference to child i of c. */
  lemma Retain<V>(nodes: seq<Node<V>>, o: Others, l: Ledger<V>, c: Id, i: nat)
      returns (nodes': seq<Node<V>>, l': Ledger<V>)
    requires Good(nodes, l, true) && Match(o, l) && c in l.own && c < |nodes| && i < |nodes[c].children|
    ensures var k := nodes[c].children[i];
            k < |nodes| && k in l.live && nodes' == nodes[k := nodes[k].(rc := nodes[k].rc + 1)]
            && l' == l.(own := l.own + multiset{k})
    ensures Good(nodes', l', true) && Match(o, l') && Grown(nodes, l, nodes', l')
  {
    hide Counted, Rep, Ledger.Ext;
    ChildLive(nodes, l, true, c, i);
    nodes', l' := AddOne(nodes, l, nodes[c].children[i]);
  }

  /** A freshly allocated node enters the graph in exchange for the references to its children. */
  lemma Allocate<V>(nodes: seq<Node<V>>, o: Others, l: Ledger<V>, copied: bool, nd: Node<V>)
      returns (l': Ledger<V>)
    requires Good(nodes, l, copied) && Match(o, l) && nd.rc == 0 && multiset(nd.children) <= l.own
    ensures var n: Id := |nodes|;
            l' == l.(live := l.live + {n}, own := l.own - multiset(nd.children) + multiset{n})
    ensures Good(nodes + [nd], l', copied) && Match(o, l') && Grown(nodes, l, nodes + [nd], l')
  {
    hide Counted, Rep, Ledger.Ext;
    GoodBelow(nodes, l, copied);
    var ns := nodes + [nd];
    WriteOutside(nodes, ns, l, copied);
    l' := Pack(ns, l, copied, |nodes|);
  }

  lemma GoodBelow<V>(nodes: seq<Node<V>>, l: Ledger<V>, copied: bool)
    requires Good(nodes, l, copied)
    ensures forall id :: id in l.live ==> id < |nodes|
  {
  }

  /** A node with the data of t's root reads as a copy of t. */
  lemma CopyRep<V>(nodes: seq<Node<V>>, t: Shape<V>, rc: int)
    requires Rep(nodes, t)
    ensures Rep(nodes + [nodes[t.id].(rc := rc)], Shape(|nodes|, t.items, t.kids))
  {
    hide Rep, Flat;
    RepParts(nodes, t);
    var nodes' := nodes + [nodes[t.id].(rc := rc)];
    var u := Shape(|nodes|, t.items, t.kids);
    HereSame(nodes, nodes', t, u);
    forall i | 0 <= i < |t.kids| ensures Rep(nodes', t.kids[i]) {
      RepSame(nodes, nodes', t.kids[i]);
    }
    RepParts(nodes', u);
  }
}
