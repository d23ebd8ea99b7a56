/** Whole runs: any sequence of operations on a tree, taking any number of snapshots on the way, while others are
    released, is that sequence of operations on a sequence; and every snapshot that is not being released, whether it
    was there before or was taken on the way, reads as the tree did when it was taken. */
module TreeRuns {
  import opened Basics
  import opened Shapes
  import opened NodeGraph
  import opened CowStore
  import opened PositionalTree
  import opened TreeReads

  datatype Op<V> =
    | DoPushFront(v: V)
    | DoPushBack(v: V)
    | DoInsertAt(index: int, v: V)
    | DoPopFront
    | DoPopBack
    | DoDeleteAt(index: int)
    | DoClear
    | DoCopy

  /** What an operation does to the sequence. */
  function Applied<V>(s: seq<V>, op: Op<V>): seq<V>
  {
    match op
    case DoPushFront(v) => [v] + s
    case DoPushBack(v) => s + [v]
    case DoInsertAt(i, v) => if 0 <= i <= |s| then s[..i] + [v] + s[i..] else s
    case DoPopFront => if s == [] then [] else s[1..]
    case DoPopBack => if s == [] then [] else s[..|s|-1]
    case DoDeleteAt(i) => if 0 <= i < |s| then s[..i] + s[i+1..] else s
    case DoClear => []
    case DoCopy => s
  }

  function AppliedAll<V>(s: seq<V>, ops: seq<Op<V>>): seq<V>
    decreases |ops|
  {
    if ops == [] then s else Applied(AppliedAll(s, ops[..|ops|-1]), ops[|ops|-1])
  }

  /** What a snapshot taken by each DoCopy of ops reads. */
  function TakenBy<V>(s: seq<V>, ops: seq<Op<V>>): seq<seq<V>>
    decreases |ops|
  {
    if ops == [] then []
    else
      var n := |ops| - 1;
      TakenBy(s, ops[..n]) + if ops[n].DoCopy? then [AppliedAll(s, ops[..n])] else []
  }

  lemma OneOpMore<V>(s: seq<V>, ops: seq<Op<V>>, k: nat)
    requires k < |ops|
    ensures AppliedAll(s, ops[..k + 1]) == Applied(AppliedAll(s, ops[..k]), ops[k])
    ensures TakenBy(s, ops[..k + 1]) ==
              TakenBy(s, ops[..k]) + if ops[k].DoCopy? then [AppliedAll(s, ops[..k])] else []
  {
    assert ops[..k + 1][..k] == ops[..k];
  }

  /** New snapshots may come; those there are change only by their own release beginning. */
  ghost predicate ShotsGrown<V>(l: Ledger<V>, l': Ledger<V>)
  {
    && |l.shots| <= |l'.shots| && l.leaving == l'.leaving
    && forall k :: 0 <= k < |l.shots| ==>
         l'.shots[k] == l.shots[k] || (k in l.leaving && l'.shots[k] == None)
  }

  lemma KeptIsGrown<V>(l: Ledger<V>, l': Ledger<V>)
    requires ShotsKept(l, l')
    ensures ShotsGrown(l, l') && |l'.shots| == |l.shots|
  {
  }

  lemma NothingGrown<V>(l: Ledger<V>)
    ensures ShotsGrown(l, l)
  {
  }

  lemma GrownShotsTwice<V>(l0: Ledger<V>, l1: Ledger<V>, l2: Ledger<V>)
    requires ShotsGrown(l0, l1) && ShotsGrown(l1, l2)
    ensures ShotsGrown(l0, l2)
  {
  }

  /** A new snapshot, with the next handle. */
  method Copy<V>(t: Tree<V>) returns (t2: Tree<V>, handle: nat)
    requires t.Valid()
    modifies t, t.store
    ensures t.Valid() && t.Contents() == old(t.Contents()) && t.copied
    ensures fresh(t2) && t2.store == t.store && t2.Snapshot(handle) && t2.Contents() == t.Contents()
    ensures ShotsGrown(old(t.store.l), t.store.l)
    ensures handle == |old(t.store.l.shots)| && |t.store.l.shots| == handle + 1
  {
    hide NodeGraph.Good, Match, Rep, Flat, Shaped, SpareOk;
    t2 := new Tree<V>.Zero(t.store);
    handle := t.CopyInto(t2);
  }

  method Do<V>(t: Tree<V>, op: Op<V>) returns (taken: Option<Tree<V>>)
    requires t.Valid()
    modifies t, t.store
    ensures t.Valid() && t.Contents() == Applied(old(t.Contents()), op)
    ensures t.copied == (old(t.copied) || op.DoCopy?) && ShotsGrown(old(t.store.l), t.store.l)
    ensures taken.Some? <==> op.DoCopy?
    ensures |t.store.l.shots| == |old(t.store.l.shots)| + if op.DoCopy? then 1 else 0
    ensures op.DoCopy? ==>
      && fresh(taken.value) && taken.value.store == t.store
      && taken.value.Snapshot(|old(t.store.l.shots)|) && taken.value.Contents() == old(t.Contents())
  {
    hide Tree.Valid, Tree.Contents, Tree.Snapshot, ShotsKept, ShotsGrown;
    taken := None;
    match op {
      case DoPushFront(v) => var _ := t.PushFront(v);
      case DoPushBack(v) => var _ := t.PushBack(v);
      case DoInsertAt(i, v) => var _ := t.InsertAt(i, v);
      case DoPopFront => var _ := t.PopFront();
      case DoPopBack => var _ := t.PopBack();
      case DoDeleteAt(i) => var _ := t.DeleteAt(i);
      case DoClear => t.Clear();
      case DoCopy =>
        var t2, _ := Copy(t);
        return Some(t2);
    }
    KeptIsGrown(old(t.store.l), t.store.l);
  }

  /** The snapshot is unreleased by ledger l. */
  ghost predicate Unreleased<V>(snap: Tree<V>, handle: nat, l: Ledger<V>)
    reads snap
  {
    && handle < |l.shots|
    && if snap.root.None? then snap.count == 0
       else && snap.shape.id == snap.root.value && Shaped(snap.shape, snap.h)
            && snap.shape.items != [] && snap.count == |Flat(snap.shape)|
            && l.shots[handle] == Some(snap.shape)
  }

  /** That is enough to read it. */
  lemma UnreleasedIsSnapshot<V>(t: Tree<V>, snap: Tree<V>, handle: nat)
    requires snap.store == t.store && t.store.Good(t.copied)
    ensures Unreleased(snap, handle, t.store.l) <==> snap.Snapshot(handle)
  {
    hide Shaped, Flat, Counted;
    if snap.root.Some? && Unreleased(snap, handle, t.store.l) {
      assert t.store.l.shots[handle] == Some(snap.shape);
    }
  }

  /** A snapshot whose owner is not leaving outlives whatever happens to the rest of the store. */
  lemma StillUnreleased<V>(snap: Tree<V>, handle: nat, l: Ledger<V>, l': Ledger<V>)
    requires Unreleased(snap, handle, l) && handle !in l.leaving && ShotsGrown(l, l')
    ensures Unreleased(snap, handle, l') && handle !in l'.leaving
  {
    hide Shaped, Flat;
  }

  /** Snapshot i has handle handles[i]; unless it is being released, it is there and reads as contents[i]. */
  ghost predicate Isolated<V>(t: Tree<V>, snaps: seq<Tree<V>>, handles: seq<nat>, contents: seq<seq<V>>)
    reads t, t.store, snaps
  {
    && |snaps| == |handles| == |contents|
    && forall i :: 0 <= i < |snaps| ==>
         && snaps[i] != t && snaps[i].store == t.store
         && (handles[i] !in t.store.l.leaving ==> snaps[i].Snapshot(handles[i]) && snaps[i].Contents() == contents[i])
  }

  /** ... by ledger l. */
  ghost predicate Listed<V>(t: Tree<V>, l: Ledger<V>, snaps: seq<Tree<V>>, handles: seq<nat>, contents: seq<seq<V>>)
    reads snaps
  {
    && |snaps| == |handles| == |contents|
    && forall i :: 0 <= i < |snaps| ==>
         && snaps[i] != t && snaps[i].store == t.store
         && (handles[i] !in l.leaving ==> Unreleased(snaps[i], handles[i], l) && snaps[i].Contents() == contents[i])
  }

  lemma ListedIsIsolated<V>(t: Tree<V>, snaps: seq<Tree<V>>, handles: seq<nat>, contents: seq<seq<V>>)
    requires t.Valid()
    ensures Listed(t, t.store.l, snaps, handles, contents) <==> Isolated(t, snaps, handles, contents)
  {
    hide Unreleased, NodeGraph.Good, Match, Flat, Shaped, Rep;
    forall i | 0 <= i < |snaps| && |snaps| == |handles| && snaps[i].store == t.store
      ensures Unreleased(snaps[i], handles[i], t.store.l) <==> snaps[i].Snapshot(handles[i])
    {
      UnreleasedIsSnapshot(t, snaps[i], handles[i]);
    }
  }

  lemma StillListed<V>(t: Tree<V>, l: Ledger<V>, l': Ledger<V>, snaps: seq<Tree<V>>, handles: seq<nat>,
                       contents: seq<seq<V>>)
    requires Listed(t, l, snaps, handles, contents) && ShotsGrown(l, l')
    ensures Listed(t, l', snaps, handles, contents)
  {
    hide Unreleased, Flat;
    forall i | 0 <= i < |snaps| && handles[i] !in l.leaving ensures Unreleased(snaps[i], handles[i], l') {
      StillUnreleased(snaps[i], handles[i], l, l');
    }
  }

  lemma OneMoreListed<V>(t: Tree<V>, l: Ledger<V>, snaps: seq<Tree<V>>, handles: seq<nat>, contents: seq<seq<V>>,
                         snap: Tree<V>, handle: nat)
    requires Listed(t, l, snaps, handles, contents) && snap != t && snap.store == t.store && Unreleased(snap, handle, l)
    ensures Listed(t, l, snaps + [snap], handles + [handle], contents + [snap.Contents()])
  {
    hide Unreleased, Flat;
  }

  lemma GrownLeaving<V>(l: Ledger<V>, l': Ledger<V>)
    requires ShotsGrown(l, l')
    ensures l.leaving == l'.leaving
  {
  }

  ghost function Handles(from: nat, n: nat): (r: seq<nat>)
    ensures |r| == n && forall i :: 0 <= i < n ==> r[i] == from + i
  {
    seq(n, i requires 0 <= i < n => from + i)
  }

  lemma OneHandleMore(from: nat, n: nat)
    ensures Handles(from, n + 1) == Handles(from, n) + [from + n]
  {
  }

  /** Operation k of a run, which has taken snapshots with handles from `first` on. */
  method RunStep<V>(t: Tree<V>, ghost s0: seq<V>, ops: seq<Op<V>>, k: nat, ghost first: nat, taken0: seq<Tree<V>>)
      returns (taken: seq<Tree<V>>)
    requires t.Valid() && k < |ops| && t.Contents() == AppliedAll(s0, ops[..k])
    requires |t.store.l.shots| == first + |taken0|
    requires Listed(t, t.store.l, taken0, Handles(first, |taken0|), TakenBy(s0, ops[..k]))
    modifies t, t.store
    ensures t.Valid() && t.Contents() == AppliedAll(s0, ops[..k + 1])
    ensures ShotsGrown(old(t.store.l), t.store.l) && |t.store.l.shots| == first + |taken|
    ensures Listed(t, t.store.l, taken, Handles(first, |taken|), TakenBy(s0, ops[..k + 1]))
  {
    hide ShotsGrown, Listed, Unreleased, Applied, AppliedAll, TakenBy, NodeGraph.Good, Match, Rep, Flat, Shaped;
    hide SpareOk;
    ghost var l0, hs, cs := t.store.l, Handles(first, |taken0|), TakenBy(s0, ops[..k]);
    OneOpMore(s0, ops, k);
    OneHandleMore(first, |taken0|);
    ListedApart(t, l0, taken0, hs, cs);
    var more := Do(t, ops[k]);
    StillListed(t, l0, t.store.l, taken0, hs, cs);
    taken := taken0;
    if more.Some? {
      UnreleasedIsSnapshot(t, more.value, |l0.shots|);
      OneMoreListed(t, t.store.l, taken0, hs, cs, more.value, |l0.shots|);
      taken := taken + [more.value];
    } else {
      assert cs + [] == cs;
    }
  }

  /** Snapshot isolation over a whole run: of the snapshots there were, and of those taken on the way. */
  method Run<V>(t: Tree<V>, ops: seq<Op<V>>, snaps: seq<Tree<V>>, ghost handles: seq<nat>, ghost contents: seq<seq<V>>)
      returns (taken: seq<Tree<V>>)
    requires t.Valid() && Isolated(t, snaps, handles, contents)
    modifies t, t.store
    ensures t.Valid() && t.Contents() == AppliedAll(old(t.Contents()), ops)
    ensures ShotsGrown(old(t.store.l), t.store.l) && |t.store.l.shots| == |old(t.store.l.shots)| + |taken|
    ensures Isolated(t, snaps, handles, contents)
    ensures Isolated(t, taken, Handles(|old(t.store.l.shots)|, |taken|), TakenBy(old(t.Contents()), ops))
  {
    hide ShotsGrown, Listed, Isolated, Unreleased, Applied, NodeGraph.Good, Match, Rep, Flat, Shaped, SpareOk;
    ghost var s0, l0 := t.Contents(), t.store.l;
    ListedIsIsolated(t, snaps, handles, contents);
    ListedApart(t, l0, snaps, handles, contents);
    taken := [];
    assert ops[..0] == [];
    NothingGrown(l0);
    NothingListed(t, l0);
    for k := 0 to |ops|
      invariant t.Valid() && t.Contents() == AppliedAll(s0, ops[..k])
      invariant ShotsGrown(l0, t.store.l) && |t.store.l.shots| == |l0.shots| + |taken|
      invariant Listed(t, t.store.l, taken, Handles(|l0.shots|, |taken|), TakenBy(s0, ops[..k]))
    {
      ghost var l1 := t.store.l;
      taken := RunStep(t, s0, ops, k, |l0.shots|, taken);
      GrownShotsTwice(l0, l1, t.store.l);
    }
    assert ops[..|ops|] == ops;
    StillListed(t, l0, t.store.l, snaps, handles, contents);
    ListedIsIsolated(t, snaps, handles, contents);
    ListedIsIsolated(t, taken, Handles(|l0.shots|, |taken|), TakenBy(s0, ops));
  }

  lemma ListedApart<V>(t: Tree<V>, l: Ledger<V>, snaps: seq<Tree<V>>, handles: seq<nat>, contents: seq<seq<V>>)
    requires Listed(t, l, snaps, handles, contents)
    ensures t !in snaps
  {
  }

  lemma NothingListed<V>(t: Tree<V>, l: Ledger<V>)
    ensures Listed(t, l, [], [], [])
  {
  }

  /** ... from an empty tree on: whatever handles of `leaving` are released whenever, all other snapshots read at the
      end as the tree did when they were taken. */
  method FromEmpty<V>(leaving: set<nat>, ops: seq<Op<V>>) returns (t: Tree<V>, taken: seq<Tree<V>>)
    ensures t.Valid() && t.Contents() == AppliedAll([], ops)
    ensures t.store.l.leaving == leaving && Isolated(t, taken, Handles(0, |taken|), TakenBy([], ops))
  {
    hide NodeGraph.Good, Match, AppliedAll, TakenBy;
    var store := new Store<V>(leaving);
    t := new Tree<V>(store);
    ghost var l0 := store.l;
    taken := Run(t, ops, [], [], []);
    GrownLeaving(l0, t.store.l);
  }

  // ---- AllCOW: iterating over a snapshot while writers go on

  /** Where an iteration over snap by one goroutine stands: the writers have done the first k of ops; l0 is the ledger
      from before the snapshot was taken. */
  ghost predicate Ongoing<V>(t: Tree<V>, s0: seq<V>, l0: Ledger<V>, ops: seq<Op<V>>, k: nat, snap: Tree<V>, handle: nat)
    reads t, t.store, snap, snap.store
  {
    && t.Valid() && t.copied && k <= |ops| && t.Contents() == AppliedAll(s0, ops[..k])
    && ShotsGrown(l0, t.store.l) && handle == |l0.shots|
    && snap != t && snap.store == t.store && snap.Snapshot(handle) && handle !in t.store.l.leaving
  }

  /** The writers' next operation, if there is one. */
  method Write<V>(t: Tree<V>, ghost s0: seq<V>, ghost l0: Ledger<V>, ops: seq<Op<V>>, k: nat, ghost snap: Tree<V>,
                  ghost handle: nat)
      returns (k': nat)
    requires Ongoing(t, s0, l0, ops, k, snap, handle)
    modifies t, t.store
    ensures Ongoing(t, s0, l0, ops, k', snap, handle) && k <= k'
  {
    hide ShotsGrown, Unreleased, NodeGraph.Good, Match, Rep, Flat, Shaped, SpareOk;
    k' := k;
    if k < |ops| {
      ghost var l1 := t.store.l;
      UnreleasedIsSnapshot(t, snap, handle);
      var _ := Do(t, ops[k]);
      StillUnreleased(snap, handle, l1, t.store.l);
      UnreleasedIsSnapshot(t, snap, handle);
      GrownShotsTwice(l0, l1, t.store.l);
      OneOpMore(s0, ops, k);
      k' := k + 1;
    }
  }

  /** u is t or a tree below it. */
  ghost predicate Within<V>(u: Shape<V>, t: Shape<V>)
    decreases t
  {
    u == t || exists i :: 0 <= i < |t.kids| && Within(u, t.kids[i])
  }

  lemma {:induction false} WithinRep<V>(nodes: seq<Node<V>>, u: Shape<V>, t: Shape<V>)
    requires Within(u, t) && Rep(nodes, t)
    ensures Rep(nodes, u)
    decreases t
  {
    if u != t {
      var i :| 0 <= i < |t.kids| && Within(u, t.kids[i]);
      RepParts(nodes, t);
      WithinRep(nodes, u, t.kids[i]);
    }
  }

  lemma {:induction false} WithinKid<V>(u: Shape<V>, t: Shape<V>, j: nat)
    requires Within(u, t) && j < |u.kids|
    ensures Within(u.kids[j], t)
    decreases t
  {
    if u == t {
      assert Within(u.kids[j], t.kids[j]);
    } else {
      var i :| 0 <= i < |t.kids| && Within(u, t.kids[i]);
      WithinKid(u, t.kids[i], j);
    }
  }

  /** nodeAll on a snapshot's node n, with an operation of the writers before every item. */
  method NodeAllWhile<V>(t: Tree<V>, ghost s0: seq<V>, ghost l0: Ledger<V>, ops: seq<Op<V>>, k0: nat,
                         ghost snap: Tree<V>, ghost handle: nat, n: Id, ghost u: Shape<V>, ghost h: nat, out0: seq<V>,
                         more: seq<V> -> bool)
      returns (k: nat, out: seq<V>, go: bool)
    requires Ongoing(t, s0, l0, ops, k0, snap, handle) && snap != t && snap.root.Some?
    requires Within(u, snap.shape) && u.id == n && Shaped(u, h)
    modifies t, t.store
    ensures Ongoing(t, s0, l0, ops, k, snap, handle)
    ensures (out, go) == Feed(out0, Flat(u), more)
    decreases h
  {
    hide Rep, Flat, Shaped, Balanced, Applied, After, Before, From, Within, Ongoing;
    k, out := k0, out0;
    OngoingRep(t, s0, l0, ops, k, snap, handle, u, h);
    var m := |t.store.nodes[n].items|;
    if t.store.nodes[n].Leaf() {
      FlatLeaf(u);
      assert u.items[0..] == u.items;
      for i := 0 to m
        invariant Ongoing(t, s0, l0, ops, k, snap, handle)
        invariant Feed(out, u.items[i..], more) == Feed(out0, u.items, more)
      {
        k := Write(t, s0, l0, ops, k, snap, handle);
        OngoingRep(t, s0, l0, ops, k, snap, handle, u, h);
        assert u.items[i..][1..] == u.items[i+1..];
        out := out + [t.store.nodes[n].items[i]];
        if !more(out) {
          return k, out, false;
        }
      }
      return k, out, true;
    }
    FromAll(u);
    for i := 0 to m
      invariant Ongoing(t, s0, l0, ops, k, snap, handle)
      invariant Feed(out, From(u, i), more) == Feed(out0, Flat(u), more)
    {
      OngoingRep(t, s0, l0, ops, k, snap, handle, u, h);
      KidAt(t.store.nodes, u, h, i);
      WithinKid(u, snap.shape, i);
      FromStep(u, i);
      FeedCat(out, Flat(u.kids[i]), After(u.kids, u.items, i), more);
      k, out, go := NodeAllWhile(t, s0, l0, ops, k, snap, handle, t.store.nodes[n].children[i], u.kids[i], h - 1, out,
                                more);
      if !go {
        return;
      }
      k := Write(t, s0, l0, ops, k, snap, handle);
      OngoingRep(t, s0, l0, ops, k, snap, handle, u, h);
      FeedCat(out, [u.items[i]], From(u, i + 1), more);
      FeedOne(out, u.items[i], more);
      out := out + [t.store.nodes[n].items[i]];
      if !more(out) {
        return k, out, false;
      }
    }
    OngoingRep(t, s0, l0, ops, k, snap, handle, u, h);
    KidAt(t.store.nodes, u, h, m);
    WithinKid(u, snap.shape, m);
    FromStep(u, m);
    AfterEnd(u.kids, u.items);
    assert Flat(u.kids[m]) + [] == Flat(u.kids[m]);
    k, out, go := NodeAllWhile(t, s0, l0, ops, k, snap, handle, t.store.nodes[n].children[m], u.kids[m], h - 1, out,
                              more);
  }

  lemma OngoingRep<V>(t: Tree<V>, s0: seq<V>, l0: Ledger<V>, ops: seq<Op<V>>, k: nat, snap: Tree<V>, handle: nat,
                      u: Shape<V>, h: nat)
    requires Ongoing(t, s0, l0, ops, k, snap, handle) && snap.root.Some? && Within(u, snap.shape) && Shaped(u, h)
    ensures snap.store == t.store && Rep(t.store.nodes, u)
    ensures u.id < |t.store.nodes| && t.store.nodes[u.id].items == u.items
    ensures t.store.nodes[u.id].Leaf() <==> u.kids == []
    ensures |t.store.nodes[u.id].children| == |u.kids|
    ensures u.kids == [] <==> h == 0
    ensures h > 0 ==> |u.kids| == |u.items| + 1
  {
    WithinRep(t.store.nodes, u, snap.shape);
    RepAt(t.store.nodes, u, h);
  }

  /** Releasing a snapshot leaves the tree as it was; n1 and l1 are the store from before. */
  lemma AfterRelease<V>(t: Tree<V>, n1: seq<Node<V>>, l1: Ledger<V>)
    requires t.copied && t.store.Good(true) && t.store.l.own == l1.own && l1.frame == []
    requires Loosened(n1, l1, t.store.nodes, t.store.l)
    requires l1.own == if t.root.Some? then multiset{t.root.value} else multiset{}
    requires SpareOk(n1, l1, t.spare, t.root)
    requires if t.root.None? then t.count == 0
             else t.shape.id == t.root.value && Rep(n1, t.shape) && Shaped(t.shape, t.h)
                  && t.shape.items != [] && t.count == |Flat(t.shape)|
    ensures t.Valid()
  {
    hide Shaped, Flat, NodeGraph.Good, Match, Rep;
    if t.root.Some? {
      RepSame(n1, t.store.nodes, t.shape);
    }
  }

  lemma ReleasedGrows<V>(l0: Ledger<V>, l1: Ledger<V>, handle: nat, l2: Ledger<V>)
    requires ShotsGrown(l0, l1) && |l0.shots| <= handle < |l1.shots|
    requires ShotsKept(l1.(shots := l1.shots[handle := None]), l2) || l2 == l1
    ensures ShotsGrown(l0, l2)
  {
  }

  /** The snapshot has just been taken. */
  lemma Begun<V>(t: Tree<V>, s0: seq<V>, l0: Ledger<V>, ops: seq<Op<V>>, snap: Tree<V>, handle: nat)
    requires t.Valid() && t.copied && t.Contents() == s0 && ShotsGrown(l0, t.store.l) && handle == |l0.shots|
    requires snap != t && snap.store == t.store && snap.Snapshot(handle) && handle !in t.store.l.leaving
    requires snap.Contents() == s0
    ensures Ongoing(t, s0, l0, ops, 0, snap, handle) && AppliedAll(s0, ops[..0]) == s0
    ensures snap.count > 0 ==>
      && snap.root.Some? && Within(snap.shape, snap.shape) && snap.shape.id == snap.root.value
      && Shaped(snap.shape, snap.h) && Flat(snap.shape) == s0
    ensures snap.count <= 0 ==> s0 == []
  {
    hide NodeGraph.Good, Match, Rep, Flat, Shaped, ShotsGrown, SpareOk;
    assert ops[..0] == [];
    snap.CountIsLength();
  }

  /** The iteration is over: the snapshot is given back. */
  method EndIteration<V>(t: Tree<V>, ghost s0: seq<V>, ghost l0: Ledger<V>, ghost ops: seq<Op<V>>, ghost k: nat,
                         snap: Tree<V>, handle: nat)
    requires Ongoing(t, s0, l0, ops, k, snap, handle)
    modifies snap, t.store
    ensures t.Valid() && t.copied && k <= |ops| && t.Contents() == AppliedAll(s0, ops[..k])
    ensures ShotsGrown(l0, t.store.l) && |t.store.l.shots| > |l0.shots|
  {
    hide Rep, Flat, Shaped, NodeGraph.Good, Match, ShotsKept, ShotsGrown, Loosened, AppliedAll;
    ghost var n1, l1 := t.store.nodes, t.store.l;
    ghost var empty, cut := snap.root == None, l1.(shots := l1.shots[handle := None]);
    snap.Release(handle);
    if empty {
      LoosenedNot(n1, l1);
    } else {
      LoosenedShots(n1, cut, t.store.nodes, t.store.l);
    }
    ReleasedGrows(l0, l1, handle, t.store.l);
    AfterRelease(t, n1, if empty then l1 else cut);
  }

  /** AllCOW: take a snapshot, iterate over it while writers work on the tree and other snapshots come and go, release
      it. The consumer is given the contents of the moment the snapshot was taken, whatever the writers do; other
      snapshots that are not being released stay. */
  method AllCOW<V>(t: Tree<V>, ops: seq<Op<V>>, more: seq<V> -> bool, ghost snaps: seq<Tree<V>>,
                   ghost handles: seq<nat>,
                   ghost contents: seq<seq<V>>)
      returns (out: seq<V>, k: nat)
    requires t.Valid() && |t.store.l.shots| !in t.store.l.leaving && Isolated(t, snaps, handles, contents)
    modifies t, t.store
    ensures out == Feed([], old(t.Contents()), more).0
    ensures t.Valid() && t.copied && k <= |ops| && t.Contents() == AppliedAll(old(t.Contents()), ops[..k])
    ensures ShotsGrown(old(t.store.l), t.store.l) && |t.store.l.shots| > |old(t.store.l.shots)|
    ensures Isolated(t, snaps, handles, contents)
  {
    hide Isolated, Listed, Unreleased, Applied, AppliedAll, Feed, ShotsGrown, Ongoing, Tree.Valid, Tree.Snapshot;
    ghost var s0, l0 := t.Contents(), t.store.l;
    ListedIsIsolated(t, snaps, handles, contents);
    ListedApart(t, l0, snaps, handles, contents);
    var snap, handle := Copy(t);
    GrownLeaving(l0, t.store.l);
    Begun(t, s0, l0, ops, snap, handle);
    k, out := 0, [];
    FeedNone(out, more);
    if snap.count > 0 {
      var go;
      k, out, go := NodeAllWhile(t, s0, l0, ops, 0, snap, handle, snap.root.value, snap.shape, snap.h, [], more);
    }
    EndIteration(t, s0, l0, ops, k, snap, handle);
    StillListed(t, l0, t.store.l, snaps, handles, contents);
    ListedIsIsolated(t, snaps, handles, contents);
  }

  lemma LoosenedShots<V>(n0: seq<Node<V>>, l0: Ledger<V>, n1: seq<Node<V>>, l1: Ledger<V>)
    requires Loosened(n0, l0, n1, l1)
    ensures ShotsKept(l0, l1) && |l1.shots| == |l0.shots|
  {
  }
}
