/** The queue on the positional tree: its Push, Pop and Del, once admitted and past the caller's code. */
module TreeFifo {
  import opened Basics
  import opened Shapes
  import opened NodeGraph
  import opened PositionalTree
  import opened Matching
  import CowStore
  import TreeReads
  import Hydration

  lemma {:induction false} FeedAll<V>(out: seq<V>, s: seq<V>)
    ensures TreeReads.Feed(out, s, _ => true).0 == out + s
    decreases |s|
  {
    if s != [] {
      FeedAll(out + [s[0]], s[1..]);
      assert out + [s[0]] + s[1..] == out + s;
    }
  }

  /** idx holds, in order, the positions of s that are hit. */
  ghost predicate Lists<V>(idx: seq<nat>, hit: V -> bool, s: seq<V>)
  {
    && (forall a, b :: 0 <= a < b < |idx| ==> idx[a] < idx[b])
    && (forall a :: 0 <= a < |idx| ==> idx[a] < |s| && hit(s[idx[a]]))
    && (forall i :: 0 <= i < |s| && hit(s[i]) ==> i in idx)
  }

  lemma NothingListed<V>(hit: V -> bool)
    ensures Lists([], hit, [])
  {
  }

  lemma ListsMore<V>(idx: seq<nat>, hit: V -> bool, s: seq<V>, x: V)
    requires Lists(idx, hit, s)
    ensures Lists(if hit(x) then idx + [|s|] else idx, hit, s + [x])
  {
    var u := s + [x];
    var j := if hit(x) then idx + [|s|] else idx;
    forall a | 0 <= a < |j| ensures j[a] < |u| && hit(u[j[a]]) {
      if a < |idx| { assert j[a] == idx[a] && u[idx[a]] == s[idx[a]]; }
    }
    forall i | 0 <= i < |u| && hit(u[i]) ensures i in j {
      if i < |s| { assert u[i] == s[i] && i in idx; } else { assert j[|idx|] == i; }
    }
  }

  /** The positions Del is to remove, in order, and how many of them hold restored entries. */
  method Positions<V>(s: seq<V>, hydrated: int, equal: (V, V) -> bool, v: seq<V>) returns (idx: seq<nat>, restored: nat)
    requires 0 <= hydrated <= |s|
    ensures Lists(idx, Hit(equal, v), s) && |idx| == Hits(Hit(equal, v), s)
    ensures restored == Hits(Hit(equal, v), s[..hydrated])
  {
    hide Hits, Matches, Lists;
    idx, restored := [], 0;
    NothingYet(Hit(equal, v));
    NothingListed(Hit(equal, v));
    assert s[..0] == [];
    for i := 0 to |s|
      invariant Lists(idx, Hit(equal, v), s[..i]) && |idx| == Hits(Hit(equal, v), s[..i])
      invariant restored == Hits(Hit(equal, v), s[..Min(i, hydrated)])
    {
      assert s[..i + 1] == s[..i] + [s[i]];
      OneMore(Hit(equal, v), s[..i], s[i]);
      ListsMore(idx, Hit(equal, v), s[..i], s[i]);
      var yes := MatchesAny(equal, s[i], v);
      if yes {
        idx := idx + [i];
        if i < hydrated { restored := restored + 1; }
      }
    }
    assert s[..|s|] == s;
  }

  class Backing<V> {
    const t: Tree<V>
    var hydrated: int

    ghost predicate Valid()
      reads this, t, t.store
    {
      t.Valid() && 0 <= hydrated <= |t.Contents()|
    }

    constructor (store: CowStore.Store<V>)
      requires store.Good(false) && store.l.frame == [] && store.l.own == multiset{}
      ensures Valid() && fresh(t) && t.store == store && t.Contents() == [] && hydrated == 0
    {
      t := new Tree<V>(store);
      hydrated := 0;
    }

    method Push(vs: seq<V>)
      requires Valid()
      modifies t, t.store
      ensures Valid() && t.Contents() == old(t.Contents()) + vs
      ensures ShotsKept(old(t.store.l), t.store.l)
    {
      hide ShotsKept, NodeGraph.Good, Match, Rep, Flat, Shaped, SpareOk;
      ShotsSame(t.store.l);
      for i := 0 to |vs|
        invariant t.Valid() && t.Contents() == old(t.Contents()) + vs[..i]
        invariant ShotsKept(old(t.store.l), t.store.l)
      {
        ghost var l1 := t.store.l;
        var _ := t.PushBack(vs[i]);
        ShotsTwice(old(t.store.l), l1, t.store.l);
        assert vs[..i + 1] == vs[..i] + [vs[i]];
      }
      assert vs[..|vs|] == vs;
    }

    method DropHydrated(n: int)
      modifies `hydrated
      ensures hydrated == Hydration.DropCount(old(hydrated), n)
    {
      if n >= hydrated { hydrated := 0; } else { hydrated := hydrated - n; }
    }

    /** The removal of Pop, an item at a time. */
    method Pop(n: nat) returns (out: seq<V>)
      requires Valid()
      modifies this, t, t.store
      ensures Valid() && |out| == Min(n, |old(t.Contents())|) && old(t.Contents()) == out + t.Contents()
      ensures hydrated == Hydration.DropCount(old(hydrated), Min(|out|, old(hydrated)))
      ensures ShotsKept(old(t.store.l), t.store.l)
    {
      hide ShotsKept, NodeGraph.Good, Match, Rep, Flat, Shaped, SpareOk;
      ghost var s := t.Contents();
      t.CountIsLength();
      var k := if n < t.count then n else t.count;
      out := [];
      ShotsSame(t.store.l);
      for i := 0 to k
        invariant t.Valid() && out == s[..i] && t.Contents() == s[i..] && hydrated == old(hydrated)
        invariant ShotsKept(old(t.store.l), t.store.l)
      {
        ghost var l1 := t.store.l;
        var v := t.PopFront();
        ShotsTwice(old(t.store.l), l1, t.store.l);
        out := out + [v.value];
      }
      DropHydrated(Min(k, hydrated));
    }

    /** The listed positions go, the last of them first. */
    method DeleteListed(idx: seq<nat>, ghost hit: V -> bool, ghost s: seq<V>)
      requires t.Valid() && t.Contents() == s && Lists(idx, hit, s)
      modifies t, t.store
      ensures t.Valid() && t.Contents() == Without(hit, s) && ShotsKept(old(t.store.l), t.store.l)
    {
      hide Tree.Valid, Tree.Contents, Cut, ShotsKept, Without, Lists;
      ShotsSame(t.store.l);
      var j := |idx|;
      ListedEnd(idx, hit, s);
      while j > 0
        invariant 0 <= j <= |idx| && t.Valid() && t.Contents() == Cut(idx, hit, s, j)
        invariant ShotsKept(old(t.store.l), t.store.l)
      {
        j := j - 1;
        ghost var l1 := t.store.l;
        CutStep(idx, hit, s, j);
        var _ := t.DeleteAt(idx[j]);
        ShotsTwice(old(t.store.l), l1, t.store.l);
      }
      ListedStart(idx, hit, s);
    }

    /** Del: from the highest position down, so that the positions below stay valid. */
    method Del(equal: (V, V) -> bool, v: seq<V>) returns (count: nat)
      requires Valid()
      modifies this, t, t.store
      ensures Valid() && t.Contents() == Without(Hit(equal, v), old(t.Contents()))
      ensures count == |old(t.Contents())| - |t.Contents()|
      ensures hydrated == old(hydrated) - Hits(Hit(equal, v), old(t.Contents())[..old(hydrated)])
      ensures ShotsKept(old(t.store.l), t.store.l)
    {
      hide Tree.Valid, Tree.Contents, ShotsKept, Hits, Without, Lists;
      ghost var s := t.Contents();
      ghost var hit := Hit(equal, v);
      t.ValidParts();
      var all := TreeReads.All(t, _ => true);
      FeedAll([], s);
      assert all == s;
      var idx, restored := Positions(all, hydrated, equal, v);
      DeleteListed(idx, hit, s);
      CutCounts(idx, hit, s);
      HitsSplit(hit, s, hydrated);
      DropHydrated(restored);
      count := |idx|;
    }
  }

  /** s with the positions from idx[j] on removed. */
  ghost function Cut<V>(idx: seq<nat>, hit: V -> bool, s: seq<V>, j: nat): seq<V>
    requires j <= |idx|
  {
    if j == |idx| then s
    else if idx[j] <= |s| then s[..idx[j]] + Without(hit, s[idx[j]..])
    else s
  }

  lemma ListedEnd<V>(idx: seq<nat>, hit: V -> bool, s: seq<V>)
    ensures Cut(idx, hit, s, |idx|) == s
  {
  }

  /** One more removal. */
  lemma CutStep<V>(idx: seq<nat>, hit: V -> bool, s: seq<V>, j: nat)
    requires Lists(idx, hit, s) && j < |idx|
    ensures var u := Cut(idx, hit, s, j + 1);
      idx[j] < |u| && Cut(idx, hit, s, j) == u[..idx[j]] + u[idx[j] + 1..]
  {
    var q := idx[j];
    var p := if j + 1 == |idx| then |s| else idx[j + 1];
    NothingBetween(idx, hit, s, j);
    assert Without(hit, s[|s|..]) == [];
    assert Cut(idx, hit, s, j + 1) == s[..p] + Without(hit, s[p..]);
    CutOne(hit, s, q, p);
  }

  lemma CutOne<V>(hit: V -> bool, s: seq<V>, q: nat, p: nat)
    requires q < p <= |s| && hit(s[q]) && forall x :: x in s[q + 1..p] ==> !hit(x)
    ensures var u := s[..p] + Without(hit, s[p..]);
      s[..q] + Without(hit, s[q..]) == u[..q] + u[q + 1..]
  {
    hide Without;
    WithoutRun(hit, s[q], s[q + 1..p], s[p..]);
    assert s[q..] == [s[q]] + s[q + 1..p] + s[p..];
    var w := Without(hit, s[p..]);
    assert (s[..p] + w)[..q] == s[..q] && (s[..p] + w)[q + 1..] == s[q + 1..p] + w;
  }

  lemma WithoutRun<V>(hit: V -> bool, x: V, mid: seq<V>, rest: seq<V>)
    requires hit(x) && forall y :: y in mid ==> !hit(y)
    ensures Without(hit, [x] + mid + rest) == mid + Without(hit, rest)
  {
    hide Without;
    WithoutCat(hit, [x] + mid, rest);
    WithoutCat(hit, [x], mid);
    WithoutNone(mid, hit);
    NothingYet(hit);
    OneMore(hit, [], x);
    assert [] + [x] == [x];
    assert [] + mid == mid;
  }

  lemma NothingBetween<V>(idx: seq<nat>, hit: V -> bool, s: seq<V>, j: nat)
    requires Lists(idx, hit, s) && j < |idx|
    ensures var p := if j + 1 == |idx| then |s| else idx[j + 1];
      idx[j] < p <= |s| && forall x :: x in s[idx[j] + 1..p] ==> !hit(x)
  {
    var p := if j + 1 == |idx| then |s| else idx[j + 1];
    forall x | x in s[idx[j] + 1..p] ensures !hit(x) {
      var k :| 0 <= k < |s[idx[j] + 1..p]| && s[idx[j] + 1..p][k] == x;
      var i := idx[j] + 1 + k;
      assert s[i] == x;
      forall a | 0 <= a < |idx| ensures idx[a] != i {
        assert a == j || (a < j && idx[a] < idx[j]) || a == j + 1 || (a > j + 1 && idx[j + 1] < idx[a]);
      }
    }
  }

  lemma NothingBefore<V>(idx: seq<nat>, hit: V -> bool, s: seq<V>)
    requires Lists(idx, hit, s)
    ensures var p := if idx == [] then |s| else idx[0];
      p <= |s| && forall x :: x in s[..p] ==> !hit(x)
  {
    var p := if idx == [] then |s| else idx[0];
    forall x | x in s[..p] ensures !hit(x) {
      var i :| 0 <= i < |s[..p]| && s[..p][i] == x;
      assert s[i] == x;
      forall a | 0 <= a < |idx| ensures idx[a] != i { assert a == 0 || idx[0] < idx[a]; }
    }
  }

  lemma ListedStart<V>(idx: seq<nat>, hit: V -> bool, s: seq<V>)
    requires Lists(idx, hit, s)
    ensures Cut(idx, hit, s, 0) == Without(hit, s)
  {
    hide Lists, Without;
    NothingBefore(idx, hit, s);
    if idx == [] {
      assert s[..|s|] == s;
      WithoutNone(s, hit);
    } else {
      WithoutNone(s[..idx[0]], hit);
      WithoutCat(hit, s[..idx[0]], s[idx[0]..]);
      assert s == s[..idx[0]] + s[idx[0]..];
    }
  }

  lemma CutCounts<V>(idx: seq<nat>, hit: V -> bool, s: seq<V>)
    requires |idx| == Hits(hit, s)
    ensures |Without(hit, s)| == |s| - |idx|
  {
    WithoutSize(hit, s);
  }

  lemma {:induction false} WithoutSize<X>(hit: X -> bool, s: seq<X>)
    ensures |Without(hit, s)| + Hits(hit, s) == |s|
  {
    if s != [] { WithoutSize(hit, s[..|s| - 1]); }
  }
}
