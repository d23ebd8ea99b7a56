/** The heap on a sequence: what a sift keeps, and what undoing a journal of swaps gives back. */
module HeapOrder {
  import opened Basics
  import opened Orders

  function Swapped<X>(s: seq<X>, i: nat, j: nat): (r: seq<X>)
    requires i < |s| && j < |s|
    ensures |r| == |s|
  {
    s[i := s[j]][j := s[i]]
  }

  lemma SwappedFacts<X>(s: seq<X>, i: nat, j: nat)
    requires i < |s| && j < |s|
    ensures multiset(Swapped(s, i, j)) == multiset(s)
    ensures Swapped(Swapped(s, i, j), i, j) == s
  {
  }

  // ---- the journal

  predicate Within(swaps: seq<(nat, nat)>, n: nat)
  {
    forall k :: 0 <= k < |swaps| ==> swaps[k].0 < n && swaps[k].1 < n
  }

  /** The journal replayed backwards. */
  function Undone<X>(s: seq<X>, swaps: seq<(nat, nat)>): (r: seq<X>)
    requires Within(swaps, |s|)
    ensures |r| == |s|
    decreases |swaps|
  {
    if swaps == [] then s
    else
      var e := swaps[|swaps| - 1];
      Undone(Swapped(s, e.0, e.1), swaps[..|swaps| - 1])
  }

  /** A journaled swap is undone first. */
  lemma SwapUndone<X>(s: seq<X>, swaps: seq<(nat, nat)>, i: nat, j: nat)
    requires Within(swaps, |s|) && i < |s| && j < |s|
    ensures Within(swaps + [(i, j)], |s|)
    ensures Undone(Swapped(s, i, j), swaps + [(i, j)]) == Undone(s, swaps)
  {
    SwappedFacts(s, i, j);
    assert (swaps + [(i, j)])[..|swaps|] == swaps;
  }

  /** Undoing does not reach what was appended after the journal began. */
  lemma {:induction false} AppendedStays<X>(s: seq<X>, t: seq<X>, swaps: seq<(nat, nat)>)
    requires Within(swaps, |s|)
    ensures Within(swaps, |s + t|) && Undone(s + t, swaps) == Undone(s, swaps) + t
    decreases |swaps|
  {
    if swaps != [] {
      var e := swaps[|swaps| - 1];
      AppendedStays(Swapped(s, e.0, e.1), t, swaps[..|swaps| - 1]);
      assert Swapped(s + t, e.0, e.1) == Swapped(s, e.0, e.1) + t;
    }
  }

  // ---- the heap

  function Parent(i: nat): nat
    requires i > 0
  {
    (i - 1) / 2
  }

  ghost predicate InOrder<T(!new)>(less: (T, T) -> bool, s: seq<Entry<T>>, i: nat)
    requires 0 < i < |s|
  {
    !PrioritySeqLess(less, s[i], s[Parent(i)])
  }

  /** Heap order between every node in [lo, n) and its children, except below node `hole`, whose children are still in
      order with its parent. */
  ghost predicate Sifting<T(!new)>(less: (T, T) -> bool, s: seq<Entry<T>>, lo: nat, n: nat, hole: nat)
    requires n <= |s|
  {
    && (forall k :: 0 < k < n && lo <= Parent(k) && Parent(k) != hole ==> InOrder(less, s, k))
    && (forall k :: 0 < k < n && Parent(k) == hole && 0 < hole && lo <= Parent(hole) ==>
          !PrioritySeqLess(less, s[k], s[Parent(hole)]))
  }

  /** Heap order everywhere but between node j and its parent; j's children are in order with that parent. */
  ghost predicate Rising<T(!new)>(less: (T, T) -> bool, s: seq<Entry<T>>, j: nat)
  {
    && (forall k :: 0 < k < |s| && k != j ==> InOrder(less, s, k))
    && (forall k :: 0 < k < |s| && Parent(k) == j && 0 < j < |s| ==> !PrioritySeqLess(less, s[k], s[Parent(j)]))
  }

  /** Heap order below every node from lo on. */
  ghost predicate HeapFrom<T(!new)>(less: (T, T) -> bool, s: seq<Entry<T>>, lo: nat, n: nat)
    requires n <= |s|
  {
    forall k :: 0 < k < n && lo <= Parent(k) ==> InOrder(less, s, k)
  }

  ghost predicate Heap<T(!new)>(less: (T, T) -> bool, s: seq<Entry<T>>)
  {
    forall k :: 0 < k < |s| ==> InOrder(less, s, k)
  }

  /** Not-after is transitive. */
  lemma AtLeast<T(!new)>(less: (T, T) -> bool, a: Entry<T>, b: Entry<T>, c: Entry<T>)
    requires StrictWeak(less) && !PrioritySeqLess(less, a, b) && !PrioritySeqLess(less, b, c)
    ensures !PrioritySeqLess(less, a, c)
  {
    PriorityIsStrictTotal(less, a, b, c);
  }

  lemma Asymmetric<T(!new)>(less: (T, T) -> bool, a: Entry<T>, b: Entry<T>)
    requires StrictWeak(less) && PrioritySeqLess(less, a, b)
    ensures !PrioritySeqLess(less, b, a)
  {
    PriorityIsStrictTotal(less, a, b, a);
  }

  lemma RiseStep<T(!new)>(less: (T, T) -> bool, s: seq<Entry<T>>, j: nat)
    requires StrictWeak(less) && 0 < j < |s| && Rising(less, s, j) && !InOrder(less, s, j)
    ensures Rising(less, Swapped(s, Parent(j), j), Parent(j))
  {
    hide StrictWeak, PrioritySeqLess;
    var p := Parent(j);
    var t := Swapped(s, p, j);
    Asymmetric(less, s[j], s[p]);
    forall k | 0 < k < |t| && k != p ensures InOrder(less, t, k) {
      if k != j && Parent(k) == p {
        assert InOrder(less, s, k);
        AtLeast(less, s[k], s[p], s[j]);
      } else if k != j { assert InOrder(less, s, k); }
    }
    forall k | 0 < k < |t| && Parent(k) == p && 0 < p ensures !PrioritySeqLess(less, t[k], t[Parent(p)]) {
      assert InOrder(less, s, p);
      if k != j {
        assert InOrder(less, s, k);
        AtLeast(less, s[k], s[p], s[Parent(p)]);
      }
    }
  }

  /** c is the first of node i's children, and goes before node i. */
  lemma SiftStep<T(!new)>(less: (T, T) -> bool, s: seq<Entry<T>>, lo: nat, n: nat, i: nat, c: nat)
    requires StrictWeak(less) && n <= |s| && lo <= i < n && 0 < c < n && Parent(c) == i
    requires Sifting(less, s, lo, n, i) && !InOrder(less, s, c)
    requires forall k :: 0 < k < n && Parent(k) == i ==> !PrioritySeqLess(less, s[k], s[c])
    ensures Sifting(less, Swapped(s, i, c), lo, n, c)
  {
    hide StrictWeak, PrioritySeqLess;
    var t := Swapped(s, i, c);
    Asymmetric(less, s[c], s[i]);
    forall k | 0 < k < n && lo <= Parent(k) && Parent(k) != c ensures InOrder(less, t, k) {
      if k != i && Parent(k) != i { assert InOrder(less, s, k); }
    }
    forall k | 0 < k < n && Parent(k) == c && lo <= Parent(c) ensures !PrioritySeqLess(less, t[k], t[Parent(c)]) {
      assert InOrder(less, s, k);
    }
  }

  /** Nothing goes before the root. */
  lemma {:induction false} RootIsFirst<T(!new)>(less: (T, T) -> bool, s: seq<Entry<T>>, k: nat)
    requires StrictWeak(less) && Heap(less, s) && k < |s|
    ensures !PrioritySeqLess(less, s[k], s[0])
  {
    hide StrictWeak, PrioritySeqLess;
    if k == 0 {
      PriorityIsStrictTotal(less, s[0], s[0], s[0]);
    } else {
      assert InOrder(less, s, k);
      RootIsFirst(less, s, Parent(k));
      AtLeast(less, s[k], s[Parent(k)], s[0]);
    }
  }

  /** A sorted array is a heap. */
  lemma AscendsIsHeap<T(!new)>(less: (T, T) -> bool, s: seq<Entry<T>>)
    requires StrictWeak(less) && Ascends(less, s)
    ensures Heap(less, s)
  {
    hide StrictWeak, PrioritySeqLess;
    forall k | 0 < k < |s| ensures InOrder(less, s, k) {
      Asymmetric(less, s[Parent(k)], s[k]);
    }
  }

  // ---- the rebuild, by how many comparisons return before one unwinds

  /** What a sift leaves: the array, how many comparisons are left, and whether it finished. */
  datatype Sifted<T> = Sifted(items: seq<Entry<T>>, calls: nat, done: bool)

  /** down from node i among the first n. */
  function SiftDown<T>(less: (T, T) -> bool, s: seq<Entry<T>>, i: nat, n: nat, calls: nat): (r: Sifted<T>)
    requires n <= |s| && (i < n || n == i == 0)
    ensures |r.items| == |s|
    decreases n - i, 1
  {
    var j := 2 * i + 1;
    if j >= n then Sifted(s, calls, true)
    else if j + 1 >= n then SiftPast(less, s, i, n, j, calls)
    else if calls == 0 then Sifted(s, 0, false)
    else SiftPast(less, s, i, n, if PrioritySeqLess(less, s[j + 1], s[j]) then j + 1 else j, calls - 1)
  }

  /** ... once its first child c has been found. */
  function SiftPast<T>(less: (T, T) -> bool, s: seq<Entry<T>>, i: nat, n: nat, c: nat, calls: nat): (r: Sifted<T>)
    requires n <= |s| && i < c < n
    ensures |r.items| == |s|
    decreases n - i, 0
  {
    if calls == 0 then Sifted(s, 0, false)
    else if !PrioritySeqLess(less, s[c], s[i]) then Sifted(s, calls - 1, true)
    else SiftDown(less, Swapped(s, i, c), c, n, calls - 1)
  }

  lemma SiftPicks<T>(less: (T, T) -> bool, s: seq<Entry<T>>, i: nat, n: nat, calls: nat)
    requires n <= |s| && (i < n || n == i == 0)
    ensures var j, r := 2 * i + 1, SiftDown(less, s, i, n, calls);
      && (j >= n ==> r == Sifted(s, calls, true))
      && (j + 1 == n ==> r == SiftPast(less, s, i, n, j, calls))
      && (j + 1 < n && calls == 0 ==> r == Sifted(s, 0, false))
      && (j + 1 < n && calls > 0 ==>
            r == SiftPast(less, s, i, n, if PrioritySeqLess(less, s[j + 1], s[j]) then j + 1 else j, calls - 1))
  {
  }

  lemma SiftPasses<T>(less: (T, T) -> bool, s: seq<Entry<T>>, i: nat, n: nat, c: nat, calls: nat)
    requires n <= |s| && i < c < n
    ensures var r := SiftPast(less, s, i, n, c, calls);
      && (calls == 0 ==> r == Sifted(s, 0, false))
      && (calls > 0 && !PrioritySeqLess(less, s[c], s[i]) ==> r == Sifted(s, calls - 1, true))
      && (calls > 0 && PrioritySeqLess(less, s[c], s[i]) ==> r == SiftDown(less, Swapped(s, i, c), c, n, calls - 1))
  {
  }

  /** The sifts of the k nodes below k, last first. */
  function Heapify<T>(less: (T, T) -> bool, s: seq<Entry<T>>, k: nat, calls: nat): (r: Sifted<T>)
    requires k <= |s|
    ensures |r.items| == |s|
    decreases k
  {
    if k == 0 then Sifted(s, calls, true)
    else
      var r := SiftDown(less, s, k - 1, |s|, calls);
      if r.done then Heapify(less, r.items, k - 1, r.calls) else r
  }

  /** container/heap's Init. */
  function Rebuilt<T>(less: (T, T) -> bool, s: seq<Entry<T>>, calls: nat): Sifted<T>
  {
    Heapify(less, s, |s| / 2, calls)
  }

  lemma SiftLeavesHeap<T(!new)>(less: (T, T) -> bool, s: seq<Entry<T>>, i: nat, calls: nat)
    requires Heap(less, s) && (i < |s| || |s| == i == 0)
    ensures SiftDown(less, s, i, |s|, calls).items == s
  {
    var j := 2 * i + 1;
    if j < |s| { assert InOrder(less, s, j); }
    if j + 1 < |s| { assert InOrder(less, s, j + 1); }
  }

  lemma {:induction false} HeapifyLeavesHeap<T(!new)>(less: (T, T) -> bool, s: seq<Entry<T>>, k: nat, calls: nat)
    requires Heap(less, s) && k <= |s|
    ensures Heapify(less, s, k, calls).items == s
    decreases k
  {
    if k > 0 {
      SiftLeavesHeap(less, s, k - 1, calls);
      HeapifyLeavesHeap(less, s, k - 1, SiftDown(less, s, k - 1, |s|, calls).calls);
    }
  }

  /** The heap order survives a rebuild, at whatever comparison it is unwound, if and only if it was there before. */
  lemma OrderSurvivesUnwindingIff<T(!new)>(less: (T, T) -> bool, s: seq<Entry<T>>)
    ensures (forall calls: nat :: !Rebuilt(less, s, calls).done ==> Heap(less, Rebuilt(less, s, calls).items))
       <==> Heap(less, s)
  {
    if Heap(less, s) {
      forall calls: nat ensures Rebuilt(less, s, calls).items == s { HeapifyLeavesHeap(less, s, |s| / 2, calls); }
    } else {
      UnwoundAtOnce(less, s);
    }
  }

  /** The first comparison comes before the first exchange. */
  lemma UnwoundAtOnce<T(!new)>(less: (T, T) -> bool, s: seq<Entry<T>>)
    requires |s| >= 2
    ensures Rebuilt(less, s, 0) == Sifted(s, 0, false)
  {
    var k := |s| / 2;
    assert 2 * (k - 1) + 1 < |s|;
    assert SiftDown(less, s, k - 1, |s|, 0) == Sifted(s, 0, false);
  }

  // ---- the sort of All, as far as it comes

  /** Entry i + 1 goes before entry i. */
  predicate Inverted<T>(less: (T, T) -> bool, s: seq<Entry<T>>, i: nat)
  {
    i + 1 < |s| && PrioritySeqLess(less, s[i + 1], s[i])
  }

  /** A stable sort exchanges neighbours that are out of order; what its merging rotates past each other between two
      comparisons is out of order pair by pair. */
  predicate Exchanges<T>(less: (T, T) -> bool, s: seq<Entry<T>>, moves: seq<nat>)
    decreases |moves|
  {
    moves == [] ||
    (Inverted(less, s, moves[0]) && Exchanges(less, Swapped(s, moves[0], moves[0] + 1), moves[1..]))
  }

  function Exchanged<T>(less: (T, T) -> bool, s: seq<Entry<T>>, moves: seq<nat>): (r: seq<Entry<T>>)
    requires Exchanges(less, s, moves)
    ensures |r| == |s| && multiset(r) == multiset(s)
    decreases |moves|
  {
    if moves == [] then s
    else
      SwappedFacts(s, moves[0], moves[0] + 1);
      Exchanged(less, Swapped(s, moves[0], moves[0] + 1), moves[1..])
  }

  /** When none is left out of order the sort has come to its end. */
  lemma {:induction false} NoneInvertedAscends<T(!new)>(less: (T, T) -> bool, s: seq<Entry<T>>)
    requires StrictWeak(less) && Distinct(s) && forall i :: 0 <= i < |s| - 1 ==> !Inverted(less, s, i)
    ensures Ascends(less, s)
  {
    hide StrictWeak, PrioritySeqLess;
    forall i, j | 0 <= i < j < |s| ensures PrioritySeqLess(less, s[i], s[j]) { AscendsTo(less, s, i, j); }
  }

  lemma {:induction false} AscendsTo<T(!new)>(less: (T, T) -> bool, s: seq<Entry<T>>, i: nat, j: nat)
    requires StrictWeak(less) && Distinct(s) && i < j < |s| && forall k :: 0 <= k < |s| - 1 ==> !Inverted(less, s, k)
    ensures PrioritySeqLess(less, s[i], s[j])
    decreases j
  {
    hide StrictWeak, PrioritySeqLess;
    assert !Inverted(less, s, j - 1);
    PriorityIsStrictTotal(less, s[j - 1], s[j], s[j]);
    if i < j - 1 {
      AscendsTo(less, s, i, j - 1);
      PriorityIsStrictTotal(less, s[i], s[j - 1], s[j]);
    }
  }

  /** An ascending array is not touched, ... */
  lemma AscendingSurvivesSorting<T(!new)>(less: (T, T) -> bool, s: seq<Entry<T>>, moves: seq<nat>)
    requires StrictWeak(less) && Ascends(less, s) && Exchanges(less, s, moves)
    ensures moves == []
  {
    hide StrictWeak, PrioritySeqLess;
    if moves != [] {
      var i := moves[0];
      assert Inverted(less, s, i) && PrioritySeqLess(less, s[i], s[i + 1]);
      PriorityIsStrictTotal(less, s[i], s[i + 1], s[i]);
    }
  }

  /** ... and of any heap an exchange leaves a heap, if and only if what comes forward is in order with the parent of
      where it comes to, and what goes back with the children of where it goes. */
  lemma ExchangeKeepsHeapIff<T(!new)>(less: (T, T) -> bool, s: seq<Entry<T>>, i: nat)
    requires StrictWeak(less) && Heap(less, s) && Inverted(less, s, i)
    ensures Heap(less, Swapped(s, i, i + 1)) <==>
              && (i > 0 ==> !PrioritySeqLess(less, s[i + 1], s[Parent(i)]))
              && forall k :: 0 < k < |s| && Parent(k) == i + 1 ==> !PrioritySeqLess(less, s[k], s[i])
  {
    hide StrictWeak, PrioritySeqLess;
    var t := Swapped(s, i, i + 1);
    RootStays(less, s, i);
    Asymmetric(less, s[i + 1], s[i]);
    if Heap(less, t) {
      assert i > 0 ==> InOrder(less, t, i);
      forall k | 0 < k < |s| && Parent(k) == i + 1 ensures !PrioritySeqLess(less, s[k], s[i]) {
        assert InOrder(less, t, k);
      }
    } else {
      var k :| 0 < k < |t| && !InOrder(less, t, k);
      assert InOrder(less, s, k) && (i > 0 ==> InOrder(less, s, i)) && InOrder(less, s, i + 1);
      if Parent(k) == i { AtLeast(less, s[k], s[i], s[i + 1]); }
      else if k == i + 1 { AtLeast(less, s[i], s[i + 1], s[Parent(i + 1)]); }
    }
  }

  /** Nothing is exchanged with the root. */
  lemma RootStays<T(!new)>(less: (T, T) -> bool, s: seq<Entry<T>>, i: nat)
    requires Heap(less, s) && Inverted(less, s, i)
    ensures i > 0 && Parent(i + 1) != i
  {
    assert InOrder(less, s, 1);
  }

  /** So up to five entries stay a heap wherever the sort stops. */
  lemma {:induction false} SmallHeapsSurviveSorting<T(!new)>(less: (T, T) -> bool, s: seq<Entry<T>>, moves: seq<nat>)
    requires StrictWeak(less) && Heap(less, s) && |s| <= 5 && Exchanges(less, s, moves)
    ensures Heap(less, Exchanged(less, s, moves))
    decreases |moves|
  {
    hide StrictWeak, PrioritySeqLess;
    if moves != [] {
      var i := moves[0];
      RootStays(less, s, i);
      ExchangeKeepsHeapIff(less, s, i);
      if PrioritySeqLess(less, s[i + 1], s[Parent(i)]) { SmallIsInOrder(less, s, i); }
      SmallHeapsSurviveSorting(less, Swapped(s, i, i + 1), moves[1..]);
    }
  }

  lemma SmallIsInOrder<T(!new)>(less: (T, T) -> bool, s: seq<Entry<T>>, i: nat)
    requires StrictWeak(less) && Heap(less, s) && |s| <= 5 && 0 < i && i + 1 < |s|
    ensures !PrioritySeqLess(less, s[i + 1], s[Parent(i)])
  {
    hide StrictWeak, PrioritySeqLess;
    assert InOrder(less, s, i + 1) && InOrder(less, s, 1);
    if i == 2 { AtLeast(less, s[3], s[1], s[0]); }
  }

  // ... and of more they need not.

  function Numbered(items: seq<int>): (r: seq<Entry<int>>)
    ensures |r| == |items| && forall i :: 0 <= i < |items| ==> r[i] == Entry(i, items[i])
  {
    seq(|items|, i requires 0 <= i < |items| => Entry(i, items[i]))
  }

  predicate IntLess(x: int, y: int)
  {
    x < y
  }

  /** The first exchange takes 1 and 10 past each other, and leaves the 2 below the 10. */
  function Breaks(n: nat): seq<Entry<int>>
    requires n >= 6
  {
    Numbered([0, 10, 1, 11, 12, 2] + seq(n - 6, i => 13 + i))
  }

  lemma LargerHeapsBreak(n: nat)
    requires n >= 6
    ensures var s := Breaks(n);
      |s| == n && Heap(IntLess, s) && Exchanges(IntLess, s, [1]) && !Heap(IntLess, Exchanged(IntLess, s, [1]))
  {
    var s := Breaks(n);
    var t := Swapped(s, 1, 2);
    forall k | 6 <= k < n ensures s[k].item == k + 7 {}
    forall k | 0 < k < n ensures InOrder(IntLess, s, k) { assert k >= 6 ==> s[k].item == k + 7; }
    assert Exchanged(IntLess, s, [1]) == t by { assert [1][1..] == []; }
    assert !InOrder(IntLess, t, 5);
  }

  /** Every heap of n entries survives an unwinding sort, wherever it stops, if and only if n is at most five. */
  lemma HeapsSurviveSortingIff(n: nat)
    ensures (forall s: seq<Entry<int>>, moves ::
               |s| == n && Heap(IntLess, s) && Exchanges(IntLess, s, moves) ==>
                 Heap(IntLess, Exchanged(IntLess, s, moves)))
       <==> n <= 5
  {
    if n <= 5 {
      forall s: seq<Entry<int>>, moves | |s| == n && Heap(IntLess, s) && Exchanges(IntLess, s, moves)
        ensures Heap(IntLess, Exchanged(IntLess, s, moves))
      {
        SmallHeapsSurviveSorting(IntLess, s, moves);
      }
    } else {
      LargerHeapsBreak(n);
    }
  }
}
