/** The priority backing on container/heap. The caller's comparison may unwind at any call; Push and Pop then put the
    array back through the journal, without comparing. */
module PriorityHeap {
  import opened Basics
  import opened Orders
  import opened HeapOrder
  import opened Matching
  import opened Accounting
  import Admission

  lemma {:induction false} UndoneFulls<T>(s: seq<Entry<T>>, swaps: seq<(nat, nat)>)
    requires Within(swaps, |s|)
    ensures Undone(Fulls(s), swaps) == Fulls(Undone(s, swaps))
    decreases |swaps|
  {
    if swaps != [] {
      var e := swaps[|swaps| - 1];
      assert Swapped(Fulls(s), e.0, e.1) == Fulls(Swapped(s, e.0, e.1));
      UndoneFulls(Swapped(s, e.0, e.1), swaps[..|swaps| - 1]);
    }
  }

  /** The array, with the popped entries put back on top, newest lowest, and the journal undone, is `origin`. */
  ghost predicate Records<T>(items: seq<Entry<T>>, swaps: seq<(nat, nat)>, popped: seq<Entry<T>>, origin: seq<Entry<T>>)
  {
    Within(swaps, |items| + |popped|) && Undone(items + Reversed(popped), swaps) == origin
  }

  ghost predicate AllZero<T>(a: seq<Cell<Entry<T>>>)
  {
    forall i :: 0 <= i < |a| ==> a[i].Zero?
  }

  lemma ZeroMore<T>(a: seq<Cell<Entry<T>>>)
    requires AllZero(a)
    ensures AllZero([Zero] + a)
  {
  }

  // Whatever container/heap does between journalOn and the unwind, the record stays true.

  datatype Move<T> = Exchange(i: nat, j: nat) | Append(x: Entry<T>) | RemoveLast

  datatype Journaled<T> = Journaled(items: seq<Entry<T>>, swaps: seq<(nat, nat)>, popped: seq<Entry<T>>)

  predicate CanMove<T>(h: Journaled<T>, m: Move<T>)
  {
    match m
    case Exchange(i, j) => i < |h.items| && j < |h.items|
    case Append(_) => h.popped == []
    case RemoveLast => h.items != []
  }

  function Moved<T>(h: Journaled<T>, m: Move<T>): Journaled<T>
    requires CanMove(h, m)
  {
    match m
    case Exchange(i, j) => h.(items := Swapped(h.items, i, j), swaps := h.swaps + [(i, j)])
    case Append(x) => h.(items := h.items + [x])
    case RemoveLast =>
      var n := |h.items| - 1;
      h.(items := h.items[..n], popped := h.popped + [h.items[n]])
  }

  /** One kind of batch at a time: Push appends and exchanges, Pop exchanges and removes. */
  predicate BatchOf<T>(h: Journaled<T>, moves: seq<Move<T>>, push: bool)
    decreases |moves|
  {
    moves == [] ||
    (CanMove(h, moves[0]) && (if push then !moves[0].RemoveLast? else !moves[0].Append?)
     && BatchOf(Moved(h, moves[0]), moves[1..], push))
  }

  function AfterMoves<T>(h: Journaled<T>, moves: seq<Move<T>>, push: bool): Journaled<T>
    requires BatchOf(h, moves, push)
    decreases |moves|
  {
    if moves == [] then h else AfterMoves(Moved(h, moves[0]), moves[1..], push)
  }

  lemma ExchangeRecorded<T>(items: seq<Entry<T>>, swaps: seq<(nat, nat)>, popped: seq<Entry<T>>, i: nat, j: nat,
                            origin: seq<Entry<T>>)
    requires i < |items| && j < |items| && Records(items, swaps, popped, origin)
    ensures Records(Swapped(items, i, j), swaps + [(i, j)], popped, origin)
  {
    hide Undone, Reversed;
    var tail := Reversed(popped);
    SwapUndone(items + tail, swaps, i, j);
    assert Swapped(items + tail, i, j) == Swapped(items, i, j) + tail;
  }

  lemma AppendRecorded<T>(items: seq<Entry<T>>, swaps: seq<(nat, nat)>, x: Entry<T>, origin: seq<Entry<T>>)
    requires Records(items, swaps, [], origin)
    ensures Records(items + [x], swaps, [], origin + [x])
  {
    hide Undone;
    assert items + Reversed([]) == items && items + [x] + Reversed([]) == items + [x];
    AppendedStays(items, [x], swaps);
  }

  lemma MoveIsRecorded<T>(h: Journaled<T>, m: Move<T>, origin: seq<Entry<T>>)
    requires CanMove(h, m) && Records(h.items, h.swaps, h.popped, origin)
    ensures var k := Moved(h, m);
      Records(k.items, k.swaps, k.popped, if m.Append? then origin + [m.x] else origin)
  {
    hide Records;
    match m
    case Exchange(i, j) => ExchangeRecorded(h.items, h.swaps, h.popped, i, j, origin);
    case Append(x) => AppendRecorded(h.items, h.swaps, x, origin);
    case RemoveLast => PopRecorded(h.items, h.swaps, h.popped, origin);
  }

  /** A Pop stopped after any moves is undone to the array it began with; a Push, to that array with the new entries
      after it, which the rollback then cuts off. */
  lemma {:induction false} AnyMovesCanBeUndone<T>(h: Journaled<T>, moves: seq<Move<T>>, push: bool,
                                                  origin: seq<Entry<T>>)
    returns (more: seq<Entry<T>>)
    requires BatchOf(h, moves, push) && Records(h.items, h.swaps, h.popped, origin)
    ensures var k := AfterMoves(h, moves, push);
      Records(k.items, k.swaps, k.popped, origin + more) && (!push ==> more == [])
    decreases |moves|
  {
    hide Records, Moved;
    more := [];
    if moves == [] {
      assert origin + more == origin;
    } else {
      MoveIsRecorded(h, moves[0], origin);
      if moves[0].Append? {
        var rest := AnyMovesCanBeUndone(Moved(h, moves[0]), moves[1..], push, origin + [moves[0].x]);
        more := [moves[0].x] + rest;
        assert origin + [moves[0].x] + rest == origin + more;
      } else {
        more := AnyMovesCanBeUndone(Moved(h, moves[0]), moves[1..], push, origin);
      }
    }
  }

  // The three loops of rollback.

  /** The i-th pop took the entry at top-1-i. */
  method PutBack<T>(a0: seq<Cell<Entry<T>>>, top: nat, popped: seq<Entry<T>>) returns (a: seq<Cell<Entry<T>>>)
    requires |popped| <= top && (popped != [] ==> top == |a0|)
    ensures a == a0[..|a0| - |popped|] + Fulls(Reversed(popped))
  {
    a := a0;
    var i := 0;
    while i < |popped|
      invariant 0 <= i <= |popped| && |a| == |a0| && a[..|a0| - |popped|] == a0[..|a0| - |popped|]
      invariant forall k :: 0 <= k < i ==> a[top - 1 - k] == Full(popped[k])
    {
      a := a[top - 1 - i := Full(popped[i])];
      i := i + 1;
    }
  }

  method Replay<X>(a0: seq<X>, swaps: seq<(nat, nat)>) returns (a: seq<X>)
    requires Within(swaps, |a0|)
    ensures a == Undone(a0, swaps)
  {
    a := a0;
    var i := |swaps|;
    assert swaps[..i] == swaps;
    while i > 0
      invariant 0 <= i <= |swaps| && |a| == |a0| && Within(swaps[..i], |a0|)
      invariant Undone(a, swaps[..i]) == Undone(a0, swaps)
    {
      i := i - 1;
      var e := swaps[i];
      assert swaps[..i + 1][..i] == swaps[..i];
      a := a[e.0 := a[e.1]][e.1 := a[e.0]];
    }
  }

  method ClearFrom<T>(a0: seq<Cell<Entry<T>>>, from: nat) returns (a: seq<Cell<Entry<T>>>)
    requires from <= |a0|
    ensures |a| == |a0| && a[..from] == a0[..from] && forall k :: from <= k < |a| ==> a[k].Zero?
  {
    a := a0;
    var i := from;
    while i < |a|
      invariant from <= i <= |a| == |a0| && a[..from] == a0[..from]
      invariant forall k :: from <= k < i ==> a[k].Zero?
    {
      a := a[i := Zero];
      i := i + 1;
    }
  }

  class Backing<T(!new)> {
    const less: (T, T) -> bool
    const equal: (T, T) -> bool
    var items: seq<Entry<T>>      // the slice's elements
    var beyond: seq<Cell<Entry<T>>>      // its storage past them, up to capacity
    var swaps: seq<(nat, nat)>
    var journal: bool
    var calls: nat                // comparisons that will return before one unwinds
    var nextSeq: nat
    var hydrateEnd: nat
    var hydrated: int

    constructor (less: (T, T) -> bool, equal: (T, T) -> bool, calls: nat)
      ensures Valid() && items == [] && nextSeq == hydrateEnd == hydrated == 0
      ensures this.less == less && this.equal == equal && this.calls == calls
    {
      this.less, this.equal, this.calls := less, equal, calls;
      items, beyond, swaps, journal, nextSeq, hydrateEnd, hydrated := [], [], [], false, 0, 0, 0;
    }

    /** No storage past the elements holds on to an item. */
    ghost predicate Clean()
      reads `beyond
    {
      AllZero(beyond)
    }

    ghost predicate Recording(popped: seq<Entry<T>>, origin: seq<Entry<T>>)
      reads `items, `swaps, `journal
    {
      journal && Records(items, swaps, popped, origin)
    }

    method Less(i: nat, j: nat) returns (done: bool, r: bool)
      requires i < |items| && j < |items|
      modifies `calls
      ensures done ==> r == PrioritySeqLess(less, items[i], items[j])
      ensures done == (old(calls) > 0) && calls == if done then old(calls) - 1 else 0
    {
      if calls == 0 { return false, false; }
      calls := calls - 1;
      return true, PrioritySeqLess(less, items[i], items[j]);
    }

    method Swap(i: nat, j: nat, ghost popped: seq<Entry<T>>, ghost origin: seq<Entry<T>>)
      requires i < |items| && j < |items|
      modifies `items, `swaps
      ensures items == Swapped(old(items), i, j) && multiset(items) == multiset(old(items))
      ensures !journal ==> swaps == old(swaps)
      ensures old(Recording(popped, origin)) ==> Recording(popped, origin)
    {
      SwappedFacts(items, i, j);
      if journal {
        if Within(swaps, |items| + |popped|) {
          SwapUndone(items + Reversed(popped), swaps, i, j);
          assert Swapped(items + Reversed(popped), i, j) == Swapped(items, i, j) + Reversed(popped);
        }
        swaps := swaps + [(i, j)];
      }
      items := items[i := items[j]][j := items[i]];
    }

    /** up of container/heap. */
    method Up(j0: nat, ghost popped: seq<Entry<T>>, ghost origin: seq<Entry<T>>) returns (done: bool)
      requires j0 < |items|
      modifies `items, `swaps, `calls
      ensures |items| == |old(items)| && multiset(items) == multiset(old(items))
      ensures old(Recording(popped, origin)) ==> Recording(popped, origin)
      ensures !done ==> calls == 0
      ensures done && StrictWeak(less) && old(Rising(less, items, j0)) ==> Heap(less, items)
    {
      hide StrictWeak, PrioritySeqLess, Recording;
      var j: nat := j0;
      ghost var sound := StrictWeak(less) && Rising(less, items, j0);
      while true
        invariant j < |items| == |old(items)| && multiset(items) == multiset(old(items))
        invariant old(Recording(popped, origin)) ==> Recording(popped, origin)
        invariant sound ==> Rising(less, items, j)
        decreases j
      {
        if j == 0 { return true; }
        var i := Parent(j);
        var ok, before := Less(j, i);
        if !ok { return false; }
        if !before { return true; }
        if sound { RiseStep(less, items, j); }
        Swap(i, j, popped, origin);
        j := i;
      }
    }

    /** The child of i that goes first; only if there are two are they compared. */
    method FirstOfTwo(i: nat, n: nat) returns (ok: bool, c: nat)
      requires 2 * i + 1 < n <= |items|
      modifies `calls
      ensures 0 < c < n && Parent(c) == i && (!ok ==> calls == 0)
      ensures ok && StrictWeak(less) ==>
        forall k :: 0 < k < n && Parent(k) == i ==> !PrioritySeqLess(less, items[k], items[c])
      ensures SiftDown(less, items, i, n, old(calls)) ==
        if ok then SiftPast(less, items, i, n, c, calls) else Sifted(items, 0, false)
    {
      hide StrictWeak, PrioritySeqLess, SiftDown, SiftPast;
      SiftPicks(less, items, i, n, calls);
      c := 2 * i + 1;
      ok := true;
      if c + 1 < n {
        var before;
        ok, before := Less(c + 1, c);
        if ok && before {
          if StrictWeak(less) { Asymmetric(less, items[c + 1], items[c]); }
          c := c + 1;
        }
      }
      if ok && StrictWeak(less) { FirstChild(less, items, n, i, c); }
    }

    /** down of container/heap, on the first n elements. */
    method Down(i0: nat, n: nat, ghost lo: nat, ghost popped: seq<Entry<T>>, ghost origin: seq<Entry<T>>)
      returns (done: bool)
      requires lo <= i0 && n <= |items| && (i0 < n || n == i0 == 0)
      modifies `items, `swaps, `calls
      ensures |items| == |old(items)| && multiset(items) == multiset(old(items))
      ensures items[n..] == old(items)[n..]
      ensures old(Recording(popped, origin)) ==> Recording(popped, origin)
      ensures !done ==> calls == 0
      ensures done && StrictWeak(less) && old(Sifting(less, items, lo, n, i0)) ==> HeapFrom(less, items, lo, n)
      ensures Sifted(items, calls, done) == SiftDown(less, old(items), i0, n, old(calls))
    {
      hide StrictWeak, PrioritySeqLess, Recording, SiftDown, SiftPast, Sifting, HeapFrom;
      var i: nat := i0;
      ghost var sound := StrictWeak(less) && Sifting(less, items, lo, n, i0);
      while true
        invariant n <= |items| == |old(items)| && multiset(items) == multiset(old(items))
        invariant items[n..] == old(items)[n..]
        invariant lo <= i && (i < n || n == i == 0)
        invariant old(Recording(popped, origin)) ==> Recording(popped, origin)
        invariant sound ==> Sifting(less, items, lo, n, i)
        invariant SiftDown(less, items, i, n, calls) == SiftDown(less, old(items), i0, n, old(calls))
        decreases n - i
      {
        SiftPicks(less, items, i, n, calls);
        var j := 2 * i + 1;
        if j >= n {
          if sound { NoChildren(less, items, lo, n, i); }
          return true;
        }
        var ok, before;
        ok, j := FirstOfTwo(i, n);
        if !ok { return false; }
        SiftPasses(less, items, i, n, j, calls);
        ok, before := Less(j, i);
        if !ok { return false; }
        if !before {
          if sound { LastSift(less, items, lo, n, i, j); }
          return true;
        }
        if sound { SiftStep(less, items, lo, n, i, j); }
        Swap(i, j, popped, origin);
        i := j;
      }
    }

    method JournalOn()
      modifies `swaps, `journal
      ensures Recording([], items) && swaps == []
    {
      journal, swaps := true, [];
    }

    method JournalOff()
      modifies `swaps, `journal
      ensures !journal && swaps == []
    {
      journal, swaps := false, [];
    }

    /** Puts the array back, running no comparison: the popped entries on top, newest lowest, then the journal
        backwards, then whatever a Push had added cleared away. */
    method Rollback(origLen: nat, popped: seq<Entry<T>>, ghost origin: seq<Entry<T>>)
      requires Clean() && Recording(popped, origin) && origLen <= |origin|
      requires popped != [] ==> |origin| == origLen
      requires |popped| <= |beyond|
      modifies `items, `beyond, `swaps, `journal
      ensures items == origin[..origLen] && Clean() && !journal && swaps == []
      ensures |items| + |beyond| == |old(items)| + |old(beyond)|
    {
      hide Undone;
      var work := if origLen > |items| then origLen else |items|;
      var a := Fulls(items) + beyond[..work - |items|];
      var rest := beyond[work - |items|..];
      a := PutBack(a, origLen, popped);
      assert a == Fulls(items + Reversed(popped));
      UndoneFulls(items + Reversed(popped), swaps);
      a := Replay(a, swaps);
      a := ClearFrom(a, origLen);
      items := Items(a[..origLen]);
      beyond := a[origLen..] + rest;
      JournalOff();
    }

    // ---- the backing's critical sections

    /** What every operation keeps, however it ends. */
    ghost predicate Sound()
      reads this
    {
      Clean() && !journal && Numbered() && Uncharged() >= 0
    }

    /** How much of the exemption is for restored entries that have left. */
    ghost function Uncharged(): int
      reads `items, `hydrated, `hydrateEnd
    {
      hydrated - Restored(items, hydrateEnd)
    }

    ghost predicate Ordered()
      reads `items
    {
      StrictWeak(less) ==> Heap(less, items)
    }

    /** The heap as the queue sees it between operations, unless a Del has unwound. */
    ghost predicate Valid()
      reads this
    {
      Sound() && Uncharged() == 0 && Ordered()
    }

    ghost predicate Numbered()
      reads `items, `nextSeq
    {
      Distinct(items) && forall x :: x in items ==> x.seqNo < nextSeq
    }

    /** heap.Push; growing the slice, if it must, leaves `spare` slots of new capacity. */
    method HeapPush(x: Entry<T>, spare: nat, ghost origin: seq<Entry<T>>) returns (done: bool)
      requires Clean()
      modifies `items, `beyond, `swaps, `calls
      ensures Clean() && |items| == |old(items)| + 1 && multiset(items) == multiset(old(items)) + multiset{x}
      ensures old(Recording([], origin)) ==> Recording([], origin + [x])
      ensures !done ==> calls == 0
      ensures done && StrictWeak(less) && old(Heap(less, items)) ==> Heap(less, items)
    {
      hide StrictWeak, Heap, Rising, Records;
      ghost var was := items;
      ghost var sound := StrictWeak(less) && Heap(less, was);
      if Recording([], origin) { AppendRecorded(items, swaps, x, origin); }
      items := items + [x];
      beyond := if |beyond| > 0 then beyond[1..] else seq(spare, _ => Zero);
      if sound { AppendRises(less, was, x); }
      done := Up(|items| - 1, [], origin + [x]);
    }

    /** The loop of PushBatch: `more` is what has been appended, whether it has risen to its place or not. */
    method PushLoop(vs: seq<T>, spare: nat, ghost was: seq<Entry<T>>) returns (done: bool, ghost more: seq<Entry<T>>)
      requires Clean() && items == was && Recording([], was)
      modifies `items, `beyond, `swaps, `calls, `nextSeq
      ensures Clean() && Recording([], was + more) && (!done ==> calls == 0)
      ensures done ==> nextSeq == old(nextSeq) + |vs|
      ensures done ==> multiset(items) == multiset(was) + multiset(Arrivals(vs, old(nextSeq)))
      ensures done && StrictWeak(less) && Heap(less, was) ==> Heap(less, items)
    {
      hide Heap, Recording, StrictWeak, Backing.Clean, Arrived;
      ghost var startSeq := nextSeq;
      done, more := true, [];
      assert was + more == was;
      NoneArrived(was, vs, startSeq);
      var i := 0;
      while i < |vs| && done
        invariant 0 <= i <= |vs| && Clean() && nextSeq == startSeq + i && (!done ==> calls == 0)
        invariant done ==> Arrived(was, vs, i, startSeq, items)
        invariant done && StrictWeak(less) && Heap(less, was) ==> Heap(less, items)
        invariant Recording([], was + more)
        decreases |vs| - i, if done then 1 else 0
      {
        var x := Entry(nextSeq, vs[i]);
        ghost var before := items;
        done := HeapPush(x, spare, was + more);
        assert was + more + [x] == was + (more + [x]);
        more := more + [x];
        if done {
          OneMoreArrived(was, vs, i, startSeq, before, items);
          nextSeq := nextSeq + 1;
          i := i + 1;
        }
      }
      if done { AllArrived(was, vs, i, startSeq, items); }
    }

    /** The insert of Push: all of the batch, or, if a comparison unwinds, none of it. */
    method PushBatch(vs: seq<T>, spare: nat) returns (done: bool)
      requires Sound() && hydrateEnd <= nextSeq
      modifies `items, `beyond, `swaps, `journal, `calls, `nextSeq
      ensures Sound() && Uncharged() == old(Uncharged()) && (old(Ordered()) ==> Ordered())
      ensures !done ==> items == old(items) && nextSeq == old(nextSeq) && calls == 0
      ensures done ==> multiset(items) == multiset(old(items)) + multiset(Arrivals(vs, old(nextSeq)))
      ensures done ==> nextSeq == old(nextSeq) + |vs|
    {
      hide Heap, Recording, StrictWeak, Restored, Backing.Clean, AllZero;
      ghost var was := items;
      var startLen, startSeq := |items|, nextSeq;
      JournalOn();
      ghost var more;
      done, more := PushLoop(vs, spare, was);
      if !done {
        Rollback(startLen, [], was + more);
        assert (was + more)[..startLen] == was;
        nextSeq := startSeq;
      } else {
        JournalOff();
        ArrivalsAreNew(was, vs, startSeq, hydrateEnd, items);
      }
    }

    /** The heap's own Pop: the last slot is zeroed and let go. */
    method CutLast(ghost popped: seq<Entry<T>>, ghost origin: seq<Entry<T>>)
      requires Clean() && items != []
      modifies `items, `beyond
      ensures Clean() && items == old(items)[..|old(items)| - 1] && |beyond| == |old(beyond)| + 1
      ensures old(Recording(popped, origin)) ==> Recording(popped + [old(items)[|old(items)| - 1]], origin)
    {
      hide AllZero, Records;
      if Records(items, swaps, popped, origin) { PopRecorded(items, swaps, popped, origin); }
      items := items[..|items| - 1];
      ZeroMore(beyond);
      beyond := [Zero] + beyond;
    }

    /** heap.Pop. If no comparison unwinds, x goes before everything left. */
    method HeapPop(ghost popped: seq<Entry<T>>, ghost origin: seq<Entry<T>>) returns (done: bool, x: Entry<T>)
      requires Clean() && items != []
      modifies `items, `beyond, `swaps, `calls
      ensures Clean()
      ensures !done ==> |items| == |old(items)| && multiset(items) == multiset(old(items)) && beyond == old(beyond)
      ensures !done ==> calls == 0
      ensures done ==> |items| == |old(items)| - 1 && |beyond| == |old(beyond)| + 1 && x == old(items)[0]
      ensures done ==> multiset(items) + multiset{x} == multiset(old(items))
      ensures old(Recording(popped, origin)) ==> Recording(if done then popped + [x] else popped, origin)
      ensures done && StrictWeak(less) && old(Heap(less, items)) ==>
        Heap(less, items) && forall y :: y in items ==> !PrioritySeqLess(less, y, x)
    {
      hide StrictWeak, PrioritySeqLess, Recording, Heap, Sifting, HeapFrom, AllZero, Swapped;
      ghost var was := items;
      ghost var sound := StrictWeak(less) && Heap(less, items);
      var n := |items| - 1;
      Swap(0, n, popped, origin);
      SwapEnds(was);
      if sound { SiftsFromRoot(less, was); }
      done := Down(0, n, 0, popped, origin);
      x := items[n];
      if !done { return; }
      assert items[n..] == [was[0]];
      ghost var now := items;
      CutLast(popped, origin);
      assert now == items + [x];
      Joined(items, [], items, x);
      if sound { LeavesHeap(less, was, now, x, items); }
    }

    /** The exemption pays for the restored entries among those that left. */
    method DropHydrated(gone: seq<Entry<T>>)
      requires Restored(gone, hydrateEnd) <= hydrated
      modifies `hydrated
      ensures hydrated == old(hydrated) - Restored(gone, hydrateEnd)
    {
      var i := 0;
      while i < |gone|
        invariant 0 <= i <= |gone| && hydrated == old(hydrated) - Restored(gone[..i], hydrateEnd)
      {
        RestoredGrows(gone, i, hydrateEnd);
        if gone[i].seqNo < hydrateEnd && hydrated > 0 { hydrated := hydrated - 1; }
        i := i + 1;
      }
      assert gone[..i] == gone;
    }

    method PopLoop(k: nat, ghost was: seq<Entry<T>>) returns (done: bool, popped: seq<Entry<T>>)
      requires Clean() && items == was && k <= |was| && Recording([], was) && Distinct(was)
      modifies `items, `beyond, `swaps, `calls
      ensures Clean() && Recording(popped, was) && |items| + |popped| == |was| && |popped| <= |beyond|
      ensures multiset(items) + multiset(popped) == multiset(was)
      ensures if done then |popped| == k else calls == 0
      ensures done && popped != [] ==> popped[0] == was[0]
      ensures done && StrictWeak(less) && Heap(less, was) ==> Heap(less, items) && Ahead(less, popped, items)
    {
      hide Heap, Records, StrictWeak, PrioritySeqLess, Ahead;
      popped, done := [], true;
      NobodyAhead(less, items);
      while |popped| < k && done
        invariant |items| + |popped| == |was| && |popped| <= k && |popped| <= |beyond| && Clean()
        invariant !done ==> calls == 0
        invariant done ==> if popped == [] then items == was else popped[0] == was[0]
        invariant multiset(items) + multiset(popped) == multiset(was)
        invariant Recording(popped, was)
        invariant done && StrictWeak(less) && Heap(less, was) ==> Heap(less, items) && Ahead(less, popped, items)
        decreases k - |popped|, if done then 1 else 0
      {
        ghost var before := items;
        var x;
        done, x := HeapPop(popped, was);
        if done {
          if StrictWeak(less) && Heap(less, was) { TakeAhead(less, popped, before, x, items, was); }
          popped := popped + [x];
        }
      }
    }

    /** Pop, from the journal to the end: n entries at most, in order; or, if a comparison unwinds or the Backup does
        not take the mirror, none, and the array as it was. */
    method PopBatch(n: nat, backup: Admission.Outcome) returns (done: bool, popped: seq<Entry<T>>)
      requires Sound()
      modifies `items, `beyond, `swaps, `journal, `calls, `hydrated
      ensures Sound() && Uncharged() == old(Uncharged()) && (old(Ordered()) ==> Ordered())
      ensures !done ==> items == old(items) && hydrated == old(hydrated) && (calls == 0 || !backup.Ok?)
      ensures done ==> backup.Ok? && multiset(items) + multiset(popped) == multiset(old(items))
      ensures done ==> |popped| == if n < |old(items)| then n else |old(items)|
      ensures done && StrictWeak(less) && old(Ordered()) ==>
        popped == Sorted(less, old(items))[..|popped|] && Sorted(less, items) == Sorted(less, old(items))[|popped|..]
      ensures done && popped != [] ==> popped[0] == old(items)[0]
      ensures done ==> hydrated == old(hydrated) - Restored(popped, hydrateEnd)
    {
      hide Heap, Records, StrictWeak, Restored, PrioritySeqLess, Sorted, Ahead;
      ghost var was := items;
      var startLen := |items|;
      JournalOn();
      done, popped := PopLoop(if n < |items| then n else |items|, was);
      if !done || !backup.Ok? {
        Rollback(startLen, popped, was);
        assert was[..startLen] == was;
        return false, popped;
      }
      JournalOff();
      RemovedAreCounted(was, items, popped, hydrateEnd);
      if StrictWeak(less) && Heap(less, was) { AheadIsFront(less, popped, items, was); }
      DropHydrated(popped);
    }

    /** heap.Init. */
    method Init() returns (done: bool)
      requires !journal
      modifies `items, `swaps, `calls
      ensures |items| == |old(items)| && multiset(items) == multiset(old(items))
      ensures !done ==> calls == 0
      ensures done && StrictWeak(less) ==> Heap(less, items)
      ensures Sifted(items, calls, done) == Rebuilt(less, old(items), old(calls))
    {
      hide SiftDown, SiftPast, PrioritySeqLess;
      var n := |items|;
      var i := n / 2;
      while i > 0
        invariant 0 <= i <= n / 2 && |items| == n && multiset(items) == multiset(old(items))
        invariant StrictWeak(less) ==> HeapFrom(less, items, i, n)
        invariant Heapify(less, items, i, calls) == Heapify(less, old(items), n / 2, old(calls))
      {
        i := i - 1;
        done := Down(i, n, i, [], []);
        if !done { return false; }
      }
      return true;
    }

    method Partition(v: seq<T>) returns (kept: seq<Entry<T>>, removed: seq<Entry<T>>)
      ensures kept == Without(HitEntry(equal, v), items)
      ensures multiset(kept) + multiset(removed) == multiset(items) && |kept| + |removed| == |items|
      ensures |removed| == Hits(HitEntry(equal, v), items)
    {
      hide Without, Hits, Matches;
      kept, removed := [], [];
      NothingYet(HitEntry(equal, v));
      var i := 0;
      while i < |items|
        invariant 0 <= i <= |items|
        invariant kept == Without(HitEntry(equal, v), items[..i]) && |removed| == Hits(HitEntry(equal, v), items[..i])
        invariant multiset(kept) + multiset(removed) == multiset(items[..i]) && |kept| + |removed| == i
      {
        assert items[..i + 1] == items[..i] + [items[i]];
        OneMore(HitEntry(equal, v), items[..i], items[i]);
        var yes := MatchesAny(equal, items[i].item, v);
        Joined(kept, removed, items[..i], items[i]);
        if yes { removed := removed + [items[i]]; } else { kept := kept + [items[i]]; }
        i := i + 1;
      }
      assert items[..i] == items;
    }

    /** Del: every entry equal to one of v, or, if the side effect or the Backup refuses, none. If a comparison unwinds
        out of the rebuild the entries are gone and the array is as far as the rebuild has come; the exemption has not
        been charged, and is right exactly if no restored entry was asked for. */
    method Del(v: seq<T>, takes: bool) returns (done: bool, count: nat)
      requires Sound()
      modifies `items, `beyond, `swaps, `calls, `hydrated
      ensures Sound() && (done && old(Ordered()) ==> Ordered()) && (done && items != old(items) ==> Ordered())
      ensures takes ==> multiset(items) == multiset(Without(HitEntry(equal, v), old(items)))
      ensures done ==> count == |old(items)| - |items| && Uncharged() == old(Uncharged())
      ensures !takes ==> done && items == old(items)
      ensures !done ==> takes && calls == 0 && hydrated == old(hydrated) && |items| < |old(items)|
      ensures takes && Without(HitEntry(equal, v), old(items)) != old(items) ==>
        Sifted(items, calls, done) == Rebuilt(less, Without(HitEntry(equal, v), old(items)), old(calls))
      ensures !done ==>
        (Uncharged() == old(Uncharged()) <==> NothingRestored(old(items), HitEntry(equal, v), hydrateEnd))
      ensures !done && Heap(less, Without(HitEntry(equal, v), old(items))) ==> Heap(less, items)
    {
      hide Heap, StrictWeak, Restored, AllZero, Without, Hits, HitEntry, Rebuilt;
      ghost var was := items;
      var kept, removed := Partition(v);
      if removed == [] || !takes {
        if removed == [] { NothingHit(HitEntry(equal, v), was, 0); }
        return true, 0;
      }
      items := kept;
      beyond := seq(|removed|, _ => Zero);
      NoneHeld<T>(|removed|);
      done := Init();
      RemovedAreCounted(was, items, removed, hydrateEnd);
      if !done {
        RemovedAreHit(was, HitEntry(equal, v), removed, hydrateEnd);
        if Heap(less, kept) { RebuildLeavesHeap(less, kept, old(calls)); }
        return false, 0;
      }
      DropHydrated(removed);
      count := |removed|;
    }

    /** Clear, unless the side effect or the Backup refuses. On an empty heap it does nothing, so does not put right an
        exemption that an unwound Del has left too large. */
    method Clear(takes: bool)
      requires Sound()
      modifies `items, `beyond, `hydrated
      ensures Sound()
      ensures if takes && old(items) != [] then Valid() && items == [] && hydrated == 0
              else items == old(items) && beyond == old(beyond) && hydrated == old(hydrated)
      ensures takes ==> (Valid() <==> old(items != [] || Uncharged() == 0))
    {
      if |items| == 0 || !takes { return; }
      beyond := seq(|items|, _ => Zero) + beyond;
      items := [];
      hydrated := 0;
    }

    method ExchangeAll(moves: seq<nat>)
      requires Exchanges(less, items, moves)
      modifies `items
      ensures items == Exchanged(less, old(items), moves)
    {
      hide Exchanges, Exchanged, Halfway;
      ghost var was := items;
      var k := 0;
      ExchangesBegin(less, items, moves);
      while k < |moves|
        invariant 0 <= k <= |moves| && Halfway(less, was, moves, k, items)
      {
        var i := moves[k];
        ExchangeStep(less, was, moves, k, items);
        items := items[i := items[i + 1]][i + 1 := items[i]];
        k := k + 1;
      }
      ExchangesEnd(less, was, moves, items);
    }

    /** The in-place sort of All: exchanges of neighbours, until none is out of order or a comparison unwinds. Sorting
        keeps the heap, so Push and Pop go on from it; a sort cut short need not. */
    method SortInPlace(moves: seq<nat>, unwinds: bool)
      requires Sound() && StrictWeak(less) && Exchanges(less, items, moves)
      requires !unwinds ==> forall i :: 0 <= i < |items| - 1 ==> !Inverted(less, Exchanged(less, items, moves), i)
      modifies `items
      ensures Sound() && Uncharged() == old(Uncharged()) && items == Exchanged(less, old(items), moves)
      ensures !unwinds ==> Ordered() && items == Sorted(less, old(items))
      ensures old(Ascends(less, items)) ==> items == old(items)
      ensures old(Ordered()) && |items| <= 5 ==> Ordered()
    {
      hide Restored, Heap, StrictWeak, Ascends, Sorted, Inverted, Exchanges, Exchanged, AllZero;
      ghost var was := items;
      ExchangeAll(moves);
      SameEntries(was, items, nextSeq, hydrateEnd);
      if !unwinds { EndOfSort(less, was, items); }
      if Ascends(less, was) {
        AscendingSurvivesSorting(less, was, moves);
        NothingExchanged(less, was);
      }
      if Heap(less, was) && |was| <= 5 { SmallHeapsSurviveSorting(less, was, moves); }
    }

    /** Peek shows what Pop would give first. */
    lemma RootIsSortedFirst()
      requires Valid() && StrictWeak(less) && items != []
      ensures items[0] == Sorted(less, items)[0]
    {
      var s := Sorted(less, items);
      SortedAscends(less, items);
      assert s[0] in multiset(items) && items[0] in multiset(s);
      IsAfterRoot(less, items, s[0]);
      var i :| 0 <= i < |s| && s[i] == items[0];
    }

    /** Hydrate: the restored items, in the Backup's order, heapified once. */
    method Hydrate(vs: seq<T>) returns (done: bool)
      requires Valid() && items == [] && nextSeq == hydrated == 0
      modifies `items, `beyond, `swaps, `calls, `nextSeq, `hydrateEnd, `hydrated
      ensures done ==> Valid() && multiset(items) == multiset(Arrivals(vs, 0))
      ensures Sifted(items, calls, done) == Rebuilt(less, Arrivals(vs, 0), old(calls))
      ensures Sound() && Uncharged() == 0
      ensures hydrated == hydrateEnd == nextSeq == |vs|
    {
      hide Heap, StrictWeak, Restored, Rebuilt;
      var i := 0;
      while i < |vs|
        invariant 0 <= i <= |vs| && items == Arrivals(vs[..i], 0) && nextSeq == hydrated == i && calls == old(calls)
      {
        assert Arrivals(vs[..i + 1], 0) == Arrivals(vs[..i], 0) + [Entry(i, vs[i])];
        items := items + [Entry(nextSeq, vs[i])];
        nextSeq := nextSeq + 1;
        hydrated := hydrated + 1;
        i := i + 1;
      }
      assert vs[..i] == vs;
      ghost var was := items;
      done := Init();
      hydrateEnd := nextSeq;
      beyond := [];
      AllRestored(was, hydrateEnd);
      RestoredPermutes(was, items, hydrateEnd);
      DistinctPermutes(was, items);
      forall x | x in items ensures x.seqNo < nextSeq { assert x in multiset(items); assert x in was; }
    }
  }

  lemma ZeroFiveOneIsAHeap(less: (int, int) -> bool)
    requires forall x, y :: less(x, y) == (x < y)
    ensures Arrivals([0, 5, 1], 0) == [Entry(0, 0), Entry(1, 5), Entry(2, 1)]
    ensures Rebuilt(less, Arrivals([0, 5, 1], 0), 2) == Sifted(Arrivals([0, 5, 1], 0), 0, true)
  {
    var s := Arrivals([0, 5, 1], 0);
    assert Arrivals([0, 5, 1], 0) == [Entry(0, 0), Entry(1, 5), Entry(2, 1)];
    SiftPicks(less, s, 0, 3, 2);
    SiftPasses(less, s, 0, 3, 2, 1);
  }

  lemma OnlyZeroGoes(equal: (int, int) -> bool)
    requires forall x, y :: equal(x, y) == (x == y)
    ensures Without(HitEntry(equal, [0]), [Entry(0, 0), Entry(1, 5), Entry(2, 1)]) == [Entry(1, 5), Entry(2, 1)]
  {
    var hit := HitEntry(equal, [0]);
    assert forall x :: Matches(equal, x, [0]) == (x == 0) by { assert [0][0] == 0; }
    NothingYet(hit);
    OneMore(hit, [], Entry(0, 0));
    OneMore(hit, [Entry(0, 0)], Entry(1, 5));
    OneMore(hit, [Entry(0, 0), Entry(1, 5)], Entry(2, 1));
    assert [] + [Entry(0, 0)] == [Entry(0, 0)];
  }

  /** Two comparisons return, and rebuild the restored 0, 5, 1; Del takes the 0, and the third comparison unwinds. What
      is left is out of order, and its exemption is for three. */
  method AfterAnUnwoundDel() returns (b: Backing<int>)
    ensures fresh(b) && b.Sound() && b.items == [Entry(1, 5), Entry(2, 1)] && b.Uncharged() == 1
    ensures b.less(1, 5)
  {
    hide HeapOrder.Rebuilt, HeapOrder.Heap, Restored, Without, HitEntry, AllZero, StrictWeak, NothingRestored;
    b := new Backing((x, y) => x < y, (x, y) => x == y, 2);
    ZeroFiveOneIsAHeap(b.less);
    OnlyZeroGoes(b.equal);
    UnwoundAtOnce(b.less, [Entry(1, 5), Entry(2, 1)]);
    var done := b.Hydrate([0, 5, 1]);
    var count;
    done, count := b.Del([0], true);
    assert Restored(b.items, b.hydrateEnd) == 2 by { AllRestored(b.items, b.hydrateEnd); }
  }

  /** ... and Pop, unless a comparison unwinds again, gives the 5 before the 1. */
  method PopsOutOfOrder(later: nat) returns (b: Backing<int>, done: bool, popped: seq<Entry<int>>)
    ensures if done then popped == [Entry(1, 5)] && b.items == [Entry(2, 1)] && b.less(1, 5) else b.calls == 0
  {
    hide Restored, AllZero, StrictWeak, HeapOrder.Heap, Sorted, PrioritySeqLess, Distinct;
    b := AfterAnUnwoundDel();
    b.calls := later;
    done, popped := b.PopBatch(1, Admission.Ok);
    if done {
      assert multiset(b.items) == multiset{Entry(2, 1)} by {
        assert popped == [Entry(1, 5)];
        assert multiset(b.items) + multiset{Entry(1, 5)} == multiset{Entry(1, 5), Entry(2, 1)};
      }
      assert |multiset(b.items)| == |b.items| && b.items[0] in multiset(b.items);
    }
  }

  lemma SameEntries<T>(was: seq<Entry<T>>, now: seq<Entry<T>>, next: nat, end: nat)
    requires multiset(now) == multiset(was) && Distinct(was) && forall x :: x in was ==> x.seqNo < next
    ensures Distinct(now) && (forall x :: x in now ==> x.seqNo < next) && Restored(now, end) == Restored(was, end)
  {
    hide Restored;
    DistinctPermutes(was, now);
    RestoredPermutes(was, now, end);
    forall x | x in now ensures x.seqNo < next { assert x in multiset(now); assert x in was; }
  }

  lemma EndOfSort<T(!new)>(less: (T, T) -> bool, was: seq<Entry<T>>, now: seq<Entry<T>>)
    requires StrictWeak(less) && multiset(now) == multiset(was) && Distinct(was) && Distinct(now)
    requires forall i :: 0 <= i < |now| - 1 ==> !Inverted(less, now, i)
    ensures Heap(less, now) && now == Sorted(less, was)
  {
    hide StrictWeak, Heap, Ascends, Sorted, Inverted, Distinct;
    NoneInvertedAscends(less, now);
    AscendsIsHeap(less, now);
    SortedAscends(less, was);
    AscendingIsUnique(less, now, Sorted(less, was));
  }

  lemma NothingExchanged<T>(less: (T, T) -> bool, s: seq<Entry<T>>)
    requires Exchanges(less, s, [])
    ensures Exchanged(less, s, []) == s
  {
  }

  /** k of the exchanges have been made. */
  ghost predicate Halfway<T>(less: (T, T) -> bool, was: seq<Entry<T>>, moves: seq<nat>, k: nat, now: seq<Entry<T>>)
  {
    && k <= |moves| && Exchanges(less, was, moves) && Exchanges(less, now, moves[k..])
    && Exchanged(less, now, moves[k..]) == Exchanged(less, was, moves)
  }

  lemma ExchangesBegin<T>(less: (T, T) -> bool, was: seq<Entry<T>>, moves: seq<nat>)
    requires Exchanges(less, was, moves)
    ensures Halfway(less, was, moves, 0, was)
  {
    assert moves[0..] == moves;
  }

  lemma ExchangeStep<T>(less: (T, T) -> bool, was: seq<Entry<T>>, moves: seq<nat>, k: nat, now: seq<Entry<T>>)
    requires k < |moves| && Halfway(less, was, moves, k, now)
    ensures var i := moves[k];
      i + 1 < |now| && Halfway(less, was, moves, k + 1, now[i := now[i + 1]][i + 1 := now[i]])
  {
    hide Inverted;
    InvertedWithin(less, now, moves[k]);
    assert moves[k..][1..] == moves[k + 1..];
  }

  lemma ExchangesEnd<T>(less: (T, T) -> bool, was: seq<Entry<T>>, moves: seq<nat>, now: seq<Entry<T>>)
    requires Halfway(less, was, moves, |moves|, now)
    ensures Exchanges(less, was, moves) && now == Exchanged(less, was, moves)
  {
    assert moves[|moves|..] == [];
  }

  lemma InvertedWithin<T>(less: (T, T) -> bool, s: seq<Entry<T>>, i: nat)
    requires Inverted(less, s, i)
    ensures i + 1 < |s|
  {
  }

  lemma SixEntries()
    ensures Breaks(6) == Arrivals([0, 10, 1, 11, 12, 2], 0)
    ensures Swapped(Breaks(6), 1, 2) == Exchanged(IntLess, Breaks(6), [1])
  {
    LargerHeapsBreak(6);
    assert [1][1..] == [];
  }

  /** A sort of the restored 0, 10, 1, 11, 12, 2 that a comparison unwinds after its first exchange has taken the heap
      order: the 2 is below the 10. */
  method AfterAnUnwoundAll() returns (b: Backing<int>)
    ensures fresh(b) && b.Sound() && b.Uncharged() == 0 && StrictWeak(b.less) && !b.Ordered()
    ensures b.items == Swapped(Breaks(6), 1, 2)
  {
    b := new Backing(IntLess, (x, y) => x == y, 0);
    assert StrictWeak(b.less);
    hide *;
    LargerHeapsBreak(6);
    SixEntries();
    var done := b.Hydrate([0, 10, 1, 11, 12, 2]);
    RebuildLeavesHeap(b.less, Breaks(6), 0);
    b.SortInPlace([1], true);
    OutOfOrder(b);
  }

  lemma OutOfOrder<T(!new)>(b: Backing<T>)
    requires StrictWeak(b.less) && !Heap(b.less, b.items)
    ensures !b.Ordered()
  {
  }

  lemma RebuildLeavesHeap<T(!new)>(less: (T, T) -> bool, s: seq<Entry<T>>, calls: nat)
    requires Heap(less, s)
    ensures Rebuilt(less, s, calls).items == s
  {
    HeapifyLeavesHeap(less, s, |s| / 2, calls);
  }

  lemma NoneHeld<T>(n: nat)
    ensures AllZero<T>(seq(n, _ => Zero))
  {
  }

  /** Cutting the last element off and counting it as popped changes nothing to undo. */
  lemma PopRecorded<T>(items: seq<Entry<T>>, swaps: seq<(nat, nat)>, popped: seq<Entry<T>>, origin: seq<Entry<T>>)
    requires items != [] && Records(items, swaps, popped, origin)
    ensures var n := |items| - 1;
      Records(items[..n], swaps, popped + [items[n]], origin)
  {
    var n := |items| - 1;
    ReversedAppends(popped, items[n]);
    assert items[..n] + Reversed(popped + [items[n]]) == items + Reversed(popped);
  }

  lemma SwapEnds<X>(s: seq<X>)
    requires s != []
    ensures Swapped(s, 0, |s| - 1)[|s| - 1..] == [s[0]]
  {
  }

  lemma LeavesHeap<T(!new)>(less: (T, T) -> bool, was: seq<Entry<T>>, now: seq<Entry<T>>, x: Entry<T>,
                            items: seq<Entry<T>>)
    requires StrictWeak(less) && Heap(less, was) && was != [] && x == was[0]
    requires multiset(now) == multiset(was) && now == items + [x] && HeapFrom(less, now, 0, |items|)
    ensures Heap(less, items) && forall y :: y in items ==> !PrioritySeqLess(less, y, x)
  {
    hide StrictWeak, PrioritySeqLess;
    forall k | 0 < k < |items| ensures InOrder(less, items, k) { assert InOrder(less, now, k); }
    forall y | y in items ensures !PrioritySeqLess(less, y, x) {
      assert y in multiset(now);
      IsAfterRoot(less, was, y);
    }
  }

  lemma ReversedAppends<X>(s: seq<X>, x: X)
    ensures Reversed(s + [x]) == [x] + Reversed(s)
  {
  }

  lemma IsAfterRoot<T(!new)>(less: (T, T) -> bool, s: seq<Entry<T>>, y: Entry<T>)
    requires StrictWeak(less) && Heap(less, s) && y in s
    ensures !PrioritySeqLess(less, y, s[0])
  {
    var k :| 0 <= k < |s| && s[k] == y;
    RootIsFirst(less, s, k);
  }

  lemma SiftsFromRoot<T(!new)>(less: (T, T) -> bool, s: seq<Entry<T>>)
    requires Heap(less, s) && s != []
    ensures Sifting(less, Swapped(s, 0, |s| - 1), 0, |s| - 1, 0)
  {
    var t := Swapped(s, 0, |s| - 1);
    forall k | 0 < k < |s| - 1 && Parent(k) != 0 ensures InOrder(less, t, k) { assert InOrder(less, s, k); }
  }

  /** out is in order and ahead of all the rest. */
  ghost predicate Ahead<T(!new)>(less: (T, T) -> bool, out: seq<Entry<T>>, rest: seq<Entry<T>>)
  {
    && Ascends(less, out)
    && forall x, y :: x in out && y in rest ==> PrioritySeqLess(less, x, y)
  }

  lemma NobodyAhead<T(!new)>(less: (T, T) -> bool, s: seq<Entry<T>>)
    ensures Ahead(less, [], s)
  {
  }

  lemma TakeAhead<T(!new)>(less: (T, T) -> bool, out: seq<Entry<T>>, before: seq<Entry<T>>, x: Entry<T>,
                           rest: seq<Entry<T>>, all: seq<Entry<T>>)
    requires StrictWeak(less) && Ahead(less, out, before) && Distinct(all)
    requires multiset(rest) + multiset{x} == multiset(before) && multiset(before) + multiset(out) == multiset(all)
    requires forall y :: y in rest ==> !PrioritySeqLess(less, y, x)
    ensures Ahead(less, out + [x], rest)
  {
    hide StrictWeak, PrioritySeqLess;
    assert x in multiset(before) && x in before;
    forall y | y in rest ensures y in before && PrioritySeqLess(less, x, y) {
      assert y in multiset(rest) && y in multiset(before);
      assert multiset(rest + [x] + out) == multiset(all);
      DistinctPermutes(all, rest + [x] + out);
      var i :| 0 <= i < |rest| && rest[i] == y;
      assert (rest + [x] + out)[i] == y && (rest + [x] + out)[|rest|] == x;
      PriorityIsStrictTotal(less, x, y, x);
    }
  }

  lemma AheadIsFront<T(!new)>(less: (T, T) -> bool, out: seq<Entry<T>>, rest: seq<Entry<T>>, all: seq<Entry<T>>)
    requires StrictWeak(less) && Ahead(less, out, rest) && Distinct(all)
    requires multiset(rest) + multiset(out) == multiset(all)
    ensures |out| <= |all| && out == Sorted(less, all)[..|out|] && Sorted(less, all)[|out|..] == Sorted(less, rest)
  {
    hide StrictWeak, PrioritySeqLess, Sorted;
    assert multiset(rest + out) == multiset(all);
    DistinctPermutes(all, rest + out);
    assert forall i :: 0 <= i < |rest| ==> rest[i] == (rest + out)[i];
    FrontOfSorted(less, out, rest, all);
  }

  lemma AppendRises<T(!new)>(less: (T, T) -> bool, s: seq<Entry<T>>, x: Entry<T>)
    requires Heap(less, s)
    ensures Rising(less, s + [x], |s|)
  {
    forall k | 0 < k < |s| ensures InOrder(less, s + [x], k) { assert InOrder(less, s, k); }
  }

  lemma FirstChild<T(!new)>(less: (T, T) -> bool, s: seq<Entry<T>>, n: nat, i: nat, c: nat)
    requires StrictWeak(less) && n <= |s| && 0 < c < n && Parent(c) == i
    requires c == 2 * i + 1 && c + 1 < n ==> !PrioritySeqLess(less, s[c + 1], s[c])
    requires c == 2 * i + 2 ==> !PrioritySeqLess(less, s[c - 1], s[c])
    ensures forall k :: 0 < k < n && Parent(k) == i ==> !PrioritySeqLess(less, s[k], s[c])
  {
    hide StrictWeak, PrioritySeqLess;
    PriorityIsStrictTotal(less, s[c], s[c], s[c]);
    assert forall k :: 0 < k < n && Parent(k) == i ==> k == 2 * i + 1 || k == 2 * i + 2;
  }

  lemma NoChildren<T(!new)>(less: (T, T) -> bool, s: seq<Entry<T>>, lo: nat, n: nat, i: nat)
    requires n <= |s| && 2 * i + 1 >= n && Sifting(less, s, lo, n, i)
    ensures HeapFrom(less, s, lo, n)
  {
  }

  lemma LastSift<T(!new)>(less: (T, T) -> bool, s: seq<Entry<T>>, lo: nat, n: nat, i: nat, c: nat)
    requires StrictWeak(less) && n <= |s| && lo <= i < n && 0 < c < n && Parent(c) == i
    requires Sifting(less, s, lo, n, i) && InOrder(less, s, c)
    requires forall k :: 0 < k < n && Parent(k) == i ==> !PrioritySeqLess(less, s[k], s[c])
    ensures HeapFrom(less, s, lo, n)
  {
    hide StrictWeak, PrioritySeqLess;
    forall k | 0 < k < n && lo <= Parent(k) ensures InOrder(less, s, k) {
      if Parent(k) == i { AtLeast(less, s[k], s[c], s[i]); }
    }
  }
}
