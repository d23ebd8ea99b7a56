/** The slice queue's storage: an array, of which [head, len) are the contents. Pop advances head; Push slides the
    contents down before it would grow. */
module SliceFifo {
  import opened Basics
  import Hydration
  import opened Matching

  /** Go's clear of a[lo:hi]. */
  method ClearRange<T>(a: array<Cell<T>>, lo: nat, hi: nat)
    requires lo <= hi <= a.Length
    modifies a
    ensures forall k :: lo <= k < hi ==> a[k].Zero?
    ensures forall k :: 0 <= k < a.Length && !(lo <= k < hi) ==> a[k] == old(a[k])
  {
    for i := lo to hi
      invariant forall k :: lo <= k < i ==> a[k].Zero?
      invariant forall k :: 0 <= k < a.Length && !(lo <= k < i) ==> a[k] == old(a[k])
    {
      a[i] := Zero;
    }
  }

  /** Go's copy of a[from:from+n] to the front of b, which may be a itself. */
  method CopyDown<T>(a: array<Cell<T>>, from: nat, n: nat, b: array<Cell<T>>)
    requires from + n <= a.Length && n <= b.Length
    modifies b
    ensures b[..n] == old(a[from..from + n])
    ensures forall k :: n <= k < b.Length ==> b[k] == old(b[k])
  {
    for i := 0 to n
      invariant b[..i] == old(a[from..from + i])
      invariant forall k :: i <= k < b.Length ==> b[k] == old(b[k])
      invariant forall k :: from + i <= k < a.Length ==> a[k] == old(a[k])
    {
      b[i] := a[from + i];
      assert b[..i + 1] == b[..i] + [b[i]];
    }
  }

  method Place<T>(a: array<Cell<T>>, at: nat, vs: seq<T>)
    requires at + |vs| <= a.Length
    modifies a
    ensures forall k :: at <= k < at + |vs| ==> a[k] == Full(vs[k - at])
    ensures forall k :: 0 <= k < a.Length && !(at <= k < at + |vs|) ==> a[k] == old(a[k])
  {
    for j := 0 to |vs|
      invariant forall k :: at <= k < at + j ==> a[k] == Full(vs[k - at])
      invariant forall k :: 0 <= k < a.Length && !(at <= k < at + j) ==> a[k] == old(a[k])
    {
      a[at + j] := Full(vs[j]);
    }
  }

  class Backing<T> {
    var data: array<Cell<T>>   // as far as the capacity reaches
    var len: nat
    var head: nat
    var hydrated: int          // the first so many of the contents came from Hydrate

    /** Exactly the contents are held; every other slot is zero. */
    ghost predicate Valid()
      reads this, data
    {
      && head <= len <= data.Length
      && (forall i :: 0 <= i < data.Length ==> (data[i].Full? <==> head <= i < len))
      && 0 <= hydrated <= len - head
    }

    ghost function Live(): (s: seq<T>)
      requires Valid()
      reads this, data
      ensures |s| == len - head && forall i :: 0 <= i < |s| ==> s[i] == data[head + i].item
    {
      Items(data[head..len])
    }

    constructor ()
      ensures Valid() && fresh(data) && Live() == [] && hydrated == 0
    {
      data := new Cell<T>[0];
      len, head, hydrated := 0, 0, 0;
    }

    /** Moves the contents to the front and clears what the move leaves above them. */
    method Slide()
      requires Valid()
      modifies this, data
      ensures Valid() && head == 0 && data == old(data) && Live() == old(Live()) && hydrated == old(hydrated)
    {
      var n := len - head;
      ghost var live := data[head..len];
      CopyDown(data, head, n, data);
      assert forall k :: 0 <= k < n ==> data[k] == live[k];
      ClearRange(data, n, len);
      assert data[..n] == live;
      len, head := n, 0;
    }

    /** New storage for the contents, with room for n in all. */
    method Grow(n: nat)
      requires Valid() && head == 0 && data.Length < n
      modifies this
      ensures Valid() && head == 0 && fresh(data) && data.Length == n
      ensures Live() == old(Live()) && hydrated == old(hydrated)
    {
      var bigger := new Cell<T>[n](_ => Zero);
      CopyDown(data, 0, len, bigger);
      data := bigger;
    }

    method AppendInPlace(vs: seq<T>)
      requires Valid() && len + |vs| <= data.Length
      modifies `len, data
      ensures Valid() && Live() == old(Live()) + vs
    {
      hide Items;
      ghost var live := Live();
      assert forall i :: 0 <= i < |live| ==> live[i] == data[head + i].item;
      Place(data, len, vs);
      len := len + |vs|;
      assert forall i :: 0 <= i < |Live()| ==> Live()[i] == if i < |live| then live[i] else vs[i - |live|];
    }

    /** Go's append: in place while there is capacity, else into new storage, with `spare` slots to grow into. */
    method Append(vs: seq<T>, spare: nat)
      requires Valid() && (len + |vs| > data.Length ==> head == 0)
      modifies this, data
      ensures Valid() && Live() == old(Live()) + vs && hydrated == old(hydrated)
      ensures if old(len) + |vs| <= old(data.Length) then data == old(data)
              else fresh(data) && data.Length == old(len) + |vs| + spare
    {
      hide Items;
      if len + |vs| > data.Length { Grow(len + |vs| + spare); }
      AppendInPlace(vs);
    }

    /** The insert of Push. The storage is replaced exactly when contents and batch together exceed it, however much has
        passed through it. */
    method Push(vs: seq<T>, spare: nat)
      requires Valid()
      modifies this, data
      ensures Valid() && Live() == old(Live()) + vs && hydrated == old(hydrated)
      ensures data == old(data) || fresh(data)
      ensures data == old(data) <==> |old(Live())| + |vs| <= old(data.Length)
      ensures data != old(data) ==> data.Length == |old(Live())| + |vs| + spare
    {
      if head > 0 && len + |vs| > data.Length { Slide(); }
      Append(vs, spare);
    }

    method DropHydrated(n: int)
      modifies `hydrated
      ensures hydrated == Hydration.DropCount(old(hydrated), n)
    {
      if n >= hydrated { hydrated := 0; } else { hydrated := hydrated - n; }
    }

    static lemma TakenApart(was: seq<T>, k: nat, out: seq<T>, now: seq<T>)
      requires k <= |was| && |out| == k && |now| == |was| - k
      requires (forall i :: 0 <= i < k ==> out[i] == was[i]) && (forall i :: 0 <= i < |now| ==> now[i] == was[k + i])
      ensures was == out + now && now == was[k..]
    {
    }

    /** The removal of Pop: the front, the slots cleared, the storage kept. */
    method Pop(n: nat) returns (out: seq<T>)
      requires Valid()
      modifies this, data
      ensures Valid() && data == old(data)
      ensures |out| == Min(n, |old(Live())|) && old(Live()) == out + Live()
      ensures hydrated == Hydration.DropCount(old(hydrated), Min(|out|, old(hydrated)))
    {
      hide Items;
      ghost var live := Live();
      var k := if n < len - head then n else len - head;
      out := Items(data[head..head + k]);
      ClearRange(data, head, head + k);
      head := head + k;
      DropHydrated(Min(k, hydrated));
      assert |out| == k && forall i :: 0 <= i < k ==> out[i] == live[i];
      TakenApart(live, k, out, Live());
    }

    /** Clear: nothing held, the storage kept. */
    method Clear()
      requires Valid()
      modifies this, data
      ensures Valid() && data == old(data) && Live() == [] && hydrated == 0
    {
      if len == head { return; }
      ClearRange(data, head, len);
      len, head, hydrated := 0, 0, 0;
    }

    /** What Del keeps, and how many restored positions are among the rest. */
    method Partition(equal: (T, T) -> bool, v: seq<T>) returns (kept: seq<T>, removedHydrated: nat)
      requires Valid()
      ensures kept == Without(Hit(equal, v), Live()) && |kept| == len - head - Hits(Hit(equal, v), Live())
      ensures removedHydrated == Hits(Hit(equal, v), Live()[..hydrated])
    {
      hide Without, Hits, Matches, Items;
      kept, removedHydrated := [], 0;
      ghost var live := Live();
      NothingYet(Hit(equal, v));
      for i := 0 to len - head
        invariant kept == Without(Hit(equal, v), live[..i]) && |kept| == i - Hits(Hit(equal, v), live[..i])
        invariant removedHydrated == Hits(Hit(equal, v), live[..Min(i, hydrated)])
      {
        var x := data[head + i].item;
        assert live[i] == x && live[..i + 1] == live[..i] + [x];
        OneMore(Hit(equal, v), live[..i], x);
        var yes := MatchesAny(equal, x, v);
        if yes {
          if i < hydrated { removedHydrated := removedHydrated + 1; }
        } else {
          kept := kept + [x];
        }
      }
      assert live[..len - head] == live;
    }

    method Replace(kept: seq<T>, capacity: nat)
      requires |kept| <= capacity && 0 <= hydrated <= |kept|
      modifies `data, `len, `head
      ensures Valid() && Live() == kept && fresh(data) && data.Length == capacity
    {
      hide Items;
      var slots := new Cell<T>[capacity](_ => Zero);
      Place(slots, 0, kept);
      data, len, head := slots, |kept|, 0;
    }

    /** The removal of Del: everything equal to one of v goes, and the exemption pays for the restored positions among
        them. `equal` is Item.Equal. */
    method Del(equal: (T, T) -> bool, v: seq<T>) returns (count: nat)
      requires Valid()
      modifies this
      ensures Valid() && Live() == Without(Hit(equal, v), old(Live())) && count == |old(Live())| - |Live()|
      ensures hydrated == old(hydrated) - Hits(Hit(equal, v), old(Live())[..old(hydrated)])
      ensures data == old(data) || (fresh(data) && data.Length == |old(Live())|)
    {
      hide Without, Hits;
      ghost var live := Live();
      var kept, removedHydrated := Partition(equal, v);
      count := len - head - |kept|;
      if count == 0 { NothingHit(Hit(equal, v), live, hydrated); return; }
      HitsSplit(Hit(equal, v), live, hydrated);
      DropHydrated(removedHydrated);
      Replace(kept, len - head);
    }

    /** Any sequence of operations acts on the contents as on a sequence; and the storage stays within the deepest the
        queue has been and the most that one append grew by beyond what it needed, whatever has passed through it. If
        growing never more than doubles what is needed, that is twice the deepest. */
    method Run(equal: (T, T) -> bool, ops: seq<Op<T>>)
      requires Valid()
      modifies this, data
      ensures Valid() && Live() == AppliedAll(equal, old(Live()), ops)
      ensures data.Length <= old(data.Length) || data.Length <= Peak(equal, old(Live()), ops) + MostSpare(ops)
      ensures AtMostDoubles(equal, old(Live()), ops) ==>
        data.Length <= old(data.Length) || data.Length <= 2 * Peak(equal, old(Live()), ops)
      decreases |ops|
    {
      hide Backing.Valid, Without, Items;
      if ops == [] { return; }
      ghost var live := Live();
      match ops[0] {
        case PushOp(vs, spare) => Push(vs, spare);
        case PopOp(n) => var out := Pop(n); assert live[Min(n, |live|)..] == Live();
        case DelOp(v) => var count := Del(equal, v);
        case ClearOp => Clear();
      }
      Run(equal, ops[1..]);
    }
  }

  datatype Op<T> = PushOp(vs: seq<T>, spare: nat) | PopOp(n: nat) | DelOp(v: seq<T>) | ClearOp

  function Applied<T>(equal: (T, T) -> bool, s: seq<T>, op: Op<T>): seq<T>
  {
    match op
    case PushOp(vs, _) => s + vs
    case PopOp(n) => s[Min(n, |s|)..]
    case DelOp(v) => Without(Hit(equal, v), s)
    case ClearOp => []
  }

  function AppliedAll<T>(equal: (T, T) -> bool, s: seq<T>, ops: seq<Op<T>>): seq<T>
    decreases |ops|
  {
    if ops == [] then s else AppliedAll(equal, Applied(equal, s, ops[0]), ops[1..])
  }

  function MostSpare<T>(ops: seq<Op<T>>): nat
  {
    if ops == [] then 0
    else
      var rest := MostSpare(ops[1..]);
      if ops[0].PushOp? && ops[0].spare > rest then ops[0].spare else rest
  }

  /** Growing takes at most as much again as it needs. */
  predicate AtMostDoubles<T>(equal: (T, T) -> bool, s: seq<T>, ops: seq<Op<T>>)
    decreases |ops|
  {
    ops != [] ==>
      && (ops[0].PushOp? ==> ops[0].spare <= |s| + |ops[0].vs|)
      && AtMostDoubles(equal, Applied(equal, s, ops[0]), ops[1..])
  }

  /** The deepest the queue is, at any point of the run. */
  function Peak<T>(equal: (T, T) -> bool, s: seq<T>, ops: seq<Op<T>>): (p: nat)
    ensures |s| <= p
    decreases |ops|
  {
    if ops == [] then |s|
    else
      var rest := Peak(equal, Applied(equal, s, ops[0]), ops[1..]);
      if rest > |s| then rest else |s|
  }
}
