/** The orders of queued entries, and what it is to be the first k of a sorted collection. */
module Orders {

  /** An item with the number of its arrival. */
  datatype Entry<T> = Entry(seqNo: nat, item: T)

  function FifoSeqLess<T>(a: Entry<T>, b: Entry<T>): bool
  {
    a.seqNo < b.seqNo
  }

  /** The caller's order first, arrival second. */
  function PrioritySeqLess<T>(less: (T, T) -> bool, a: Entry<T>, b: Entry<T>): bool
  {
    if less(a.item, b.item) then true
    else if less(b.item, a.item) then false
    else a.seqNo < b.seqNo
  }

  ghost predicate StrictWeak<T(!new)>(less: (T, T) -> bool)
  {
    && (forall a :: !less(a, a))
    && (forall a, b, c :: less(a, b) && less(b, c) ==> less(a, c))
    && (forall a, b, c :: less(a, c) ==> less(a, b) || less(b, c))
  }

  /** Entries in the priority order: irreflexive, transitive, and total between entries that arrived separately. */
  lemma PriorityIsStrictTotal<T(!new)>(less: (T, T) -> bool, a: Entry<T>, b: Entry<T>, c: Entry<T>)
    requires StrictWeak(less)
    ensures !PrioritySeqLess(less, a, a)
    ensures PrioritySeqLess(less, a, b) ==> !PrioritySeqLess(less, b, a)
    ensures PrioritySeqLess(less, a, b) && PrioritySeqLess(less, b, c) ==> PrioritySeqLess(less, a, c)
    ensures PrioritySeqLess(less, a, c) ==> PrioritySeqLess(less, a, b) || PrioritySeqLess(less, b, c)
    ensures a.seqNo != b.seqNo ==> PrioritySeqLess(less, a, b) || PrioritySeqLess(less, b, a)
    ensures !less(a.item, b.item) && !less(b.item, a.item) ==> (PrioritySeqLess(less, a, b) <==> FifoSeqLess(a, b))
  {
  }

  // ---- sorted sequences of entries

  ghost predicate Ascends<T(!new)>(less: (T, T) -> bool, s: seq<Entry<T>>)
  {
    forall i, j :: 0 <= i < j < |s| ==> PrioritySeqLess(less, s[i], s[j])
  }

  ghost predicate Distinct<T>(s: seq<Entry<T>>)
  {
    forall i, j :: 0 <= i < j < |s| ==> s[i].seqNo != s[j].seqNo
  }

  function Insert<T(!new)>(less: (T, T) -> bool, x: Entry<T>, s: seq<Entry<T>>): (r: seq<Entry<T>>)
    ensures |r| == |s| + 1 && multiset(r) == multiset(s) + multiset{x}
  {
    if s == [] then [x]
    else if PrioritySeqLess(less, x, s[0]) then [x] + s
    else
      assert s == [s[0]] + s[1..];
      [s[0]] + Insert(less, x, s[1..])
  }

  /** s in priority order, ties by arrival. */
  function Sorted<T(!new)>(less: (T, T) -> bool, s: seq<Entry<T>>): (r: seq<Entry<T>>)
    ensures |r| == |s| && multiset(r) == multiset(s)
  {
    if s == [] then []
    else
      assert s == [s[0]] + s[1..];
      Insert(less, s[0], Sorted(less, s[1..]))
  }

  lemma {:induction false} InsertAscends<T(!new)>(less: (T, T) -> bool, x: Entry<T>, s: seq<Entry<T>>)
    requires StrictWeak(less) && Ascends(less, s) && forall y :: y in s ==> y.seqNo != x.seqNo
    ensures Ascends(less, Insert(less, x, s))
  {
    if s != [] {
      if PrioritySeqLess(less, x, s[0]) {
        forall j | 1 <= j < |s| ensures PrioritySeqLess(less, x, s[j]) { PriorityIsStrictTotal(less, x, s[0], s[j]); }
      } else {
        InsertAscends(less, x, s[1..]);
        PriorityIsStrictTotal(less, s[0], x, x);
        var r := Insert(less, x, s[1..]);
        forall j | 0 <= j < |r| ensures PrioritySeqLess(less, s[0], r[j]) {
          assert r[j] in multiset(r);
          assert r[j] == x || r[j] in multiset(s[1..]);
        }
      }
    }
  }

  lemma {:induction false} SortedAscends<T(!new)>(less: (T, T) -> bool, s: seq<Entry<T>>)
    requires StrictWeak(less) && Distinct(s)
    ensures Ascends(less, Sorted(less, s))
  {
    if s != [] {
      SortedAscends(less, s[1..]);
      forall y | y in Sorted(less, s[1..]) ensures y.seqNo != s[0].seqNo {
        assert y in multiset(Sorted(less, s[1..]));
        assert y in s[1..];
      }
      InsertAscends(less, s[0], Sorted(less, s[1..]));
    }
  }

  /** In the sorted order nothing that the caller's order puts first comes later, and of two that it does not tell apart
      the earlier arrival is first. */
  lemma SortedByPriority<T(!new)>(less: (T, T) -> bool, s: seq<Entry<T>>, i: nat, j: nat)
    requires StrictWeak(less) && Distinct(s) && i < j < |s|
    ensures var r := Sorted(less, s);
      !less(r[j].item, r[i].item) && (less(r[i].item, r[j].item) || r[i].seqNo < r[j].seqNo)
  {
    hide StrictWeak, Distinct, Sorted;
    SortedAscends(less, s);
    var r := Sorted(less, s);
    assert PrioritySeqLess(less, r[i], r[j]);
    hide Ascends;
    NotBothWays(less, r[i].item, r[j].item);
  }

  lemma NotBothWays<T(!new)>(less: (T, T) -> bool, x: T, y: T)
    requires StrictWeak(less)
    ensures !less(x, y) || !less(y, x)
  {
  }

  lemma SameHead<T(!new)>(less: (T, T) -> bool, s: seq<Entry<T>>, t: seq<Entry<T>>)
    requires StrictWeak(less) && Ascends(less, s) && Ascends(less, t) && s != [] && t != []
    requires s[0] in t && t[0] in s
    ensures s[0] == t[0]
  {
    hide StrictWeak, PrioritySeqLess;
    PriorityIsStrictTotal(less, s[0], t[0], s[0]);
  }

  lemma TailOf<T>(s: seq<T>)
    requires s != []
    ensures multiset(s[1..]) == multiset(s) - multiset{s[0]}
  {
    assert s == [s[0]] + s[1..];
  }

  /** A sorted collection has only one order. */
  lemma {:induction false} AscendingIsUnique<T(!new)>(less: (T, T) -> bool, s: seq<Entry<T>>, t: seq<Entry<T>>)
    requires StrictWeak(less) && Ascends(less, s) && Ascends(less, t) && multiset(s) == multiset(t)
    ensures s == t
  {
    hide StrictWeak, PrioritySeqLess;
    assert |multiset(s)| == |s| && |multiset(t)| == |t|;
    if s != [] {
      assert s[0] in multiset(t) && t[0] in multiset(s);
      SameHead(less, s, t);
      TailOf(s);
      TailOf(t);
      AscendingIsUnique(less, s[1..], t[1..]);
    }
  }

  /** What comes out in order, with nothing left behind that goes before it, is the front of the sorted whole. */
  lemma FrontOfSorted<T(!new)>(less: (T, T) -> bool, out: seq<Entry<T>>, rest: seq<Entry<T>>, all: seq<Entry<T>>)
    requires StrictWeak(less) && Distinct(all) && multiset(all) == multiset(out) + multiset(rest)
    requires Ascends(less, out)
    requires forall x, y :: x in out && y in rest ==> PrioritySeqLess(less, x, y)
    requires Distinct(rest)
    ensures |out| <= |all| && out == Sorted(less, all)[..|out|]
    ensures Sorted(less, all)[|out|..] == Sorted(less, rest)
  {
    hide StrictWeak, PrioritySeqLess, Sorted;
    var tail := Sorted(less, rest);
    SortedAscends(less, rest);
    SortedAscends(less, all);
    AscendsTogether(less, out, rest, tail);
    assert multiset(out + tail) == multiset(Sorted(less, all));
    AscendingIsUnique(less, out + tail, Sorted(less, all));
  }

  lemma AscendsTogether<T(!new)>(less: (T, T) -> bool, out: seq<Entry<T>>, rest: seq<Entry<T>>, tail: seq<Entry<T>>)
    requires Ascends(less, out) && Ascends(less, tail) && multiset(tail) == multiset(rest)
    requires forall x, y :: x in out && y in rest ==> PrioritySeqLess(less, x, y)
    ensures Ascends(less, out + tail)
  {
    hide PrioritySeqLess;
    forall y | y in tail ensures y in rest { assert y in multiset(tail); }
    assert forall i :: 0 <= i < |out| ==> out[i] in out;
    assert forall i :: 0 <= i < |tail| ==> tail[i] in tail;
  }
}
