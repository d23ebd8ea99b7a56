/** Collections of entries: which are restored, which have just arrived, which Del is after, and that none of that
    depends on the order they are held in. */
module Accounting {
  import opened Orders
  import opened Matching
  import Hydration

  /** What Del removes when asked for v. */
  function HitEntry<T>(equal: (T, T) -> bool, v: seq<T>): Entry<T> -> bool
  {
    (e: Entry<T>) => Matches(equal, e.item, v)
  }

  function Arrivals<T>(vs: seq<T>, next: nat): (r: seq<Entry<T>>)
    ensures |r| == |vs| && forall i :: 0 <= i < |vs| ==> r[i] == Entry(next + i, vs[i])
  {
    seq(|vs|, i requires 0 <= i < |vs| => Entry(next + i, vs[i]))
  }

  function Seqs<T>(s: seq<Entry<T>>): (r: seq<nat>)
    ensures |r| == |s| && forall i :: 0 <= i < |s| ==> r[i] == s[i].seqNo
  {
    seq(|s|, i requires 0 <= i < |s| => s[i].seqNo)
  }

  /** The entries Hydrate restored. */
  ghost function Restored<T>(s: seq<Entry<T>>, end: nat): nat
  {
    Hydration.Below(Seqs(s), end)
  }

  lemma {:induction false} RestoredSplits<T>(s: seq<Entry<T>>, t: seq<Entry<T>>, end: nat)
    ensures Restored(s + t, end) == Restored(s, end) + Restored(t, end)
  {
    if t == [] {
      assert s + t == s;
    } else {
      var n := |t| - 1;
      RestoredSplits(s, t[..n], end);
      assert Seqs(s + t)[..|s| + n] == Seqs(s + t[..n]) && Seqs(t)[..n] == Seqs(t[..n]);
    }
  }

  lemma RestoredGrows<T>(s: seq<Entry<T>>, i: nat, end: nat)
    requires i < |s|
    ensures Restored(s[..i + 1], end) == Restored(s[..i], end) + (if s[i].seqNo < end then 1 else 0)
    ensures Restored(s[..i + 1], end) <= Restored(s, end)
  {
    assert s[..i + 1] == s[..i] + [s[i]] && s == s[..i + 1] + s[i + 1..];
    RestoredSplits(s[..i], [s[i]], end);
    RestoredSplits(s[..i + 1], s[i + 1..], end);
    assert Restored([s[i]], end) == if s[i].seqNo < end then 1 else 0;
  }

  lemma {:induction false} NoneRestored<T>(s: seq<Entry<T>>, end: nat)
    requires forall i :: 0 <= i < |s| ==> s[i].seqNo >= end
    ensures Restored(s, end) == 0
  {
    if s != [] {
      var n := |s| - 1;
      NoneRestored(s[..n], end);
      assert Seqs(s)[..n] == Seqs(s[..n]);
    }
  }

  lemma {:induction false} AllRestored<T>(s: seq<Entry<T>>, end: nat)
    requires forall i :: 0 <= i < |s| ==> s[i].seqNo < end
    ensures Restored(s, end) == |s|
  {
    if s != [] {
      var n := |s| - 1;
      AllRestored(s[..n], end);
      assert Seqs(s)[..n] == Seqs(s[..n]);
    }
  }

  lemma WithoutOne<T>(t: seq<Entry<T>>, i: nat, end: nat)
    requires i < |t|
    ensures multiset(t[..i] + t[i + 1..]) == multiset(t) - multiset{t[i]}
    ensures Restored(t, end) == Restored(t[..i] + t[i + 1..], end) + Restored([t[i]], end)
  {
    hide Restored;
    assert t == t[..i] + [t[i]] + t[i + 1..];
    RestoredSplits(t[..i] + [t[i]], t[i + 1..], end);
    RestoredSplits(t[..i], [t[i]], end);
    RestoredSplits(t[..i], t[i + 1..], end);
  }

  /** The order of the array does not matter. */
  lemma {:induction false} RestoredPermutes<T>(s: seq<Entry<T>>, t: seq<Entry<T>>, end: nat)
    requires multiset(s) == multiset(t)
    ensures Restored(s, end) == Restored(t, end) && |s| == |t|
    decreases |s|
  {
    hide Restored;
    assert |multiset(s)| == |s| && |multiset(t)| == |t|;
    if s != [] {
      assert s[0] in multiset(t);
      var i :| 0 <= i < |t| && t[i] == s[0];
      WithoutOne(s, 0, end);
      WithoutOne(t, i, end);
      RestoredPermutes(s[..0] + s[1..], t[..i] + t[i + 1..], end);
    } else {
      assert t == [];
    }
  }

  lemma Twice<X>(t: seq<X>, i: nat, j: nat)
    requires i < j < |t| && t[i] == t[j]
    ensures multiset(t)[t[i]] >= 2
  {
    assert t == t[..i] + [t[i]] + t[i + 1..j] + [t[j]] + t[j + 1..];
  }

  lemma {:induction false} OnceOnly<T>(s: seq<Entry<T>>, x: Entry<T>)
    requires Distinct(s)
    ensures multiset(s)[x] <= 1
  {
    if s != [] {
      assert s == [s[0]] + s[1..];
      OnceOnly(s[1..], x);
      forall i | 0 <= i < |s[1..]| ensures s[1..][i] != s[0] { assert s[i + 1].seqNo != s[0].seqNo; }
    }
  }

  /** Distinctness is a matter of the multiset. */
  lemma DistinctPermutes<T>(s: seq<Entry<T>>, t: seq<Entry<T>>)
    requires multiset(s) == multiset(t) && Distinct(s)
    ensures Distinct(t)
  {
    forall i, j | 0 <= i < j < |t| ensures t[i].seqNo != t[j].seqNo {
      OnceOnly(s, t[i]);
      assert t[i] in multiset(s) && t[j] in multiset(s);
      if t[i] == t[j] { Twice(t, i, j); }
    }
  }

  /** The first k of vs have come to what was there, numbered from `next` on. */
  ghost predicate Arrived<T>(was: seq<Entry<T>>, vs: seq<T>, k: nat, next: nat, now: seq<Entry<T>>)
  {
    k <= |vs| && multiset(now) == multiset(was) + multiset(Arrivals(vs[..k], next))
  }

  lemma NoneArrived<T>(was: seq<Entry<T>>, vs: seq<T>, next: nat)
    ensures Arrived(was, vs, 0, next, was)
  {
    assert Arrivals(vs[..0], next) == [];
  }

  lemma OneMoreArrived<T>(was: seq<Entry<T>>, vs: seq<T>, k: nat, next: nat, now: seq<Entry<T>>, then_: seq<Entry<T>>)
    requires Arrived(was, vs, k, next, now) && k < |vs|
    requires multiset(then_) == multiset(now) + multiset{Entry(next + k, vs[k])}
    ensures Arrived(was, vs, k + 1, next, then_)
  {
    assert Arrivals(vs[..k + 1], next) == Arrivals(vs[..k], next) + [Entry(next + k, vs[k])];
  }

  lemma AllArrived<T>(was: seq<Entry<T>>, vs: seq<T>, k: nat, next: nat, now: seq<Entry<T>>)
    requires Arrived(was, vs, k, next, now)
    ensures k <= |vs| && multiset(now) == multiset(was) + multiset(Arrivals(vs[..k], next))
    ensures multiset(now) == multiset(was + Arrivals(vs[..k], next))
    ensures k == |vs| ==> vs[..k] == vs
  {
  }

  lemma ArrivalsAreNew<T>(was: seq<Entry<T>>, vs: seq<T>, next: nat, end: nat, now: seq<Entry<T>>)
    requires Distinct(was) && (forall x :: x in was ==> x.seqNo < next) && end <= next
    requires multiset(now) == multiset(was) + multiset(Arrivals(vs, next))
    ensures Distinct(now) && (forall x :: x in now ==> x.seqNo < next + |vs|)
    ensures Restored(now, end) == Restored(was, end)
  {
    var new_ := Arrivals(vs, next);
    assert multiset(was + new_) == multiset(now);
    forall x | x in now ensures x.seqNo < next + |vs| { assert x in multiset(now); assert x in was || x in new_; }
    assert forall i :: 0 <= i < |was| ==> was[i] in was;
    DistinctPermutes(was + new_, now);
    RestoredPermutes(was + new_, now, end);
    RestoredSplits(was, new_, end);
    NoneRestored(new_, end);
  }

  lemma RemovedAreCounted<T>(was: seq<Entry<T>>, rest: seq<Entry<T>>, out: seq<Entry<T>>, end: nat)
    requires multiset(rest) + multiset(out) == multiset(was) && Distinct(was)
    ensures Restored(was, end) == Restored(rest, end) + Restored(out, end)
    ensures Distinct(rest) && forall x :: x in rest ==> x in was
  {
    hide Restored;
    assert multiset(rest + out) == multiset(was);
    RestoredPermutes(rest + out, was, end);
    RestoredSplits(rest, out, end);
    DistinctPermutes(was, rest + out);
    assert forall i :: 0 <= i < |rest| ==> rest[i] == (rest + out)[i];
    forall x | x in rest ensures x in was { assert x in multiset(rest); assert x in multiset(was); }
  }

  lemma Joined<X>(kept: seq<X>, removed: seq<X>, s: seq<X>, x: X)
    requires multiset(kept) + multiset(removed) == multiset(s)
    ensures multiset(kept) + multiset(removed + [x]) == multiset(s + [x]) == multiset(kept + [x]) + multiset(removed)
  {
  }

  /** Nothing of s that is hit is restored. */
  ghost predicate NothingRestored<T>(s: seq<Entry<T>>, hit: Entry<T> -> bool, end: nat)
  {
    forall e :: e in s && hit(e) ==> e.seqNo >= end
  }

  lemma {:induction false} RestoredMember<T>(s: seq<Entry<T>>, e: Entry<T>, end: nat)
    requires e in s && e.seqNo < end
    ensures Restored(s, end) > 0
  {
    var i :| 0 <= i < |s| && s[i] == e;
    RestoredGrows(s, i, end);
  }

  /** What is removed when only what is not hit is kept. */
  lemma RemovedAreHit<T>(s: seq<Entry<T>>, hit: Entry<T> -> bool, removed: seq<Entry<T>>, end: nat)
    requires Distinct(s) && multiset(Without(hit, s)) + multiset(removed) == multiset(s)
    ensures Restored(removed, end) == 0 <==> NothingRestored(s, hit, end)
  {
    hide Restored, Without;
    forall e ensures e in removed <==> e in s && hit(e) {
      WithoutHas(hit, s, e);
      OnceOnly(s, e);
      assert e in removed <==> e in multiset(removed);
      assert e in Without(hit, s) <==> e in multiset(Without(hit, s));
      assert e in s <==> e in multiset(s);
    }
    if NothingRestored(s, hit, end) {
      NoneRestored(removed, end);
    } else {
      var e :| e in s && hit(e) && e.seqNo < end;
      RestoredMember(removed, e, end);
    }
  }

  lemma LastIsAbove<T(!new)>(less: (T, T) -> bool, s: seq<Entry<T>>)
    requires Ascends(less, s) && Distinct(s) && s != []
    ensures var n := |s| - 1;
      && Ascends(less, s[..n]) && Distinct(s[..n])
      && forall x :: x in s[..n] ==> PrioritySeqLess(less, x, s[n]) && x.seqNo != s[n].seqNo
  {
    hide PrioritySeqLess;
  }

  lemma OneMoreAscends<T(!new)>(less: (T, T) -> bool, w: seq<Entry<T>>, e: Entry<T>)
    requires Ascends(less, w) && Distinct(w)
    requires forall x :: x in w ==> PrioritySeqLess(less, x, e) && x.seqNo != e.seqNo
    ensures Ascends(less, w + [e]) && Distinct(w + [e])
  {
    hide PrioritySeqLess;
    assert forall i :: 0 <= i < |w| ==> w[i] in w;
  }

  lemma {:induction false} WithoutKeeps<T(!new)>(less: (T, T) -> bool, hit: Entry<T> -> bool, s: seq<Entry<T>>)
    requires Ascends(less, s) && Distinct(s)
    ensures Ascends(less, Without(hit, s)) && Distinct(Without(hit, s))
  {
    hide PrioritySeqLess, Ascends, Distinct;
    if s != [] {
      hide Without;
      var n := |s| - 1;
      LastIsAbove(less, s);
      WithoutKeeps(less, hit, s[..n]);
      assert s == s[..n] + [s[n]];
      OneMore(hit, s[..n], s[n]);
      var w := Without(hit, s[..n]);
      forall x | x in w ensures x in s[..n] { WithoutHas(hit, s[..n], x); }
      OneMoreAscends(less, w, s[n]);
      assert w + [] == w;
    }
  }
}
