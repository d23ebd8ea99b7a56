/** The backings that number their entries, seen as the admission protocol sees them: whatever order the heap's array or
    the tree holds them in, they are arrival numbers, oldest first, and a removal is a step of the protocol. */
module ArrivalOrder {
  import opened Basics
  import opened Orders
  import opened Matching
  import opened Accounting
  import opened Hydration
  import opened Admission
  import Delivery

  /** The caller's order when no item goes before another. */
  predicate NoneBefore<T>(a: T, b: T)
  {
    false
  }

  function ByArrival<T(!new)>(s: seq<Entry<T>>): (r: seq<Entry<T>>)
    ensures |r| == |s| && multiset(r) == multiset(s)
  {
    Sorted(NoneBefore, s)
  }

  /** The positions, oldest first, of the entries that are hit. */
  function Positions<T(!new)>(s: seq<Entry<T>>, hit: Entry<T> -> bool): set<nat>
  {
    set i: nat | i < |s| && hit(ByArrival(s)[i])
  }

  /** A backing that holds these entries is what the protocol calls s. */
  ghost predicate Abstracts<T(!new)>(s: State, entries: seq<Entry<T>>, hydrated: int, nextSeq: nat, hydrateEnd: nat)
  {
    && s.disc == BySeq && s.contents == Seqs(ByArrival(entries))
    && s.hydrated == hydrated && s.next == nextSeq && s.end == hydrateEnd
  }

  lemma NoneBeforeIsWeak<T(!new)>()
    ensures StrictWeak<T>(NoneBefore)
  {
  }

  lemma ByArrivalAscends<T(!new)>(s: seq<Entry<T>>)
    requires Distinct(s)
    ensures Ascends(NoneBefore, ByArrival(s)) && Distinct(ByArrival(s))
    ensures Ascending(Seqs(ByArrival(s)))
  {
    SortedAscends(NoneBefore, s);
    DistinctPermutes(s, ByArrival(s));
  }

  lemma {:induction false} KeptIsWithout<T>(s: seq<Entry<T>>, hit: Entry<T> -> bool, gone: set<nat>)
    requires forall i: nat :: i < |s| ==> (i in gone <==> hit(s[i]))
    ensures Kept(Seqs(s), gone) == Seqs(Without(hit, s))
    ensures Picked(Seqs(s), gone) == Seqs(Without(e => !hit(e), s))
  {
    if s != [] {
      var n := |s| - 1;
      KeptIsWithout(s[..n], hit, gone);
      assert Seqs(s)[..n] == Seqs(s[..n]) && Seqs(s)[n] == s[n].seqNo;
      OneMore(hit, s[..n], s[n]);
      OneMore(e => !hit(e), s[..n], s[n]);
      assert s == s[..n] + [s[n]];
      hide Without;
    }
  }

  lemma WithoutAround<X>(hit: X -> bool, a: seq<X>, x: X, b: seq<X>)
    ensures multiset(a + b) == multiset(a + [x] + b) - multiset{x}
    ensures multiset(Without(hit, a + [x] + b)) == multiset(Without(hit, a + b)) + multiset(if hit(x) then [] else [x])
  {
    hide Without;
    OneMore(hit, a, x);
    WithoutCat(hit, a + [x], b);
    WithoutCat(hit, a, b);
    if hit(x) { assert Without(hit, a) + [] == Without(hit, a); }
  }

  lemma FirstIsAmong<X>(s: seq<X>, t: seq<X>) returns (i: nat)
    requires multiset(s) == multiset(t) && s != []
    ensures i < |t| && t[i] == s[0]
  {
    assert s[0] in multiset(t);
    i :| 0 <= i < |t| && t[i] == s[0];
  }

  lemma {:induction false} WithoutPermutes<X>(hit: X -> bool, s: seq<X>, t: seq<X>)
    requires multiset(s) == multiset(t)
    ensures multiset(Without(hit, s)) == multiset(Without(hit, t))
    decreases |s|
  {
    hide Without;
    assert |multiset(s)| == |s| && |multiset(t)| == |t|;
    if s != [] {
      var i := FirstIsAmong(s, t);
      var x, s1, t1 := s[0], [] + s[1..], t[..i] + t[i + 1..];
      assert s == [] + [x] + s[1..] && t == t[..i] + [x] + t[i + 1..];
      WithoutAround(hit, [], x, s[1..]);
      WithoutAround(hit, t[..i], x, t[i + 1..]);
      WithoutPermutes(hit, s1, t1);
    } else {
      assert t == [];
    }
  }

  /** Dropping entries and putting the rest in arrival order can be done either way round. */
  lemma ByArrivalOfRest<T(!new)>(was: seq<Entry<T>>, hit: Entry<T> -> bool, now: seq<Entry<T>>)
    requires Distinct(was) && multiset(now) == multiset(Without(hit, was))
    ensures ByArrival(now) == Without(hit, ByArrival(was)) && Distinct(now)
  {
    ByArrivalAscends(was);
    WithoutKeeps(NoneBefore, hit, ByArrival(was));
    WithoutPermutes(hit, was, ByArrival(was));
    DistinctPermutes(Without(hit, ByArrival(was)), now);
    ByArrivalAscends(now);
    AscendingIsUnique(NoneBefore, ByArrival(now), Without(hit, ByArrival(was)));
  }

  lemma DelLeaves<T(!new)>(s: State, was: seq<Entry<T>>, hydrated: int, nextSeq: nat, hydrateEnd: nat,
                            hit: Entry<T> -> bool, now: seq<Entry<T>>)
    requires Accounts(s) && Abstracts(s, was, hydrated, nextSeq, hydrateEnd) && Distinct(was)
    requires multiset(now) == multiset(Without(hit, was))
    ensures var gone := Positions(was, hit);
      && Abstracts(DelUnwound(s, gone), now, hydrated, nextSeq, hydrateEnd)
      && Abstracts(Remove(s, gone, AfterDel(s, gone)), now, Restored(now, hydrateEnd) + s.uncharged, nextSeq,
                   hydrateEnd)
      && (Below(Picked(s.contents, gone), s.end) == 0 <==> NothingRestored(was, hit, hydrateEnd))
  {
    var gone := Positions(was, hit);
    var c := ByArrival(was);
    hide ByArrival, Sorted, Kept, Picked, Without, Below, AfterDel, Restored, Distinct, NothingRestored, Numbered;
    ByArrivalOfRest(was, hit, now);
    KeptIsWithout(c, hit, gone);
    DelIsExact(s, gone);
    RestoredPermutes(now, ByArrival(now), hydrateEnd);
    RestoredIsBelow(ByArrival(now), hydrateEnd);
    GoneRestored(was, hit, gone, hydrateEnd);
  }

  lemma RestoredIsBelow<T>(s: seq<Entry<T>>, end: nat)
    ensures Restored(s, end) == Below(Seqs(s), end)
  {
  }

  lemma GoneRestored<T(!new)>(was: seq<Entry<T>>, hit: Entry<T> -> bool, gone: set<nat>, end: nat)
    requires gone == Positions(was, hit)
    ensures Below(Picked(Seqs(ByArrival(was)), gone), end) == 0 <==> NothingRestored(was, hit, end)
  {
    var c := ByArrival(was);
    var out := Without((e: Entry<T>) => !hit(e), c);
    KeptIsWithout(c, hit, gone);
    assert Below(Picked(Seqs(c), gone), end) == Restored(out, end);
    forall e ensures e in out <==> e in was && hit(e) {
      WithoutHas((e: Entry<T>) => !hit(e), c, e);
      assert e in c <==> e in multiset(c);
      assert e in was <==> e in multiset(was);
    }
    if NothingRestored(was, hit, end) {
      NoneRestored(out, end);
    } else {
      var e :| e in was && hit(e) && e.seqNo < end;
      RestoredMember(out, e, end);
    }
  }

  /** Two ascending sequences of the same entries are one. */
  lemma {:induction false} SameMembersSameOrder<T(!new)>(less: (T, T) -> bool, s: seq<Entry<T>>, t: seq<Entry<T>>)
    requires StrictWeak(less) && Ascends(less, s) && Ascends(less, t) && forall x :: x in s <==> x in t
    ensures s == t
  {
    hide StrictWeak, PrioritySeqLess;
    assert t != [] ==> t[0] in s;
    if s != [] {
      assert s[0] in t;
      SameHead(less, s, t);
      PriorityIsStrictTotal(less, s[0], s[0], s[0]);
      forall x ensures x in s[1..] <==> x in t[1..] {
        assert x in s[1..] ==> x in s && PrioritySeqLess(less, s[0], x);
        assert x in t[1..] ==> x in t && PrioritySeqLess(less, t[0], x);
      }
      SameMembersSameOrder(less, s[1..], t[1..]);
    }
  }

  lemma PopLeaves<T(!new)>(s: State, was: seq<Entry<T>>, hydrated: int, nextSeq: nat, hydrateEnd: nat,
                            popped: seq<Entry<T>>, now: seq<Entry<T>>)
    requires Accounts(s) && Abstracts(s, was, hydrated, nextSeq, hydrateEnd) && Distinct(was)
    requires multiset(now) + multiset(popped) == multiset(was)
    ensures var gone := Positions(was, (e: Entry<T>) => e in popped);
      && |Picked(s.contents, gone)| == |popped|
      && Abstracts(Remove(s, gone, AfterPop(s, |popped|, gone)), now, hydrated - Restored(popped, hydrateEnd), nextSeq,
                   hydrateEnd)
  {
    hide ByArrival, Sorted, Kept, Picked, Without, Below, DropSeqs, Restored, Distinct, StrictWeak, PrioritySeqLess;
    NoneBeforeIsWeak<T>();
    var hit := (e: Entry<T>) => e in popped;
    var gone := Positions(was, hit);
    var c := ByArrival(was);
    RemovedAreCounted(was, now, popped, hydrateEnd);
    ByArrivalAscends(was);
    ByArrivalAscends(now);
    WithoutKeeps(NoneBefore, hit, c);
    forall x ensures x in ByArrival(now) <==> x in Without(hit, c) {
      WithoutHas(hit, c, x);
      OnceOnly(was, x);
      assert x in ByArrival(now) <==> x in multiset(now);
      assert x in c <==> x in multiset(was);
      assert x in popped <==> x in multiset(popped);
    }
    SameMembersSameOrder(NoneBefore, ByArrival(now), Without(hit, c));
    KeptIsWithout(c, hit, gone);
    KeptCounts(s.contents, gone, s.end);
    assert |multiset(now)| == |now| && |multiset(popped)| == |popped| && |multiset(was)| == |was|;
    DelIsExact(s, gone);
    RestoredPermutes(was, c, hydrateEnd);
    RestoredPermutes(now, ByArrival(now), hydrateEnd);
    RestoredIsBelow(c, hydrateEnd);
    RestoredIsBelow(ByArrival(now), hydrateEnd);
  }

  lemma ByArrivalOfMore<T(!new)>(was: seq<Entry<T>>, vs: seq<T>, nextSeq: nat, now: seq<Entry<T>>)
    requires Distinct(was) && (forall x :: x in was ==> x.seqNo < nextSeq)
    requires multiset(now) == multiset(was) + multiset(Accounting.Arrivals(vs, nextSeq))
    ensures ByArrival(now) == ByArrival(was) + Accounting.Arrivals(vs, nextSeq)
  {
    hide ByArrival, Restored, StrictWeak;
    NoneBeforeIsWeak<T>();
    var c, new_ := ByArrival(was), Accounting.Arrivals(vs, nextSeq);
    ByArrivalAscends(was);
    ArrivalsAreNew(was, vs, nextSeq, 0, now);
    ByArrivalAscends(now);
    forall i | 0 <= i < |c| ensures c[i].seqNo < nextSeq {
      assert c[i] in multiset(c) && c[i] in multiset(was) && c[i] in was;
    }
    AscendingIsUnique(NoneBefore, c + new_, ByArrival(now));
  }

  lemma SameAccounts(s: State, m: nat, hook: bool)
    ensures var d, i, b := s.(contents := Appended(s.contents, s.next, m), next := s.next + m),
                           Admission.Insert(s, m, hook, Calls(Ok, Ok, Ok, 0)), Abandon(s, m, hook);
      && i == d.(ts := i.ts, unannounced := i.unannounced)
      && b == d.(ts := b.ts, unannounced := b.unannounced, unsignalled := b.unsignalled)
  {
    hide Appended, SignalFull, SignalEmpty;
    var d := s.(contents := Appended(s.contents, s.next, m), next := s.next + m);
    Delivery.SignalsSettle(d);
    Delivery.SignalsSettle(d.(unannounced := s.unannounced || (s.contents == [] && m > 0)));
  }

  lemma InsertLeaves<T(!new)>(s: State, was: seq<Entry<T>>, hydrated: int, nextSeq: nat, hydrateEnd: nat, vs: seq<T>,
                             hook: bool, now: seq<Entry<T>>)
    requires Abstracts(s, was, hydrated, nextSeq, hydrateEnd)
    requires Distinct(was) && forall x :: x in was ==> x.seqNo < nextSeq
    requires multiset(now) == multiset(was) + multiset(Accounting.Arrivals(vs, nextSeq))
    ensures Abstracts(Admission.Insert(s, |vs|, hook, Calls(Ok, Ok, Ok, 0)), now, hydrated, nextSeq + |vs|, hydrateEnd)
    ensures Abstracts(Abandon(s, |vs|, hook), now, hydrated, nextSeq + |vs|, hydrateEnd)
  {
    hide ByArrival, Distinct, Appended, Admission.Insert, Abandon;
    SameAccounts(s, |vs|, hook);
    ByArrivalOfMore(was, vs, nextSeq, now);
    AppendedIsCat(s.contents, nextSeq, |vs|);
    var c, new_ := ByArrival(was), Accounting.Arrivals(vs, nextSeq);
    assert Seqs(c + new_) == Seqs(c) + Seqs(new_);
  }

  lemma {:induction false} AppendedIsCat(c: seq<nat>, next: nat, m: nat)
    ensures Appended(c, next, m) == c + seq(m, i requires 0 <= i < m => next + i)
  {
    if m > 0 { AppendedIsCat(c, next, m - 1); }
  }

  // ---- the steps

  /** What the backings' PushBatch leaves is what the protocol's step leaves, vs being as much as that puts in: all of
      the batch, or what had landed when an Item method unwound, or nothing. */
  lemma PushIsAStep<T(!new)>(s: State, t: nat, a: Action, was: seq<Entry<T>>, hydrated: int, nextSeq: nat,
                             hydrateEnd: nat, vs: seq<T>, now: seq<Entry<T>>)
    requires Enabled(s, t, a) && (a.Push? || a.HookDone?) && |vs| == Delivery.In(s, t, a)
    requires Abstracts(s, was, hydrated, nextSeq, hydrateEnd)
    requires Distinct(was) && forall x :: x in was ==> x.seqNo < nextSeq
    requires multiset(now) == multiset(was) + multiset(Accounting.Arrivals(vs, nextSeq))
    ensures Abstracts(Next(s, t, a), now, hydrated, nextSeq + |vs|, hydrateEnd)
  {
    hide ByArrival, Distinct, Appended, Next, Enabled, Delivery.In;
    if a.Push? { Delivery.PushAppends(s, t, a); } else { Delivery.HookAppends(s, t, a); }
    InsertLeaves(s, was, hydrated, nextSeq, hydrateEnd, vs, false, now);
    AbandonAppends(s, |vs|);
  }

  lemma AbandonAppends(s: State, m: nat)
    ensures Abandon(s, m, false).contents == Appended(s.contents, s.next, m)
  {
  }

  /** What the backings' PopBatch leaves, whichever entries it took, is what the protocol's Pop of them leaves. */
  lemma PopIsAStep<T(!new)>(s: State, t: nat, n: nat, calls: Calls, was: seq<Entry<T>>, hydrated: int, nextSeq: nat,
                            hydrateEnd: nat, popped: seq<Entry<T>>, now: seq<Entry<T>>)
    requires Accounts(s) && Abstracts(s, was, hydrated, nextSeq, hydrateEnd) && Distinct(was)
    requires t < |s.ts| && s.ts[t] == Idle && !s.closed && was != [] && calls.AllOk()
    requires multiset(now) + multiset(popped) == multiset(was) && |popped| == Min(n, |was|)
    ensures var a := Pop(n, Positions(was, (e: Entry<T>) => e in popped), calls);
      && Enabled(s, t, a) && |Delivery.Out(s, a)| == |popped|
      && Abstracts(Next(s, t, a), now, hydrated - Restored(popped, hydrateEnd), nextSeq, hydrateEnd)
  {
    hide ByArrival, Accounts, Restored, Remove, AfterPop, Picked, Distinct;
    PopLeaves(s, was, hydrated, nextSeq, hydrateEnd, popped, now);
  }

  /** What the backings' Del leaves when it has removed what is hit is what the protocol's Del of it leaves: the
      exemption charged when it returns, and as it was when it unwinds; and what was removed includes no restored entry
      exactly when the protocol says so. */
  lemma DelIsAStep<T(!new)>(s: State, t: nat, calls: Calls, was: seq<Entry<T>>, hydrated: int, nextSeq: nat,
                            hydrateEnd: nat, hit: Entry<T> -> bool, now: seq<Entry<T>>)
    requires Accounts(s) && Abstracts(s, was, hydrated, nextSeq, hydrateEnd) && Distinct(was)
    requires t < |s.ts| && s.ts[t] == Idle && !s.closed && calls.side.Ok? && calls.backup.Ok?
    requires multiset(now) == multiset(Without(hit, was))
    ensures var a := Del(Positions(was, hit), calls);
      && Enabled(s, t, a)
      && Abstracts(Next(s, t, a), now,
                   if calls.items.Ok? || a.gone == {} then Restored(now, hydrateEnd) + s.uncharged else hydrated,
                   nextSeq, hydrateEnd)
      && (Below(Picked(s.contents, a.gone), s.end) == 0 <==> NothingRestored(was, hit, hydrateEnd))
  {
    hide ByArrival, Accounts, Restored, Remove, DelUnwound, AfterDel, Picked, Below, Without, NothingRestored;
    DelLeaves(s, was, hydrated, nextSeq, hydrateEnd, hit, now);
    NothingLeaves(s);
  }

  lemma NothingLeaves(s: State)
    requires Accounts(s)
    ensures var s' := Remove(s, {}, AfterDel(s, {})); s'.contents == s.contents && s'.hydrated == s.hydrated
  {
    Delivery.NothingPicked(s.contents);
    DelIsExact(s, {});
    hide Kept, Picked, Below, AfterDel;
  }
}
