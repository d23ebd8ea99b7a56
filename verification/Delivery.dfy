/** What the steps of the admission protocol put in and hand out, and that over whole runs nothing is lost and nothing
    is handed out twice. */
module Delivery {
  import opened Basics
  import opened Hydration
  import opened Admission
  import opened AdmissionRuns

  /** How many of its items a step puts in: all of the batch, what had landed when an Item method unwound, or none. */
  function In(s: State, t: nat, a: Action): nat
    requires t < |s.ts|
  {
    if !Inserts(s, t, a) then 0
    else
      var m := if a.Push? then a.m else s.ts[t].m;
      if a.calls.AllOk() then m else Landed(s, m, a.calls)
  }

  /** A removal that comes about: the queue is open and holds something, and no caller code stops it before anything is
      removed. */
  predicate Removes(s: State, a: Action)
  {
    && !s.closed && s.contents != []
    && match a
       case Pop(_, _, calls) => calls.AllOk()
       case Del(_, calls) => calls.side.Ok? && calls.backup.Ok? && (calls.items.Ok? || s.disc == BySeq)
       case Clear(calls) => calls.side.Ok? && calls.backup.Ok?
       case _ => false
  }

  /** What a step takes out, oldest first. */
  function Out(s: State, a: Action): seq<nat>
  {
    if !Removes(s, a) then []
    else if a.Clear? then s.contents
    else Picked(s.contents, a.gone)
  }

  // ---- one step

  /** c has become d: `out` has left and the numbers from `next` up to `last` have come. */
  ghost predicate Moved(c: seq<nat>, out: seq<nat>, next: nat, last: nat, d: seq<nat>)
  {
    && next <= last && |d| + |out| == |c| + last - next
    && (forall x: nat :: x in c || next <= x < last <==> x in out || x in d)
    && (forall x :: x in out ==> x !in d)
  }

  lemma {:induction false} PickedOrKept(c: seq<nat>, gone: set<nat>, x: nat)
    requires Ascending(c)
    ensures x in c <==> x in Kept(c, gone) || x in Picked(c, gone)
    ensures x in Picked(c, gone) ==> x !in Kept(c, gone)
  {
    if c != [] {
      var n := |c| - 1;
      PickedOrKept(c[..n], gone, x);
      assert x in c <==> x in c[..n] || x == c[n];
      assert c[n] !in c[..n];
    }
  }

  lemma RemovalMoves(c: seq<nat>, gone: set<nat>, next: nat)
    requires Ascending(c)
    ensures Moved(c, Picked(c, gone), next, next, Kept(c, gone))
  {
    hide Kept, Picked, Ascending;
    KeptCounts(c, gone, 0);
    forall x: nat
      ensures x in c <==> x in Kept(c, gone) || x in Picked(c, gone)
      ensures x in Picked(c, gone) ==> x !in Kept(c, gone)
    {
      PickedOrKept(c, gone, x);
    }
  }

  lemma {:induction false} AppendedHas(c: seq<nat>, next: nat, m: nat, x: nat)
    ensures x in Appended(c, next, m) <==> x in c || next <= x < next + m
  {
    if m > 0 { AppendedHas(c, next, m - 1, x); }
  }

  lemma ArrivalsMove(c: seq<nat>, next: nat, m: nat)
    ensures Moved(c, [], next, next + m, Appended(c, next, m))
  {
    hide Appended;
    forall x: nat ensures x in Appended(c, next, m) <==> x in c || next <= x < next + m { AppendedHas(c, next, m, x); }
  }

  /** Every step takes out what it hands out, puts in what it admits, numbered on from the last, and moves nothing
      else. */
  lemma StepMoves(s: State, t: nat, a: Action)
    requires Ascending(s.contents) && Enabled(s, t, a)
    ensures var s' := Next(s, t, a);
      s'.next == s.next + In(s, t, a) && Moved(s.contents, Out(s, a), s.next, s'.next, s'.contents)
  {
    hide *;
    match a
    case Push(_, _, _) => InsertMoves(s, t, a);
    case HookDone(_, _) => InsertMoves(s, t, a);
    case Pop(_, _, _) => PopMoves(s, t, a);
    case Del(_, _) => DelMoves(s, t, a);
    case Clear(_) => ClearMoves(s, t, a);
    case _ => RestMoves(s, t, a);
  }

  /** A Pop and a Del take off the exemption as many restored entries as they take out, counted by position or by
      arrival number as the queue does; only a Del that unwinds takes off none. */
  lemma RemovalsAreCharged(s: State, t: nat, a: Action)
    requires Accounts(s) && Enabled(s, t, a) && (a.Pop? || a.Del?)
    ensures Next(s, t, a).hydrated == s.hydrated - if DelUnwinds(s, a) then 0 else Below(Out(s, a), s.end)
  {
    hide Kept, Picked, Below, Ascending, SignalFull, AfterPop, AfterDel, Reservations;
    BelowNothing(s.end);
    KeptCounts(s.contents, a.gone, s.end);
    if a.Pop? {
      PopIsExact(s, t, a.n, a.gone, a.calls);
      SignalKeepsHydrated(s.(contents := Kept(s.contents, a.gone),
                             hydrated := AfterPop(s, Min(a.n, |s.contents|), a.gone)));
    } else {
      NothingPicked(s.contents);
      DelIsExact(s, a.gone);
      SignalKeepsHydrated(s.(contents := Kept(s.contents, a.gone), hydrated := AfterDel(s, a.gone)));
    }
  }

  lemma BelowNothing(end: nat)
    ensures Below([], end) == 0
  {
  }

  lemma SignalKeepsHydrated(s: State)
    ensures SignalFull(s).hydrated == s.hydrated
  {
    hide HasFull, WokenFull;
  }

  /** m more are in, numbered on, and nothing else of the accounts has changed. */
  ghost predicate Appends(s: State, m: nat, s': State)
  {
    && s'.contents == Appended(s.contents, s.next, m) && s'.next == s.next + m
    && s'.hydrated == s.hydrated && s'.end == s.end && s'.disc == s.disc
  }

  lemma PushAppends(s: State, t: nat, a: Action)
    requires Enabled(s, t, a) && a.Push?
    ensures Appends(s, In(s, t, a), Next(s, t, a))
  {
    hide Appended, Used, HasFull, HasEmpty, WokenFull, WokenEmpty;
    AppendedNothing(s.contents, s.next);
  }

  lemma HookAppends(s: State, t: nat, a: Action)
    requires Enabled(s, t, a) && a.HookDone?
    ensures Appends(s, In(s, t, a), Next(s, t, a))
  {
    hide Appended, Used, HasFull, HasEmpty, WokenFull, WokenEmpty;
    AppendedNothing(s.contents, s.next);
  }

  lemma InsertMoves(s: State, t: nat, a: Action)
    requires Enabled(s, t, a) && (a.Push? || a.HookDone?)
    ensures var s' := Next(s, t, a);
      s'.next == s.next + In(s, t, a) && Moved(s.contents, Out(s, a), s.next, s'.next, s'.contents)
  {
    hide Next, In, Moved, Appended;
    if a.Push? { PushAppends(s, t, a); } else { HookAppends(s, t, a); }
    ArrivalsMove(s.contents, s.next, In(s, t, a));
  }

  lemma AppendedNothing(c: seq<nat>, next: nat)
    ensures Appended(c, next, 0) == c
  {
  }

  lemma PopMoves(s: State, t: nat, a: Action)
    requires Ascending(s.contents) && Enabled(s, t, a) && a.Pop?
    ensures var s' := Next(s, t, a);
      s'.next == s.next + In(s, t, a) && Moved(s.contents, Out(s, a), s.next, s'.next, s'.contents)
  {
    hide Ascending, Moved, Kept, Picked, AfterPop, HasFull, WokenFull;
    RemovalMoves(s.contents, a.gone, s.next);
    ArrivalsMove(s.contents, s.next, 0);
    AppendedNothing(s.contents, s.next);
  }

  lemma DelMoves(s: State, t: nat, a: Action)
    requires Ascending(s.contents) && Enabled(s, t, a) && a.Del?
    ensures var s' := Next(s, t, a);
      s'.next == s.next + In(s, t, a) && Moved(s.contents, Out(s, a), s.next, s'.next, s'.contents)
  {
    hide Ascending, Moved, Kept, Picked, Below, AfterDel, HasFull, WokenFull;
    RemovalMoves(s.contents, a.gone, s.next);
    RemovalMoves(s.contents, {}, s.next);
    NothingPicked(s.contents);
    ArrivalsMove(s.contents, s.next, 0);
    AppendedNothing(s.contents, s.next);
  }

  lemma {:induction false} NothingPicked(c: seq<nat>)
    ensures Picked(c, {}) == [] && Kept(c, {}) == c
  {
    if c != [] { NothingPicked(c[..|c| - 1]); }
  }

  lemma ClearMoves(s: State, t: nat, a: Action)
    requires Enabled(s, t, a) && a.Clear?
    ensures var s' := Next(s, t, a);
      s'.next == s.next + In(s, t, a) && Moved(s.contents, Out(s, a), s.next, s'.next, s'.contents)
  {
    hide HasFull, WokenFull;
  }

  lemma RestMoves(s: State, t: nat, a: Action)
    requires Enabled(s, t, a)
    requires a.NotEmpty? || a.NotFull? || a.Close? || a.CloseSignal? || a.Resume?
    ensures var s' := Next(s, t, a);
      s'.next == s.next + In(s, t, a) && Moved(s.contents, Out(s, a), s.next, s'.next, s'.contents)
  {
    hide Moved, SignalFull, SignalEmpty, Used;
    ArrivalsMove(s.contents, s.next, 0);
    AppendedNothing(s.contents, s.next);
    if a.CloseSignal? {
      SignalEmptyEffect(MoveTo(s, t, Closing(false, s.ts[t].full)));
      SignalFullEffect(MoveTo(s, t, Idle));
    }
  }

  // ---- what the caller is told, by where it stands after the step

  /** A Push waits exactly when the queue is open, the batch is no larger than the bound, and what was admitted and is
      reserved, less what was never charged, leaves no room for it; its hook runs exactly when there is room. */
  lemma PushWaitsIff(s: State, t: nat, m: nat, hook: bool, calls: Calls)
    requires Accounts(s) && Enabled(s, t, Push(m, hook, calls))
    ensures var pc := PcOf(Next(s, t, Push(m, hook, calls)), t);
      && (pc == WaitFull(m, false) <==>
            !s.closed && 0 < s.maxSize && m <= s.maxSize && Admitted(s) - s.uncharged + m > s.maxSize)
      && (pc == Hooked(m) <==>
            !s.closed && hook && (s.maxSize == 0 || (m <= s.maxSize && Admitted(s) - s.uncharged + m <= s.maxSize)))
      && (pc == WaitFull(m, false) || pc == Hooked(m) || pc == Idle)
  {
    hide Below, Appended, Landed, HasFull, HasEmpty, Ascending, Reservations;
  }

  /** A Pop waits exactly when the queue is open and empty; one that is not stopped hands out as many as it asked for or
      there are, and of a queue without priorities the oldest. */
  lemma PopWaitsIff(s: State, t: nat, n: nat, gone: set<nat>, calls: Calls)
    requires Enabled(s, t, Pop(n, gone, calls))
    ensures var pc := PcOf(Next(s, t, Pop(n, gone, calls)), t);
      && (pc == WaitEmpty(false) <==> !s.closed && s.contents == []) && (pc == WaitEmpty(false) || pc == Idle)
    ensures !s.closed && calls.AllOk() ==> |Out(s, Pop(n, gone, calls))| == Min(n, |s.contents|)
    ensures !s.closed && calls.AllOk() && s.disc == ByPosition ==>
      Out(s, Pop(n, gone, calls)) == s.contents[..Min(n, |s.contents|)]
  {
    hide Kept, AfterPop, HasFull;
    if s.disc == ByPosition { PickedIsFront(s.contents, gone, n); }
    SignalFullEffect(s.(contents := Kept(s.contents, gone), hydrated := AfterPop(s, Min(n, |s.contents|), gone)));
  }

  /** NotEmpty waits exactly when the queue is open and empty, NotFull exactly when it is open and what is admitted and
      reserved, less what was never charged, has come to the bound; otherwise they do nothing. */
  lemma WatchersWaitIff(s: State, t: nat)
    requires Accounts(s) && Enabled(s, t, NotEmpty)
    ensures var empty := !s.closed && s.contents == [];
      Next(s, t, NotEmpty) == if empty then s.(ts := s.ts[t := WaitEmpty(false)]) else s
    ensures var full := !s.closed && 0 < s.maxSize && s.maxSize <= Admitted(s) - s.uncharged;
      Next(s, t, NotFull) == if full then s.(ts := s.ts[t := WaitFull(1, false)]) else s
  {
    hide Below, Ascending, Reservations;
  }

  lemma {:induction false} PickedIsFront(c: seq<nat>, gone: set<nat>, n: nat)
    requires forall i: nat :: i < |c| ==> (i in gone <==> i < n)
    ensures Picked(c, gone) == c[..Min(n, |c|)]
  {
    if c != [] {
      var k := |c| - 1;
      PickedIsFront(c[..k], gone, n);
      assert n > k ==> c == c[..k] + [c[k]];
      assert n <= k ==> c[..k][..n] == c[..n];
    }
  }

  /** How much of a call is still to come. */
  function Due(pc: Pc): nat
  {
    match pc
    case Idle => 0
    case Closing(empty, _) => if empty then 2 else 1
    case _ => 1
  }

  /** A call that goes on comes nearer its end: nobody is left in a hook that has ended, in a wait it was woken from, or
      owing a signal it has given. */
  lemma CallsGoOn(s: State, t: nat, a: Action)
    requires Enabled(s, t, a) && (a.HookDone? || a.CloseSignal? || a.Resume?)
    ensures Due(PcOf(Next(s, t, a), t)) < Due(PcOf(s, t))
  {
    hide Used, Appended, Landed;
    PushEffect(s, t, a);
    if a.CloseSignal? {
      SignalEmptyEffect(MoveTo(s, t, Closing(false, s.ts[t].full)));
      SignalFullEffect(MoveTo(s, t, Idle));
    }
  }

  /** And each can go on: the hook returns, a wait is over when its context is, a Close gives the signals it owes. */
  lemma CallsAreNeverStuck(s: State, t: nat, hooked: Outcome, calls: Calls)
    requires t < |s.ts| && s.ts[t] != Idle
    ensures Enabled(s, t, HookDone(hooked, calls)) || Enabled(s, t, CloseSignal) || Enabled(s, t, Resume)
  {
  }

  /** A Push that caller code stops does not get all of its batch in: none of it if the queue goes by positions or the
      side effect or the Backup refuses; and a hook that does not return leaves none either. */
  lemma StoppedPushIsPartial(s: State, t: nat, a: Action)
    requires Enabled(s, t, a) && ((a.Push? && a.m > 0) || (a.HookDone? && s.ts[t].m > 0)) && !a.calls.AllOk()
    ensures var c, d := s.contents, Next(s, t, a).contents;
      && |d| < |c| + (if a.Push? then a.m else s.ts[t].m)
      && (s.disc == ByPosition || !a.calls.side.Ok? || !a.calls.backup.Ok? ==> d == c)
      && (a.HookDone? && !a.hooked.Ok? ==> d == c)
  {
    hide Appended, Used, HasFull, HasEmpty, WokenFull, WokenEmpty;
    AppendedNothing(s.contents, s.next);
  }

  lemma SignalsSettle(s: State)
    ensures SignalFull(s) == s.(ts := SignalFull(s).ts, unsignalled := false)
    ensures SignalEmpty(s) == s.(ts := SignalEmpty(s).ts, unannounced := false)
    ensures |SignalFull(s).ts| == |s.ts| == |SignalEmpty(s).ts|
  {
    hide HasFull, HasEmpty;
  }

  /** Only Close closes, when its side effect lets it, and then it owes both signals. */
  lemma OnlyCloseCloses(s: State, t: nat, a: Action)
    requires Enabled(s, t, a)
    ensures var s' := Next(s, t, a);
      && (s'.closed <==> s.closed || (a.Close? && a.side.Ok?))
      && (s'.closed && !s.closed ==> PcOf(s', t) == Closing(true, true))
      && s'.disc == s.disc && s'.maxSize == s.maxSize && s'.end == s.end
  {
    if a.Push? || a.HookDone? {
      hide Insert, Used, Landed, SignalFull;
      PushEffect(s, t, a);
    } else if a.Pop? || a.Del? || a.Clear? {
      RemovalChangesNoSetting(s, t, a);
    } else {
      hide Used, SignalFull, SignalEmpty;
      if a.CloseSignal? {
        SignalsSettle(MoveTo(s, t, Closing(false, s.ts[t].full)));
        SignalsSettle(MoveTo(s, t, Idle));
      }
    }
  }

  lemma RemovalChangesNoSetting(s: State, t: nat, a: Action)
    requires Enabled(s, t, a) && (a.Pop? || a.Del? || a.Clear?)
    ensures var s' := Next(s, t, a);
      s'.closed == s.closed && s'.disc == s.disc && s'.maxSize == s.maxSize && s'.end == s.end
  {
    hide Kept, Picked, Below, AfterPop, AfterDel, HasFull, WokenFull;
  }

  // ---- whole runs

  /** All that the steps of a run hand out, in the order they do. */
  function GoneBy(s: State, run: seq<Step>): seq<nat>
    requires Allowed(s, run)
    decreases |run|
  {
    if run == [] then [] else Out(s, run[0].a) + GoneBy(Next(s, run[0].t, run[0].a), run[1..])
  }

  /** ... those of them that are Pops. */
  function PoppedBy(s: State, run: seq<Step>): seq<nat>
    requires Allowed(s, run)
    decreases |run|
  {
    if run == [] then []
    else (if run[0].a.Pop? then Out(s, run[0].a) else []) + PoppedBy(Next(s, run[0].t, run[0].a), run[1..])
  }

  /** How much the steps of a run put in. */
  function PutBy(s: State, run: seq<Step>): nat
    requires Allowed(s, run)
    decreases |run|
  {
    if run == [] then 0 else In(s, run[0].t, run[0].a) + PutBy(Next(s, run[0].t, run[0].a), run[1..])
  }

  predicate Unique(c: seq<nat>)
  {
    forall i, j :: 0 <= i < j < |c| ==> c[i] != c[j]
  }

  lemma {:induction false} RunMoves(s: State, run: seq<Step>)
    requires Inv(s) && Allowed(s, run)
    ensures var e := End(s, run);
      && e.next == s.next + PutBy(s, run) && Unique(GoneBy(s, run))
      && Moved(s.contents, GoneBy(s, run), s.next, e.next, e.contents)
    decreases |run|
  {
    hide Inv, Next, Enabled, Out, In, Moved, Unique;
    if run == [] {
      ArrivalsMove(s.contents, s.next, 0);
      AppendedNothing(s.contents, s.next);
      NothingTwice();
    } else {
      var s1 := Next(s, run[0].t, run[0].a);
      StepKeeps(s, run[0].t, run[0].a);
      InvAscends(s);
      InvAscends(s1);
      StepMoves(s, run[0].t, run[0].a);
      RunMoves(s1, run[1..]);
      OutIsUnique(s, run[0].a);
      MovedTwice(s.contents, Out(s, run[0].a), s.next, s1.next, s1.contents, GoneBy(s1, run[1..]),
                 End(s1, run[1..]).next, End(s1, run[1..]).contents);
    }
  }

  lemma NothingTwice()
    ensures Unique([])
  {
  }

  lemma InvAscends(s: State)
    requires Inv(s)
    ensures Ascending(s.contents) && forall x :: x in s.contents ==> x < s.next
  {
  }

  lemma {:induction false} PickedAscends(c: seq<nat>, gone: set<nat>)
    requires Ascending(c)
    ensures Ascending(Picked(c, gone)) && forall x :: x in Picked(c, gone) ==> x in c
  {
    if c != [] {
      var n := |c| - 1;
      var k := Picked(c[..n], gone);
      PickedAscends(c[..n], gone);
      assert forall x :: x in c[..n] ==> x in c && x < c[n];
      if n in gone { AppendAscends(k, c[n]); } else { assert k + [] == k; }
    }
  }

  lemma OutIsUnique(s: State, a: Action)
    requires Ascending(s.contents)
    ensures Ascending(Out(s, a)) && Unique(Out(s, a))
  {
    hide Picked;
    if Removes(s, a) && !a.Clear? { PickedAscends(s.contents, a.gone); }
  }

  lemma MovedTwice(c: seq<nat>, out1: seq<nat>, next: nat, mid: nat, d: seq<nat>, out2: seq<nat>, last: nat,
                   e: seq<nat>)
    requires Moved(c, out1, next, mid, d) && Moved(d, out2, mid, last, e) && Unique(out1) && Unique(out2)
    requires forall x :: x in c ==> x < next
    ensures Moved(c, out1 + out2, next, last, e) && Unique(out1 + out2)
  {
    assert forall x :: x in out1 + out2 <==> x in out1 || x in out2;
    forall i, j | 0 <= i < j < |out1 + out2| ensures (out1 + out2)[i] != (out1 + out2)[j] {
      if i < |out1| <= j { assert (out1 + out2)[i] in out1 && (out1 + out2)[j] in out2; }
    }
  }

  /** Over any run, whatever hooks, side effects, Backups and Item methods do: every number given out is either still
      in the queue or has been handed out, once, by a Pop, a Del or a Clear; so what came in is what was handed out and
      what is left. */
  lemma DeliveredOnce(disc: Discipline, maxSize: nat, restored: nat, threads: nat, run: seq<Step>)
    requires Allowed(Start(disc, maxSize, restored, threads), run)
    ensures var s := Start(disc, maxSize, restored, threads);
      var e, g := End(s, run), GoneBy(s, run);
      && Unique(g) && Ascending(e.contents) && (forall x: nat :: x < e.next <==> x in e.contents || x in g)
      && (forall x :: x in g ==> x !in e.contents)
      && restored + PutBy(s, run) == |g| + |e.contents| == e.next
  {
    var s := Start(disc, maxSize, restored, threads);
    hide Inv, Next, Enabled, Out, In, Ascending, Unique, Appended;
    StartHolds(disc, maxSize, restored, threads);
    RunMoves(s, run);
    RunKeeps(s, run);
    InvAscends(End(s, run));
    ArrivalsMove([], 0, restored);
  }

  /** First in, first out: in any run of a queue without priorities, each Pop hands out older items than any later Pop,
      and older than all that are left. */
  lemma {:induction false} PopsAscend(s: State, run: seq<Step>)
    requires Inv(s) && Allowed(s, run) && s.disc == ByPosition
    ensures var all := PoppedBy(s, run) + End(s, run).contents;
      Ascending(all) && forall x :: x in all ==> x in s.contents || s.next <= x
    decreases |run|
  {
    hide Inv, Next, Enabled, Out, In, Moved, Ascending;
    if run != [] {
      var x := run[0];
      var s1 := Next(s, x.t, x.a);
      StepKeeps(s, x.t, x.a);
      InvAscends(s);
      StepMoves(s, x.t, x.a);
      OnlyCloseCloses(s, x.t, x.a);
      PopsAscend(s1, run[1..]);
      FrontIsOldest(s, x.t, x.a);
      AscendsOn(s, x.a, s1, PoppedBy(s1, run[1..]) + End(s1, run[1..]).contents);
      assert PoppedBy(s, run) + End(s, run).contents ==
        (if x.a.Pop? then Out(s, x.a) else []) + (PoppedBy(s1, run[1..]) + End(s1, run[1..]).contents);
    } else {
      InvAscends(s);
      assert [] + s.contents == s.contents;
    }
  }

  /** What a Pop of such a queue leaves is younger than what it hands out. */
  lemma FrontIsOldest(s: State, t: nat, a: Action)
    requires Inv(s) && Enabled(s, t, a) && s.disc == ByPosition
    ensures var s' := Next(s, t, a);
      a.Pop? ==> forall x, y :: x in Out(s, a) && y in s'.contents ==> x < y
    ensures Ascending(Out(s, a))
  {
    hide Kept, Picked, AfterPop, HasFull, WokenFull, Accounts, AfterDel, Below;
    InvAscends(s);
    OutIsUnique(s, a);
    if a.Pop? && Removes(s, a) {
      PickedIsFront(s.contents, a.gone, a.n);
      KeptIsBack(s.contents, a.gone, a.n);
    }
  }

  lemma {:induction false} KeptIsBack(c: seq<nat>, gone: set<nat>, n: nat)
    requires forall i: nat :: i < |c| ==> (i in gone <==> i < n)
    ensures Kept(c, gone) == c[Min(n, |c|)..]
  {
    if c != [] {
      var k := |c| - 1;
      KeptIsBack(c[..k], gone, n);
      assert n <= k ==> c[n..] == c[..k][n..] + [c[k]];
    }
  }

  lemma AscendsOn(s: State, a: Action, s1: State, later: seq<nat>)
    requires Ascending(Out(s, a)) && Ascending(later) && Moved(s.contents, Out(s, a), s.next, s1.next, s1.contents)
    requires forall x :: x in s.contents ==> x < s.next
    requires a.Pop? ==> forall x, y :: x in Out(s, a) && y in s1.contents ==> x < y
    requires forall x :: x in later ==> x in s1.contents || s1.next <= x
    ensures var all := (if a.Pop? then Out(s, a) else []) + later;
      Ascending(all) && forall x :: x in all ==> x in s.contents || s.next <= x
  {
    hide Out, Ascending;
    var out := if a.Pop? then Out(s, a) else [];
    NothingAscends();
    assert forall x :: x in out + later <==> x in out || x in later;
    forall x, y | x in out && y in later ensures x < y { assert x in s.contents || s.next <= x < s1.next; }
    AscendsTogether(out, later);
  }

  lemma NothingAscends()
    ensures Ascending([])
  {
  }

  lemma AscendsTogether(c: seq<nat>, d: seq<nat>)
    requires Ascending(c) && Ascending(d) && forall x, y :: x in c && y in d ==> x < y
    ensures Ascending(c + d)
  {
    var all := c + d;
    forall i, j | 0 <= i < j < |all| ensures all[i] < all[j] {
      if i < |c| <= j { assert all[i] in c && all[j] in d; }
    }
  }

  /** Nothing but Pops takes anything out. */
  predicate OnlyPops(run: seq<Step>)
  {
    forall k :: 0 <= k < |run| ==> !run[k].a.Del? && !run[k].a.Clear?
  }

  lemma {:induction false} PoppedIsGone(s: State, run: seq<Step>)
    requires Allowed(s, run) && OnlyPops(run)
    ensures PoppedBy(s, run) == GoneBy(s, run)
    decreases |run|
  {
    hide Enabled, Next;
    if run != [] {
      assert OnlyPops(run[1..]) && !run[0].a.Del? && !run[0].a.Clear?;
      PoppedIsGone(Next(s, run[0].t, run[0].a), run[1..]);
    }
  }

  /** So if nothing is deleted or cleared, the Pops of a run hand out the first numbers in order, none left out. */
  lemma FirstInFirstOut(maxSize: nat, restored: nat, threads: nat, run: seq<Step>)
    requires Allowed(Start(ByPosition, maxSize, restored, threads), run) && OnlyPops(run)
    ensures var s := Start(ByPosition, maxSize, restored, threads);
      var p, e := PoppedBy(s, run), End(s, run);
      && (forall i :: 0 <= i < |p| ==> p[i] == i)
      && (forall i :: 0 <= i < |e.contents| ==> e.contents[i] == |p| + i)
  {
    var s := Start(ByPosition, maxSize, restored, threads);
    hide Inv, Next, Enabled;
    StartHolds(ByPosition, maxSize, restored, threads);
    PopsAscend(s, run);
    PoppedIsGone(s, run);
    DeliveredOnce(ByPosition, maxSize, restored, threads, run);
    InOrder(PoppedBy(s, run), End(s, run).contents, End(s, run).next);
  }

  lemma InOrder(p: seq<nat>, c: seq<nat>, n: nat)
    requires Ascending(p + c) && |p| + |c| == n && forall x: nat :: x < n <==> x in c || x in p
    ensures (forall i :: 0 <= i < |p| ==> p[i] == i) && (forall i :: 0 <= i < |c| ==> c[i] == |p| + i)
  {
    var all := p + c;
    forall i | 0 <= i < |all| ensures all[i] == i {
      AtLeast(all, i);
      AtMost(all, i, n);
    }
    forall i | 0 <= i < |p| ensures p[i] == i { assert all[i] == p[i]; }
    forall i | 0 <= i < |c| ensures c[i] == |p| + i { assert all[|p| + i] == c[i]; }
  }

  lemma {:induction false} AtLeast(c: seq<nat>, i: nat)
    requires Ascending(c) && i < |c|
    ensures c[i] >= i
  {
    if i > 0 { AtLeast(c, i - 1); }
  }

  lemma {:induction false} AtMost(c: seq<nat>, i: nat, n: nat)
    requires Ascending(c) && i < |c| == n && forall x :: x in c ==> x < n
    ensures c[i] <= i
    decreases n - i
  {
    assert c[i] in c;
    if i < n - 1 { AtMost(c, i + 1, n); }
  }
}
