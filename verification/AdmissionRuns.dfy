/** Admission over whole runs: what holds whenever the lock is free, whatever goroutines and their caller code do. */
module AdmissionRuns {
  import opened Hydration
  import opened Admission

  datatype Step = Step(t: nat, a: Action)

  predicate Allowed(s: State, run: seq<Step>)
    decreases |run|
  {
    run == [] || (Enabled(s, run[0].t, run[0].a) && Allowed(Next(s, run[0].t, run[0].a), run[1..]))
  }

  function End(s: State, run: seq<Step>): State
    requires Allowed(s, run)
    decreases |run|
  {
    if run == [] then s else End(Next(s, run[0].t, run[0].a), run[1..])
  }

  /** A new queue into which Hydrate has restored some entries. */
  function Start(disc: Discipline, maxSize: nat, restored: nat, threads: nat): State
  {
    State(disc, maxSize, Appended([], 0, restored), restored, restored, restored, 0, false, seq(threads, _ => Idle),
          0, 0, false, false)
  }

  lemma NoneBelow(end: nat)
    ensures Below([], end) == 0 && Ascending([])
  {
  }

  lemma {:induction false} RestoredEntries(n: nat, end: nat)
    requires n <= end
    ensures var c := Appended([], 0, n);
      Ascending(c) && (forall x :: x in c ==> x < n) && Below(c, end) == n
  {
    hide Ascending, Below;
    if n > 0 {
      var c := Appended([], 0, n - 1);
      RestoredEntries(n - 1, end);
      AppendAscends(c, n - 1);
      OneMoreBelow(c, n - 1, end);
      assert Appended([], 0, n) == c + [n - 1];
    } else {
      NoneBelow(end);
    }
  }

  lemma {:induction false} NothingReserved(threads: nat)
    ensures Reservations(seq(threads, _ => Idle)) == 0
  {
    if threads > 0 {
      NothingReserved(threads - 1);
      assert seq(threads, _ => Idle)[1..] == seq(threads - 1, _ => Idle);
    }
  }

  lemma StartHolds(disc: Discipline, maxSize: nat, restored: nat, threads: nat)
    ensures Inv(Start(disc, maxSize, restored, threads))
  {
    RestoredEntries(restored, restored);
    NothingReserved(threads);
  }

  lemma {:induction false} RunKeeps(s: State, run: seq<Step>)
    requires Inv(s) && Allowed(s, run)
    ensures Inv(End(s, run))
    decreases |run|
  {
    hide Inv, Next, Enabled;
    if run != [] {
      StepKeeps(s, run[0].t, run[0].a);
      RunKeeps(Next(s, run[0].t, run[0].a), run[1..]);
    }
  }

  ghost predicate Reachable(s: State)
  {
    exists d: Discipline, m: nat, h: nat, n: nat, run: seq<Step> ::
      Allowed(Start(d, m, h, n), run) && End(Start(d, m, h, n), run) == s
  }

  lemma ReachableHolds(s: State)
    requires Reachable(s)
    ensures Inv(s)
  {
    hide Inv, Next, Enabled;
    var d: Discipline, m: nat, h: nat, n: nat, run: seq<Step> :|
      Allowed(Start(d, m, h, n), run) && End(Start(d, m, h, n), run) == s;
    StartHolds(d, m, h, n);
    RunKeeps(Start(d, m, h, n), run);
  }

  // ---- what holds whenever the lock is free

  /** However hooks, side effects, Backups and Item methods end, what was admitted and what is reserved stay within the
      bound, or within what was ever left uncharged above it; and the exemption is exactly the restored entries still
      there, however they are told apart, and those not charged for. */
  lemma AdmissionIsBounded(s: State)
    requires Reachable(s)
    ensures s.hydrated == Below(s.contents, s.end) + s.uncharged && s.uncharged <= s.ever
    ensures s.inflight == Reservations(s.ts)
    ensures s.maxSize > 0 ==> |s.contents| - Below(s.contents, s.end) + Reservations(s.ts) <= s.maxSize + s.ever
  {
    ReachableHolds(s);
  }

  /** A producer sleeps only while its batch does not fit, unless a Del has unwound past its signal; a consumer only
      while there is nothing, unless a Push has; after Close, only until a Close under way has given its signals. */
  lemma NoLostWakeup(s: State, t: nat)
    requires Reachable(s) && t < |s.ts|
    ensures s.ts[t].WaitFull? && !s.ts[t].woken && !s.closed && !s.unsignalled ==>
              |s.contents| - s.hydrated + s.inflight + s.ts[t].m > s.maxSize > 0
    ensures s.ts[t].WaitEmpty? && !s.ts[t].woken && !s.closed && !s.unannounced ==> s.contents == []
    ensures s.ts[t].WaitFull? && !s.ts[t].woken && s.closed ==>
              exists u :: 0 <= u < |s.ts| && s.ts[u].Closing? && s.ts[u].full
    ensures s.ts[t].WaitEmpty? && !s.ts[t].woken && s.closed ==>
              exists u :: 0 <= u < |s.ts| && s.ts[u].Closing? && s.ts[u].empty
  {
    ReachableHolds(s);
    assert WaiterOk(s, t);
  }

  /** No Del of the run unwinds having removed a restored entry or the room of a sleeping producer, and no Push having
      put something into an empty queue on which a consumer sleeps. */
  ghost predicate Harmless(s: State, run: seq<Step>)
    requires Allowed(s, run)
    decreases |run|
  {
    run != [] ==> !Harms(s, run[0].t, run[0].a) && Harmless(Next(s, run[0].t, run[0].a), run[1..])
  }

  lemma {:induction false} HarmlessRunsStayExact(s: State, run: seq<Step>)
    requires Inv(s) && Exact(s) && Allowed(s, run) && Harmless(s, run)
    ensures Inv(End(s, run)) && Exact(End(s, run))
    decreases |run|
  {
    hide Inv, Next, Enabled, Exact, Harms;
    if run != [] {
      StepKeeps(s, run[0].t, run[0].a);
      ExactIsKeptIff(s, run[0].t, run[0].a);
      HarmlessRunsStayExact(Next(s, run[0].t, run[0].a), run[1..]);
    }
  }

  /** Over every such run, and so over every run of the queues that go by position, the bound and the exemption are
      exact and nobody sleeps through what it waits for. */
  lemma HarmlessRunsAreExact(disc: Discipline, maxSize: nat, restored: nat, threads: nat, run: seq<Step>, t: nat)
    requires Allowed(Start(disc, maxSize, restored, threads), run)
    requires Harmless(Start(disc, maxSize, restored, threads), run)
    ensures var s := End(Start(disc, maxSize, restored, threads), run);
      && s.hydrated == Below(s.contents, s.end)
      && (s.maxSize > 0 ==> |s.contents| - Below(s.contents, s.end) + Reservations(s.ts) <= s.maxSize)
      && (t < |s.ts| && s.ts[t].WaitFull? && !s.ts[t].woken && !s.closed ==>
            |s.contents| - Below(s.contents, s.end) + Reservations(s.ts) + s.ts[t].m > s.maxSize > 0)
      && (t < |s.ts| && s.ts[t].WaitEmpty? && !s.ts[t].woken && !s.closed ==> s.contents == [])
  {
    var s0 := Start(disc, maxSize, restored, threads);
    StartHolds(disc, maxSize, restored, threads);
    HarmlessRunsStayExact(s0, run);
    assert WaiterOk(End(s0, run), t) && Rests(End(s0, run), t);
  }

  lemma PositionalStepIsHarmless(s: State, t: nat, a: Action)
    requires s.disc == ByPosition && Enabled(s, t, a)
    ensures !Harms(s, t, a) && Next(s, t, a).disc == ByPosition
  {
    hide Kept, Picked, Below, AfterPop, AfterDel, Appended;
  }

  lemma {:induction false} PositionalRunsAreHarmless(s: State, run: seq<Step>)
    requires s.disc == ByPosition && Allowed(s, run)
    ensures Harmless(s, run)
    decreases |run|
  {
    hide Enabled, Next, Harms;
    if run != [] {
      PositionalStepIsHarmless(s, run[0].t, run[0].a);
      PositionalRunsAreHarmless(Next(s, run[0].t, run[0].a), run[1..]);
    }
  }

  /** So a producer is never left asleep once everything admitted has left and no hook is running: what it waits for
      could always fit. */
  lemma DrainedQueueLeavesNoProducerAsleep(s: State, t: nat)
    requires Reachable(s) && t < |s.ts| && !s.closed && !s.unsignalled
    requires |s.contents| == Below(s.contents, s.end) && forall u :: 0 <= u < |s.ts| ==> !s.ts[u].Hooked?
    ensures s.ts[t].WaitFull? ==> s.ts[t].woken
  {
    ReachableHolds(s);
    assert WaiterOk(s, t);
    ReservationsSame(s.ts, seq(|s.ts|, _ => Idle));
    NothingReserved(|s.ts|);
  }

  // ---- each kind of harm arises

  lemma {:induction false} RunGoesOn(s: State, run: seq<Step>, x: Step)
    requires Allowed(s, run) && Enabled(End(s, run), x.t, x.a)
    ensures Allowed(s, run + [x]) && End(s, run + [x]) == Next(End(s, run), x.t, x.a)
    decreases |run|
  {
    hide Next, Enabled;
    if run == [] {
      assert run + [x] == [x] && [x][1..] == [];
    } else {
      RunGoesOn(Next(s, run[0].t, run[0].a), run[1..], x);
      assert (run + [x])[1..] == run[1..] + [x];
    }
  }

  lemma Follow(s: State, t: nat, a: Action) returns (s': State)
    requires Reachable(s) && Enabled(s, t, a)
    ensures Reachable(s') && s' == Next(s, t, a)
  {
    hide Next, Enabled, Start;
    var d: Discipline, m: nat, h: nat, n: nat, run: seq<Step> :|
      Allowed(Start(d, m, h, n), run) && End(Start(d, m, h, n), run) == s;
    RunGoesOn(Start(d, m, h, n), run, Step(t, a));
    s' := Next(s, t, a);
  }

  lemma StartIsReachable(d: Discipline, m: nat, h: nat, n: nat)
    ensures Reachable(Start(d, m, h, n))
  {
    assert Allowed(Start(d, m, h, n), []) && End(Start(d, m, h, n), []) == Start(d, m, h, n);
  }

  /** Three entries in a heap bounded by three. */
  lemma ThreeAdmitted() returns (s: State)
    ensures Reachable(s) && s == State(BySeq, 3, [0, 1, 2], 3, 0, 0, 0, false, [Idle, Idle], 0, 0, false, false)
  {
    hide Reachable, Appended;
    StartIsReachable(BySeq, 3, 0, 2);
    ThreeArrivals();
    s := Start(BySeq, 3, 0, 2);
    assert s == State(BySeq, 3, [], 0, 0, 0, 0, false, [Idle, Idle], 0, 0, false, false);
    s := Follow(s, 0, Push(3, false, Calls(Ok, Ok, Ok, 0)));
  }

  /** ... and a producer waiting behind them. */
  lemma OneAsleep() returns (s: State)
    ensures Reachable(s)
    ensures s == State(BySeq, 3, [0, 1, 2], 3, 0, 0, 0, false, [Idle, WaitFull(1, false)], 0, 0, false, false)
  {
    hide Reachable;
    s := ThreeAdmitted();
    hide Kept, Picked, Below, Insert, Remove;
    s := Follow(s, 1, Push(1, false, Calls(Ok, Ok, Ok, 0)));
  }

  lemma ThreeArrivals()
    ensures Appended([], 0, 0) == [] && Appended([], 0, 3) == [0, 1, 2]
  {
    assert Appended([], 0, 1) == [0] && Appended([], 0, 2) == [0, 1];
  }

  lemma OnePositionMore(c: seq<nat>, x: nat, gone: set<nat>, end: nat)
    ensures Kept(c + [x], gone) == Kept(c, gone) + if |c| in gone then [] else [x]
    ensures Picked(c + [x], gone) == Picked(c, gone) + if |c| in gone then [x] else []
    ensures Below(c + [x], end) == Below(c, end) + if x < end then 1 else 0
    ensures Kept([], gone) == Picked([], gone) == [] && Below([], end) == 0
  {
    assert (c + [x])[..|c|] == c;
  }

  lemma FirstOfThreeGoes()
    ensures Kept([0, 1, 2], {0}) == [1, 2] && Picked([0, 1, 2], {0}) == [0]
    ensures Below([0], 0) == 0 && Below([0], 3) == 1 && Below([1, 2, 3, 4], 3) == 2
  {
    hide Kept, Picked, Below;
    OnePositionMore([], 0, {0}, 0);
    OnePositionMore([], 0, {0}, 3);
    OnePositionMore([0], 1, {0}, 3);
    OnePositionMore([0, 1], 2, {0}, 3);
    OnePositionMore([], 1, {0}, 3);
    OnePositionMore([1], 2, {0}, 3);
    OnePositionMore([1, 2], 3, {0}, 3);
    OnePositionMore([1, 2, 3], 4, {0}, 3);
    assert [] + [0] == [0] && [0] + [1] == [0, 1] && [0, 1] + [2] == [0, 1, 2];
    assert [] + [1] == [1] && [1] + [2] == [1, 2] && [1, 2] + [3] == [1, 2, 3] && [1, 2, 3] + [4] == [1, 2, 3, 4];
  }

  /** A producer asleep on an open queue with room for its one item: the Del that made the room unwound out of the
      heap's rebuild. */
  lemma UnwoundDelLosesAWakeup() returns (s: State)
    ensures Reachable(s) && !s.closed && s.contents == [1, 2] && s.hydrated == s.inflight == 0 && s.maxSize == 3
    ensures |s.ts| == 2 && s.ts[1] == WaitFull(1, false)
  {
    hide Reachable;
    s := OneAsleep();
    FirstOfThreeGoes();
    hide Kept, Picked, Below, Remove, AfterDel;
    s := Follow(s, 0, Del({0}, Calls(Ok, Ok, Unwind, 0)));
  }

  /** A heap bounded by one whose exemption still counts the restored entry that a Del took before it unwound. */
  lemma OneUncharged() returns (s: State)
    ensures Reachable(s) && s == State(BySeq, 1, [1, 2], 3, 3, 3, 0, false, [Idle], 1, 1, true, false)
  {
    hide Reachable, Appended;
    StartIsReachable(BySeq, 1, 3, 1);
    ThreeArrivals();
    s := Start(BySeq, 1, 3, 1);
    assert s == State(BySeq, 1, [0, 1, 2], 3, 3, 3, 0, false, [Idle], 0, 0, false, false);
    FirstOfThreeGoes();
    hide Kept, Picked, Below, Remove, AfterDel;
    s := Follow(s, 0, Del({0}, Calls(Ok, Ok, Unwind, 0)));
  }

  /** Two admitted entries in a queue bounded by one. */
  lemma UnwoundDelBreaksTheBound() returns (s: State)
    ensures Reachable(s) && s.maxSize == 1 && |s.contents| - Below(s.contents, s.end) == 2
  {
    hide Reachable;
    s := OneUncharged();
    assert Appended([1, 2], 3, 1) == [1, 2, 3] && Appended([1, 2, 3], 4, 1) == [1, 2, 3, 4];
    FirstOfThreeGoes();
    hide Kept, Picked, Below, Remove, AfterDel, Appended;
    s := Follow(s, 0, Push(1, false, Calls(Ok, Ok, Ok, 0)));
    s := Follow(s, 0, Push(1, false, Calls(Ok, Ok, Ok, 0)));
  }

  /** A consumer waiting on an empty queue. */
  lemma OneHungry() returns (s: State)
    ensures Reachable(s)
    ensures s == State(BySeq, 0, [], 0, 0, 0, 0, false, [Idle, WaitEmpty(false)], 0, 0, false, false)
  {
    hide Reachable;
    StartIsReachable(BySeq, 0, 0, 2);
    s := Start(BySeq, 0, 0, 2);
    assert s == State(BySeq, 0, [], 0, 0, 0, 0, false, [Idle, Idle], 0, 0, false, false);
    hide Below, Insert, Remove, AfterPop;
    s := Follow(s, 1, Pop(1, {}, Calls(Ok, Ok, Ok, 0)));
  }

  /** A consumer asleep on an open queue that holds an item: the Push that put it there unwound out of the keyed tree's
      second Load. */
  lemma UnwoundPushLosesAWakeup() returns (s: State)
    ensures Reachable(s) && !s.closed && s.contents == [0] && |s.ts| == 2 && s.ts[1] == WaitEmpty(false)
  {
    hide Reachable;
    s := OneHungry();
    assert Appended([], 0, 1) == [0];
    hide Below, Remove, Appended;
    s := Follow(s, 0, Push(2, false, Calls(Ok, Ok, Unwind, 1)));
  }
}
