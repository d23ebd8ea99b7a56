/** The on-disk backing as its callers see it: which items the steps of the group commit put into the store and take out
    of it, in which order, and which Pushes they stage and settle. */
module StoreQueue {
  import opened GroupCommit
  import StoreKeys

  /** What a step takes out of the store: a Pop that takes and a Del that lands what they ask for, a Clear that comes
      about everything. */
  function Out(s: State, a: Action): set<nat>
  {
    match a
    case Pop(n, lands, gone, _) => if Takes(s, n, lands) then gone else {}
    case Del(gone, lands) => if !s.closed && s.count != 0 && lands then gone else {}
    case Clear(o) => if o == Ok && !s.closed && s.count != 0 then s.store else {}
    case _ => {}
  }

  /** How many items a step writes. */
  function In(a: Action): nat
  {
    if a.Commit? && a.o == Ok then |a.ranks| else 0
  }

  /** The numbers of a store's items, out of those given out. */
  ghost predicate Holds(s: State)
  {
    forall k :: k in s.store ==> k < |s.ranks|
  }

  /** Every step takes out of the store exactly what it hands out and adds exactly what it writes, numbered on. */
  lemma StoreMoves(s: State, a: Action)
    requires Enabled(s, a) && Holds(s)
    ensures var s' := Next(s, a);
      && Out(s, a) <= s.store && |s'.ranks| == |s.ranks| + In(a) && s.ranks <= s'.ranks
      && (forall k :: k in s'.store <==> (k in s.store && k !in Out(s, a)) || |s.ranks| <= k < |s'.ranks|)
  {
    hide Weight, Fresh, Before, Back, PopSize;
  }

  /** ... and the count follows, by what it removes, and by what it counts of a batch that is written. */
  lemma CountMoves(s: State, a: Action)
    requires Reachable(s) && Enabled(s, a)
    ensures var s' := Next(s, a);
      && (a.Pop? && !Overcounts(s, a) ==> s'.count == s.count - |Out(s, a)|)
      && (a.Del? ==> s'.count == s.count - |Out(s, a)|)
      && (a.Clear? && Out(s, a) != {} ==> s'.count == 0)
      && (a.Count? ==> s'.count == s.count + Uncounted(s))
  {
    hide Weight, Fresh, Before, Close, Back;
  }

  // ---- order

  /** The key an item is stored under. */
  function KeyOf(s: State, k: nat): seq<nat>
    requires k < |s.ranks| && k < StoreKeys.WORD && s.ranks[k] < StoreKeys.WORD
  {
    if s.kind.fifo then StoreKeys.FifoKey(k) else StoreKeys.PriorityKey(s.ranks[k], k)
  }

  /** A Pop takes as many as it asks for or are counted; and what it takes has a higher priority than what it leaves, or
      the same and came before: in a FIFO store it came before. */
  lemma PopTakesTheFirst(s: State, a: Action, x: nat, y: nat)
    requires Reachable(s) && Enabled(s, a) && a.Pop? && Takes(s, a.n, a.lands)
    ensures |Out(s, a)| == if a.n < s.count then a.n else s.count
    ensures x in Out(s, a) && y in Next(s, a).store ==>
      && x < |s.ranks| && y < |s.ranks|
      && (s.ranks[x] > s.ranks[y] || (s.ranks[x] == s.ranks[y] && x < y))
      && (s.kind.fifo ==> x < y)
  {
    ReachableHolds(s);
    hide Accounts, Shape, RoomsOk, FifoOk, ResultOk, CallOk, Weight;
    assert KeyOk(s, x) && KeyOk(s, y);
  }

  /** It takes something exactly when the queue is open, what it asks for is not nothing and is there, and its
      transaction lands. */
  lemma PopTakesIff(s: State, a: Action)
    requires Reachable(s) && Enabled(s, a) && a.Pop?
    ensures var s' := Next(s, a);
      && (s'.store != s.store <==>
            !s.closed && a.lands && 0 < a.n && 0 < s.count && (a.n <= |s.store| || s.count <= |s.store|))
      && (s'.store == s.store ==> s' == s)
  {
    hide Reachable;
    if Takes(s, a.n, a.lands) && a.gone != {} {
      var x :| x in a.gone;
      assert x in s.store && x !in Next(s, a).store;
    }
  }

  /** Nothing is pushed into a closed queue, and nothing is taken out of it. */
  lemma ClosedStays(s: State, a: Action)
    requires Enabled(s, a) && s.closed && (a.Push? || a.Pop? || a.Del? || a.Clear?)
    ensures Next(s, a) == s.(f := Next(s, a).f)
  {
    hide Weight, IsFront, PopSize;
  }

  /** So it takes the first keys in the byte order of the store, which is the order its cursor walks. */
  lemma PopTakesTheFirstKeys(s: State, a: Action, x: nat, y: nat)
    requires Reachable(s) && Enabled(s, a) && a.Pop? && Takes(s, a.n, a.lands)
    requires |s.ranks| <= StoreKeys.WORD && forall k :: 0 <= k < |s.ranks| ==> s.ranks[k] < StoreKeys.WORD
    requires x in Out(s, a) && y in Next(s, a).store
    ensures x < |s.ranks| && y < |s.ranks| && StoreKeys.KeyLess(KeyOf(s, x), KeyOf(s, y))
  {
    hide Next, Enabled, Reachable, Takes, StoreKeys.KeyLess, StoreKeys.FifoKey, StoreKeys.PriorityKey;
    PopTakesTheFirst(s, a, x, y);
    StoreKeys.FifoKeysAscend(x, y);
    StoreKeys.PriorityKeysDescend(s.ranks[x], x, s.ranks[y], y);
  }

  // ---- whole runs

  /** All that the steps of a run take out of the store. */
  function GoneBy(s: State, run: seq<Action>): set<nat>
    requires Allowed(s, run)
    decreases |run|
  {
    if run == [] then {} else Out(s, run[0]) + GoneBy(Next(s, run[0]), run[1..])
  }

  /** How many items they take out, one step after the other. */
  function TakenBy(s: State, run: seq<Action>): nat
    requires Allowed(s, run)
    decreases |run|
  {
    if run == [] then 0 else |Out(s, run[0])| + TakenBy(Next(s, run[0]), run[1..])
  }

  function WrittenBy(run: seq<Action>): nat
  {
    if run == [] then 0 else In(run[0]) + WrittenBy(run[1..])
  }

  /** From a store with numbers below `next` to one with numbers below `last`: gone, n of them, have left, the numbers
      between have come. */
  ghost predicate Moved(store: set<nat>, next: nat, gone: set<nat>, n: nat, last: nat, now: set<nat>)
  {
    && next <= last && now !! gone && |gone| == n && (forall k :: k in now ==> k < last)
    && forall k: nat :: k in store || next <= k < last <==> k in now || k in gone
  }

  lemma MovedTwice(store: set<nat>, next: nat, gone1: set<nat>, n1: nat, mid: nat, then_: set<nat>, gone2: set<nat>,
                   n2: nat, last: nat, now: set<nat>)
    requires Moved(store, next, gone1, n1, mid, then_) && Moved(then_, mid, gone2, n2, last, now)
    requires forall k :: k in store ==> k < next
    ensures Moved(store, next, gone1 + gone2, n1 + n2, last, now)
  {
    forall k | k in gone1 ensures k !in gone2 && k !in now { assert k in store || next <= k < mid; }
    Together(gone1, gone2);
  }

  lemma Together(a: set<nat>, b: set<nat>)
    requires a !! b
    ensures |a + b| == |a| + |b|
  {
  }

  lemma StepIsMove(s: State, a: Action)
    requires Enabled(s, a) && Holds(s)
    ensures var s' := Next(s, a);
      Holds(s') && Moved(s.store, |s.ranks|, Out(s, a), |Out(s, a)|, |s'.ranks|, s'.store)
  {
    hide Next, Enabled, Out;
    StoreMoves(s, a);
  }

  lemma {:induction false} RunIsMove(s: State, run: seq<Action>)
    requires Allowed(s, run) && Holds(s)
    ensures var e := End(s, run);
      && Holds(e) && |e.ranks| == |s.ranks| + WrittenBy(run)
      && Moved(s.store, |s.ranks|, GoneBy(s, run), TakenBy(s, run), |e.ranks|, e.store)
    decreases |run|
  {
    hide Next, Enabled, Out, In;
    if run != [] {
      var s1 := Next(s, run[0]);
      StoreMoves(s, run[0]);
      StepIsMove(s, run[0]);
      RunIsMove(s1, run[1..]);
      hide Moved;
      MovedTwice(s.store, |s.ranks|, Out(s, run[0]), |Out(s, run[0])|, |s1.ranks|, s1.store, GoneBy(s1, run[1..]),
                 TakenBy(s1, run[1..]), |End(s1, run[1..]).ranks|, End(s1, run[1..]).store);
    }
  }

  /** Over any run every item ever written is in the store or has been taken out by a Pop, a Del or a Clear; and it is
      taken out once: the steps take out as many items, all told, as there are different ones. */
  lemma ItemsLeaveOnce(kind: Kind, maxSize: nat, maxBatch: nat, ranks: seq<nat>, run: seq<Action>)
    requires Allowed(Start(kind, maxSize, maxBatch, ranks), run)
    ensures var s := Start(kind, maxSize, maxBatch, ranks);
      var e, g := End(s, run), GoneBy(s, run);
      && |e.ranks| == |ranks| + WrittenBy(run) && e.store !! g && |g| == TakenBy(s, run)
      && forall k: nat :: k < |e.ranks| <==> k in e.store || k in g
  {
    hide Next, Enabled, Out, In;
    RunIsMove(Start(kind, maxSize, maxBatch, ranks), run);
  }

  // ---- Pushes

  /** A Push is staged exactly when the queue is open, the batch fits beside what is stored and counted and what is
      staged or in the flusher's hands, at the bound included, and the buffer has room for it; otherwise it leaves no
      trace but that it waits for room. */
  lemma PushIsStagedIff(s: State, m: nat)
    requires Reachable(s)
    ensures var s' := Next(s, Push(m));
      var staged := Weight(s.calls, s.buf);
      var fits := s.maxSize == 0 || (m <= s.maxSize && s.count + staged + Reserved(s) + m <= s.maxSize);
      && (|s'.calls| > |s.calls| <==> !s.closed && fits && staged + m <= s.maxBatch)
      && (|s'.calls| > |s.calls| ==> s' == Staged(s, m))
      && (|s'.calls| <= |s.calls| ==> s' == s.(rooms := s'.rooms))
      && (s.cur !in s.rooms ==> (s.cur in s'.rooms <==> !s.closed && fits && staged + m > s.maxBatch))
  {
    Conservation(s);
    hide Weight, Reserved, Reachable;
  }

  /** A batch of m more in the buffer, reserved and waiting for the current result. */
  function Staged(s: State, m: nat): State
  {
    s.(calls := s.calls + [Call(m, s.cur, Waiting)], buf := s.buf + [|s.calls|], inflight := s.inflight + m)
  }

  /** A flush takes all that is staged, and what is staged after it waits for another result. */
  lemma FlushTakesAll(s: State, from: From, c: nat)
    requires Reachable(s) && Enabled(s, Flush(from)) && c in s.buf
    ensures var s' := Next(s, Flush(from));
      && s'.f.Committing? && c in s'.f.snap && s'.buf == [] && c < |s.calls| && s.calls[c].r == s'.f.r < s'.cur
  {
    ReachableHolds(s);
    assert CallOk(s, c);
    hide Accounts, RoomsOk, Ranks, FifoOk, ResultOk, KeyOk, Weight;
  }

  /** A call goes on waiting for the same result; results are used up in order. */
  lemma CallStays(s: State, a: Action, c: nat)
    requires Stages(s) && Enabled(s, a) && c < |s.calls|
    ensures var s' := Next(s, a);
      c < |s'.calls| && s'.calls[c].r == s.calls[c].r && s'.calls[c].m == s.calls[c].m && s.cur <= s'.cur
  {
    hide Weight, Takes, IsFront, NewKeys, Fresh, PopSize, Back;
  }

  lemma {:induction false} CallStaysThrough(s: State, run: seq<Action>, c: nat)
    requires Inv(s) && Allowed(s, run) && c < |s.calls|
    ensures var e := End(s, run);
      Inv(e) && c < |e.calls| && e.calls[c].r == s.calls[c].r && e.calls[c].m == s.calls[c].m && s.cur <= e.cur
    decreases |run|
  {
    hide Next, Enabled, Accounts, Members, RoomsOk, Ranks, FifoOk, ResultOk, CallOk, KeyOk;
    if run != [] {
      StepKeeps(s, run[0]);
      CallStays(s, run[0], c);
      CallStaysThrough(Next(s, run[0]), run[1..], c);
    }
  }

  /** Whatever comes between: once the flush that took a staged Push has let go of its batch, the Push has its answer,
      nil exactly when its items were written. */
  lemma StagedPushIsAnswered(s: State, from: From, run: seq<Action>, c: nat)
    requires Reachable(s) && Enabled(s, Flush(from)) && c in s.buf
    requires Allowed(Next(s, Flush(from)), run) && !HasResult(End(Next(s, Flush(from)), run).f)
    ensures var e := End(Next(s, Flush(from)), run);
      && c < |e.calls| && e.calls[c].r < |e.results|
      && e.results[e.calls[c].r] == Result(1, c in e.landed)
      && (e.calls[c].status == Waiting || e.calls[c].status == Returned(c in e.landed))
      && (e.calls[c].status == Waiting ==> Enabled(e, Return(c)))
  {
    hide Inv, Next, Enabled, Reachable;
    var s1 := Next(s, Flush(from));
    ReachableHolds(s);
    FlushTakesAll(s, from, c);
    StepKeeps(s, Flush(from));
    FlushKeepsCalls(s, from);
    CallStaysThrough(s1, run, c);
    SettledIsAnswered(End(s1, run), c);
  }

  lemma FlushKeepsCalls(s: State, from: From)
    requires Enabled(s, Flush(from))
    ensures Next(s, Flush(from)).calls == s.calls
  {
  }

  lemma SettledIsAnswered(e: State, c: nat)
    requires Inv(e) && c < |e.calls| && e.calls[c].r < e.cur && !HasResult(e.f)
    ensures e.calls[c].r < |e.results| && e.results[e.calls[c].r] == Result(1, c in e.landed)
    ensures e.calls[c].status == Waiting || e.calls[c].status == Returned(c in e.landed)
    ensures e.calls[c].status == Waiting ==> Enabled(e, Return(c))
  {
    assert CallOk(e, c) && ResultOk(e, e.calls[c].r);
    hide Accounts, RoomsOk, Ranks, FifoOk, KeyOk, Weight;
  }

  // ---- the flusher

  /** How far the flusher is from its loop, or from its end. */
  function Work(f: Flusher): nat
  {
    match f
    case Select => 0
    case Dead => 0
    case Orphans(_, times) => 2 * times + 1
    case Closing(times) => 2 * times
    case Clearing => 3
    case Settling(_, _, _, _, _) => 5
    case Written(_, _, _, _) => 6
    case Failing(_, _, _, _) => 6
    case Committing(_, _, _) => 7
  }

  /** A step of the flusher's own, but for the start of a flush. */
  predicate ByFlusher(a: Action)
  {
    a.Commit? || a.Count? || a.Release? || a.Settle? || a.Clear? || a.TakeOrphans? || a.SettleOrphans?
  }

  /** Each of them brings it nearer, and nobody else's step moves it: so at most seven of them after it took a batch,
      the batch is settled and the flusher back, or ended and its orphans settled. */
  lemma FlusherGoesOn(s: State, a: Action)
    requires Enabled(s, a)
    ensures ByFlusher(a) ==> Work(Next(s, a).f) < Work(s.f)
    ensures !ByFlusher(a) && !a.Flush? ==> Next(s, a).f == s.f
  {
    hide Weight, Takes, IsFront, NewKeys, Fresh, PopSize;
  }

  lemma ClosesSomeTimes(s: State)
    requires Reachable(s)
    ensures s.f.Closing? ==> s.f.times > 0
  {
    ReachableHolds(s);
  }

  lemma CommitIsEnabled(s: State, o: Outcome) returns (a: Action)
    requires s.f.Committing?
    ensures a.Commit? && Enabled(s, a)
  {
    hide Weight;
    a := Commit(o, seq(Weight(s.calls, s.f.snap), _ => 0));
  }

  lemma SettlingIsEnabled(s: State)
    ensures s.f.Written? ==> Enabled(s, Count)
    ensures s.f.Failing? ==> Enabled(s, Release)
    ensures s.f.Settling? ==> Enabled(s, Settle)
  {
  }

  lemma EndingIsEnabled(s: State, o: Outcome)
    ensures s.f.Clearing? ==> Enabled(s, Clear(o))
    ensures s.f.Closing? && s.f.times > 0 ==> Enabled(s, TakeOrphans)
    ensures s.f.Orphans? ==> Enabled(s, SettleOrphans)
  {
  }

  /** And unless it waits for something to do or has ended, one of them can be taken. */
  lemma FlusherIsNeverStuck(s: State, o: Outcome) returns (a: Action)
    requires Reachable(s) && s.f != Select && s.f != Dead
    ensures Enabled(s, a) && ByFlusher(a)
  {
    hide Reachable, Enabled;
    ClosesSomeTimes(s);
    SettlingIsEnabled(s);
    EndingIsEnabled(s, o);
    if s.f.Committing? {
      a := CommitIsEnabled(s, o);
    } else {
      a := match s.f
        case Written(_, _, _, _) => Count
        case Failing(_, _, _, _) => Release
        case Settling(_, _, _, _, _) => Settle
        case Clearing => Clear(o)
        case Closing(_) => TakeOrphans
        case _ => SettleOrphans;
    }
  }

  /** Where the flusher is bound for: back to its loop, on to what a Clear has still to do, or out. */
  datatype Bound = Loops | Clears | Ends

  function For(from: From): Bound
  {
    match from
    case Loop => Loops
    case Last => Ends
    case Draining => Clears
  }

  /** A flush says where it leads, unless caller code ends the goroutine; a Clear that is through leads to the loop. */
  function Decides(b: Bound, a: Action): Bound
  {
    match a
    case Flush(from) => For(from)
    case Commit(o, _) => if o == Goexit then Ends else b
    case Clear(o) => if o == Goexit then Ends else Loops
    case _ => b
  }

  function Sent(b: Bound, run: seq<Action>): Bound
    decreases |run|
  {
    if run == [] then b else Sent(Decides(b, run[0]), run[1..])
  }

  predicate Follows(f: Flusher, b: Bound)
  {
    match f
    case Select => b == Loops
    case Clearing => b == Clears
    case Committing(_, _, from) => b == For(from)
    case Written(_, _, from, _) => b == For(from)
    case Failing(_, _, from, exits) => b == if exits then Ends else For(from)
    case Settling(_, _, _, from, exits) => b == if exits then Ends else For(from)
    case _ => b == Ends
  }

  lemma StepFollows(s: State, a: Action, b: Bound)
    requires Enabled(s, a) && Follows(s.f, b)
    ensures Follows(Next(s, a).f, Decides(b, a))
  {
    hide Next, Enabled, Follows;
    FlusherGoesOn(s, a);
    if ByFlusher(a) || a.Flush? { FlusherFollows(s, a, b); }
  }

  lemma FlusherFollows(s: State, a: Action, b: Bound)
    requires Enabled(s, a) && Follows(s.f, b) && (ByFlusher(a) || a.Flush?)
    ensures Follows(Next(s, a).f, Decides(b, a))
  {
    hide Weight, NewKeys, Fresh, Close;
  }

  lemma {:induction false} RunFollows(s: State, run: seq<Action>, b: Bound)
    requires Allowed(s, run) && Follows(s.f, b)
    ensures Follows(End(s, run).f, Sent(b, run))
    decreases |run|
  {
    hide Next, Enabled, Follows, Decides;
    if run != [] {
      StepFollows(s, run[0], b);
      RunFollows(Next(s, run[0]), run[1..], Decides(b, run[0]));
    }
  }

  /** In any run, whenever the flusher holds no batch: it is in its loop, clearing, or on its way out, as the last thing
      that decided it said. So the last flush and a goroutine that caller code ended are followed by no other. */
  lemma FlusherGoesWhereSent(kind: Kind, maxSize: nat, maxBatch: nat, ranks: seq<nat>, run: seq<Action>)
    requires Allowed(Start(kind, maxSize, maxBatch, ranks), run)
    ensures var f, b := End(Start(kind, maxSize, maxBatch, ranks), run).f, Sent(Loops, run);
      && (f.Select? ==> b == Loops) && (f.Clearing? ==> b == Clears)
      && (f.Closing? || f.Orphans? || f.Dead? ==> b == Ends)
  {
    hide Next, Enabled, Sent;
    RunFollows(Start(kind, maxSize, maxBatch, ranks), run, Loops);
  }

  predicate EndsGoroutine(a: Action)
  {
    (a.Commit? || a.Clear?) && a.o == Goexit
  }

  /** Bound out by itself, if at all, only because it has been cancelled. */
  predicate OutOnlyIf(f: Flusher, cancelled: bool)
  {
    cancelled || match f
      case Select => true
      case Clearing => true
      case Committing(_, _, from) => from != Last
      case Written(_, _, from, _) => from != Last
      case Failing(_, _, from, exits) => from != Last && !exits
      case Settling(_, _, _, from, exits) => from != Last && !exits
      case _ => false
  }

  lemma StepIsOutOnlyIf(s: State, a: Action)
    requires Enabled(s, a) && !EndsGoroutine(a) && OutOnlyIf(s.f, s.cancelled)
    ensures OutOnlyIf(Next(s, a).f, Next(s, a).cancelled)
  {
    hide Weight, Takes, IsFront, NewKeys, Fresh, PopSize;
  }

  lemma {:induction false} RunIsOutOnlyIf(s: State, run: seq<Action>)
    requires Allowed(s, run) && OutOnlyIf(s.f, s.cancelled)
    requires forall k :: 0 <= k < |run| ==> !EndsGoroutine(run[k])
    ensures OutOnlyIf(End(s, run).f, End(s, run).cancelled)
    decreases |run|
  {
    hide Next, Enabled, OutOnlyIf;
    if run != [] {
      StepIsOutOnlyIf(s, run[0]);
      RunIsOutOnlyIf(Next(s, run[0]), run[1..]);
    }
  }

  /** Unless caller code ends its goroutine, the flusher stays until it is cancelled, failing and unwinding caller code
      notwithstanding. */
  lemma FlusherStaysUntilCancelled(kind: Kind, maxSize: nat, maxBatch: nat, ranks: seq<nat>, run: seq<Action>)
    requires Allowed(Start(kind, maxSize, maxBatch, ranks), run)
    requires forall k :: 0 <= k < |run| ==> !EndsGoroutine(run[k])
    ensures var e := End(Start(kind, maxSize, maxBatch, ranks), run);
      e.f.Closing? || e.f.Orphans? || e.f.Dead? ==> e.cancelled
  {
    hide Next, Enabled;
    RunIsOutOnlyIf(Start(kind, maxSize, maxBatch, ranks), run);
  }

  /** The queue is closed by its Close and by a flusher that ends, and its settings never change. */
  lemma OnlyTheseClose(s: State, a: Action)
    requires Enabled(s, a)
    ensures var s' := Next(s, a);
      && (s'.closed <==> s.closed || a.CloseQueue? || a.TakeOrphans?) && (s'.cancelled <==> s.cancelled || a.Cancel?)
      && s'.kind == s.kind && s'.maxSize == s.maxSize && s'.maxBatch == s.maxBatch
  {
    hide Weight, Takes, IsFront, NewKeys, Fresh, PopSize, Back;
  }
}
