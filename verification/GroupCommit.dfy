/** The on-disk backing's group commit. One step is one critical section, one store transaction, or one close of a
    flush result; pushers, consumers and the flusher interleave freely. Caller code the flusher runs may return, fail,
    panic, or end the flusher goroutine. Batches are those of numbered Push calls. Items are told apart by the sequence
    numbers in their store keys, never used twice. */
module GroupCommit {

  datatype Outcome = Ok | Fails | Panics | Goexit

  /** A flush result: how often its channel was closed, and whether its error was nil when it was. */
  datatype Result = Result(closes: nat, ok: bool)

  datatype Status = Waiting | Returned(ok: bool)

  /** A Push that has staged m items and waits for result r. */
  datatype Call = Call(m: nat, r: nat, status: Status)

  /** Which code called doFlush: the loop, its shutdown arm, or a Clear that drains first. */
  datatype From = Loop | Last | Draining

  datatype Flusher =
    | Select
    | Committing(snap: seq<nat>, r: nat, from: From)              // the snapshot is taken
    | Written(snap: seq<nat>, r: nat, from: From, first: nat)     // it landed, its items numbered from first
    | Failing(snap: seq<nat>, r: nat, from: From, exits: bool)    // releaseInflight is due
    | Settling(snap: seq<nat>, r: nat, ok: bool, from: From, exits: bool)  // the close of r is due
    | Clearing                                                    // doClear after its drain
    | Closing(times: nat)                                         // closeFromFlusher, so often
    | Orphans(r: nat, times: nat)                                 // the close of the result it took is due
    | Dead

  /** How the store was opened: with a hash index or without, and in the order of arrival or of priorities. */
  datatype Kind = Kind(indexed: bool, fifo: bool)

  /** cancelled: the flush context is done. landed: the calls whose items a transaction has written. ranks: the priority
      of every item ever written, by its number. store: the items in the store now. index: those the hash index lists.
      rooms: the results Pushes with nothing staged have waited on for room in the buffer. lost: the items that left the
      store in Pops that did not get to take them off the count. */
  datatype State = State(kind: Kind, maxSize: nat, maxBatch: nat, calls: seq<Call>, buf: seq<nat>, cur: nat,
                         results: seq<Result>, count: int, inflight: int, closed: bool, cancelled: bool, f: Flusher,
                         ranks: seq<nat>, store: set<nat>, index: set<nat>, landed: set<nat>, rooms: set<nat>,
                         lost: nat)

  datatype Action =
    | Push(m: nat)
    | Return(c: nat)               // a waiting Push sees its result closed
    | Pop(n: nat, lands: bool, gone: set<nat>, hashed: set<nat>)   // hashed: those for which Item.Hash then returns
    | Del(gone: set<nat>, lands: bool)
    | CloseQueue
    | Cancel
    | Flush(from: From)
    | Commit(o: Outcome, ranks: seq<nat>)   // the Backup, the codec, the Item's methods and the store write
    | Count
    | Release
    | Settle
    | Clear(o: Outcome)
    | TakeOrphans
    | SettleOrphans

  function Weight(calls: seq<Call>, ids: seq<nat>): nat
  {
    if ids == [] then 0 else (if ids[0] < |calls| then calls[ids[0]].m else 0) + Weight(calls, ids[1..])
  }

  /** x's key is before y's: higher priorities first, earlier arrivals first among equals. */
  predicate Before(s: State, x: nat, y: nat)
  {
    if x < |s.ranks| && y < |s.ranks| && s.ranks[x] != s.ranks[y] then s.ranks[x] > s.ranks[y] else x < y
  }

  /** Of the items of all, those in front are the first. */
  predicate IsFront(s: State, front: set<nat>, all: set<nat>)
  {
    front <= all && forall x, y :: x in front && y in all - front ==> Before(s, x, y)
  }

  /** The next n sequence numbers. */
  function NewKeys(from: nat, n: nat): (keys: set<nat>)
    ensures |keys| == n && forall k :: k in keys <==> from <= k < from + n
  {
    if n == 0 then {} else NewKeys(from, n - 1) + {from + n - 1}
  }

  /** How many items a Pop of n asks for. */
  function PopSize(s: State, n: nat): int
  {
    if n < s.count then n else s.count
  }

  /** A Pop that takes items out of the store; it is given ErrEmpty when the store runs out before the count does. */
  predicate Takes(s: State, n: nat, lands: bool)
  {
    !s.closed && s.count > 0 && lands && PopSize(s, n) <= |s.store|
  }

  predicate Enabled(s: State, a: Action)
  {
    match a
    case Push(m) => true
    case Return(c) =>
      c < |s.calls| && s.calls[c].status == Waiting && s.calls[c].r < |s.results| && s.results[s.calls[c].r].closes > 0
    case Pop(n, lands, gone, hashed) =>
      Takes(s, n, lands) ==> |gone| == PopSize(s, n) && IsFront(s, gone, s.store) && IsFront(s, hashed, gone)
    case Del(gone, _) => gone <= s.store && (s.kind.indexed ==> gone <= s.index)
    case CloseQueue => true
    case Cancel => true
    case Flush(from) => s.f == Select && (from == Last ==> s.cancelled)
    case Commit(_, ranks) =>
      && s.f.Committing? && |ranks| == Weight(s.calls, s.f.snap)
      && (s.kind.fifo ==> forall i :: 0 <= i < |ranks| ==> ranks[i] == 0)
    case Count => s.f.Written?
    case Release => s.f.Failing?
    case Settle => s.f.Settling?
    case Clear(_) => s.f.Clearing?
    case TakeOrphans => s.f.Closing? && s.f.times > 0
    case SettleOrphans => s.f.Orphans?
  }

  /** Where doFlush returns to. If the goroutine is ending it closes the backing, once more if a Clear is above it. */
  function Back(from: From, exits: bool): Flusher
  {
    if exits then Closing(if from == Draining then 2 else 1)
    else match from
      case Loop => Select
      case Last => Closing(1)
      case Draining => Clearing
  }

  function Close(s: State, r: nat, ok: bool): State
  {
    if r < |s.results| then s.(results := s.results[r := Result(s.results[r].closes + 1, ok)]) else s
  }

  /** What is written and not yet counted, and so not yet in the index either. */
  function Fresh(s: State): (keys: set<nat>)
    ensures forall k :: k in keys <==> IsFresh(s, k)
  {
    if s.f.Written? && s.f.first <= |s.ranks| then NewKeys(s.f.first, |s.ranks| - s.f.first) else {}
  }

  predicate IsFresh(s: State, k: nat)
  {
    s.f.Written? && s.f.first <= k < |s.ranks|
  }

  function Next(s: State, a: Action): State
    requires Enabled(s, a)
  {
    match a
    case Push(m) =>
      if s.closed || (s.maxSize > 0 && (m > s.maxSize || s.count + s.inflight + m > s.maxSize)) then s
      else if Weight(s.calls, s.buf) + m > s.maxBatch then s.(rooms := s.rooms + {s.cur})
      else
        s.(calls := s.calls + [Call(m, s.cur, Waiting)], buf := s.buf + [|s.calls|], inflight := s.inflight + m)
    case Return(c) =>
      s.(calls := s.calls[c := s.calls[c].(status := Returned(s.results[s.calls[c].r].ok))])
    case Pop(n, lands, gone, hashed) =>
      if !Takes(s, n, lands) then s
      else if s.kind.indexed && hashed != gone then
        s.(store := s.store - gone, index := s.index - hashed, lost := s.lost + |gone|)
      else s.(store := s.store - gone, index := s.index - gone, count := s.count - |gone|)
    case Del(gone, lands) =>
      if s.closed || s.count == 0 || !lands then s
      else s.(store := s.store - gone, index := s.index - gone, count := s.count - |gone|)
    case CloseQueue => s.(closed := true)
    case Cancel => s.(cancelled := true)
    case Flush(from) =>
      if s.buf == [] then s.(f := Back(from, false))
      else s.(f := Committing(s.buf, s.cur, from), buf := [], cur := |s.results|,
              results := s.results + [Result(0, false)])
    case Commit(o, ranks) =>
      if o == Ok then
        s.(f := Written(s.f.snap, s.f.r, s.f.from, |s.ranks|), ranks := s.ranks + ranks,
           store := s.store + NewKeys(|s.ranks|, |ranks|),
           landed := s.landed + (set c | c in s.f.snap))
      else s.(f := Failing(s.f.snap, s.f.r, s.f.from, o == Goexit))
    case Count =>
      var w := Weight(s.calls, s.f.snap);
      s.(f := Settling(s.f.snap, s.f.r, true, s.f.from, false), count := s.count + w, inflight := s.inflight - w,
         index := if s.kind.indexed then s.index + Fresh(s) else s.index)
    case Release =>
      s.(f := Settling(s.f.snap, s.f.r, false, s.f.from, s.f.exits), inflight := s.inflight - Weight(s.calls, s.f.snap))
    case Settle => Close(s, s.f.r, s.f.ok).(f := Back(s.f.from, s.f.exits))
    case Clear(o) =>
      if o == Goexit then s.(f := Closing(1))
      else if o != Ok || s.closed || s.count == 0 then s.(f := Select)
      else s.(f := Select, store := {}, index := {}, count := 0, lost := 0)
    case TakeOrphans =>
      s.(closed := true, buf := [], inflight := s.inflight - Weight(s.calls, s.buf), cur := |s.results|,
         results := s.results + [Result(0, false)], f := Orphans(s.cur, s.f.times - 1))
    case SettleOrphans =>
      Close(s, s.f.r, false).(f := if s.f.times == 0 then Dead else Closing(s.f.times))
  }

  // ---- the invariant

  /** The batch the flusher holds and has yet to settle. */
  function Snap(s: State): seq<nat>
  {
    if s.f.Committing? || s.f.Written? || s.f.Failing? || s.f.Settling? then s.f.snap else []
  }

  predicate HasResult(f: Flusher)
  {
    f.Committing? || f.Written? || f.Failing? || f.Settling? || f.Orphans?
  }

  predicate Holds(f: Flusher, r: nat)
  {
    HasResult(f) && f.r == r
  }

  predicate HasLanded(f: Flusher)
  {
    f.Written? || (f.Settling? && f.ok)
  }

  /** Reserved by the flusher: taken from the buffer, not yet counted nor released. */
  function Reserved(s: State): nat
  {
    if s.f.Committing? || s.f.Written? || s.f.Failing? then Weight(s.calls, s.f.snap) else 0
  }

  function Uncounted(s: State): nat
  {
    if s.f.Written? then Weight(s.calls, s.f.snap) else 0
  }

  ghost predicate ResultOk(s: State, r: nat)
  {
    r < |s.results| ==>
      && (if r == s.cur || Holds(s.f, r) then s.results[r].closes == 0 else s.results[r].closes == 1)
      && (r == s.cur ==> !Holds(s.f, r))
  }

  /** A staged call is in the buffer, in the flusher's batch, about to be orphaned, or settled; and it is told nil
      exactly when its items were written. */
  ghost predicate CallOk(s: State, c: nat)
  {
    c < |s.calls| ==>
      var x := s.calls[c];
      && x.r < |s.results|
      && (x.status.Returned? ==> s.results[x.r].closes == 1 && x.status.ok == s.results[x.r].ok)
      && (c in s.buf <==> x.r == s.cur)
      && (c in Snap(s) <==> Holds(s.f, x.r) && !s.f.Orphans?)
      && (if x.r == s.cur then c !in s.landed
          else if Holds(s.f, x.r) then (c in s.landed <==> HasLanded(s.f))
          else (c in s.landed <==> s.results[x.r].ok))
  }

  /** inflight is what is staged and not yet counted or given back; count is what the store holds, but for a batch
      written and not yet counted, and for what was lost. */
  ghost predicate Accounts(s: State)
  {
    && s.inflight == Weight(s.calls, s.buf) + Reserved(s)
    && s.count + Uncounted(s) == |s.store| + s.lost
  }

  /** Only numbers given out are used; and the index lists what is stored, but for what is fresh. A fresh item is one of
      the latest. */
  ghost predicate KeyOk(s: State, k: nat)
  {
    && (k in s.store || k in s.index ==> k < |s.ranks|)
    && (k in s.index ==> s.kind.indexed && !IsFresh(s, k))
    && (s.kind.indexed && k in s.store && !IsFresh(s, k) ==> k in s.index)
  }

  ghost predicate Ranks(s: State)
  {
    && (s.f.Written? ==> s.f.first + Weight(s.calls, s.f.snap) == |s.ranks|)
    && (s.kind.fifo ==> forall i :: 0 <= i < |s.ranks| ==> s.ranks[i] == 0)
  }

  /** In an indexed FIFO store a Pop does not come to the fresh items before it has gone wrong about the count. */
  ghost predicate FifoOk(s: State)
  {
    s.kind.indexed && s.kind.fifo ==> |Fresh(s) - s.store| <= s.lost
  }

  ghost predicate Members(s: State)
  {
    && (forall c :: c in s.buf ==> c < |s.calls|)
    && (forall c :: c in Snap(s) ==> c < |s.calls|)
    && (forall c :: c in s.landed ==> c < |s.calls|)
  }

  ghost predicate Stages(s: State)
  {
    && s.cur == |s.results| - 1
    && (s.f.Dead? || s.f.Orphans? ==> s.closed && s.buf == [])
    && (s.f.Closing? ==> s.f.times > 0)
    && (HasResult(s.f) ==> s.f.r < s.cur)
  }

  ghost predicate Shape(s: State)
  {
    Members(s) && Stages(s)
  }

  /** Once the flusher has taken the orphans, nobody waits for room on the result it left. */
  ghost predicate RoomsOk(s: State)
  {
    && (forall r :: r in s.rooms ==> r <= s.cur)
    && (s.f.Dead? || s.f.Orphans? ==> s.cur !in s.rooms)
  }

  ghost predicate Inv(s: State)
  {
    && Accounts(s) && Shape(s) && RoomsOk(s) && Ranks(s) && FifoOk(s)
    && (forall r :: ResultOk(s, r)) && (forall c :: CallOk(s, c)) && (forall k :: KeyOk(s, k))
  }

  // ---- it is kept

  lemma {:induction false} WeightSame(a: seq<Call>, b: seq<Call>, ids: seq<nat>)
    requires forall c :: c in ids ==> c < |a| && c < |b| && a[c].m == b[c].m
    ensures Weight(a, ids) == Weight(b, ids)
  {
    if ids != [] {
      assert ids[0] in ids && forall c :: c in ids[1..] ==> c in ids;
      WeightSame(a, b, ids[1..]);
    }
  }

  lemma {:induction false} WeightAppends(calls: seq<Call>, ids: seq<nat>, c: nat)
    requires c < |calls|
    ensures Weight(calls, ids + [c]) == Weight(calls, ids) + calls[c].m
  {
    if ids == [] {
      assert ids + [c] == [c];
    } else {
      WeightAppends(calls, ids[1..], c);
      assert (ids + [c])[1..] == ids[1..] + [c];
    }
  }

  lemma StagesKept(s: State, a: Action)
    requires Stages(s) && Enabled(s, a)
    ensures Stages(Next(s, a))
  {
    hide Weight, Takes, IsFront, NewKeys, Fresh, PopSize;
  }

  lemma MembersKept(s: State, a: Action)
    requires Members(s) && Enabled(s, a)
    ensures Members(Next(s, a))
  {
    hide *;
    BufferMoves(s, a);
    BatchMoves(s, a);
    LandedMoves(s, a);
    MembersStay(s, Next(s, a));
  }

  /** Every step leaves the calls where they are or moves all of a group on: into the buffer, ... */
  lemma BufferMoves(s: State, a: Action)
    requires Enabled(s, a)
    ensures |Next(s, a).calls| >= |s.calls|
    ensures Next(s, a).buf == s.buf || Next(s, a).buf == []
            || (Next(s, a).buf == s.buf + [|s.calls|] && |Next(s, a).calls| > |s.calls|)
  {
    hide Weight, Takes, IsFront, NewKeys, Fresh, PopSize, Back;
  }

  /** ... into the flusher's hands, ... */
  lemma BatchMoves(s: State, a: Action)
    requires Enabled(s, a)
    ensures Snap(Next(s, a)) == Snap(s) || Snap(Next(s, a)) == s.buf || Snap(Next(s, a)) == []
  {
    hide Weight, Takes, IsFront, NewKeys, Fresh, PopSize, Close;
  }

  /** ... and into the store. */
  lemma LandedMoves(s: State, a: Action)
    requires Enabled(s, a)
    ensures Next(s, a).landed == s.landed || Next(s, a).landed == s.landed + (set c | c in Snap(s))
  {
    hide Weight, Takes, IsFront, NewKeys, Fresh, PopSize, Back;
  }

  lemma MembersStay(s: State, t: State)
    requires Members(s) && |t.calls| >= |s.calls|
    requires t.buf == s.buf || t.buf == [] || (t.buf == s.buf + [|s.calls|] && |t.calls| > |s.calls|)
    requires Snap(t) == Snap(s) || Snap(t) == s.buf || Snap(t) == []
    requires t.landed == s.landed || t.landed == s.landed + (set c | c in Snap(s))
    ensures Members(t)
  {
  }

  lemma RoomsKept(s: State, a: Action)
    requires Shape(s) && RoomsOk(s) && Enabled(s, a)
    ensures RoomsOk(Next(s, a))
  {
    hide Weight, Takes, IsFront, NewKeys, Fresh, PopSize, Members;
  }

  lemma AccountsKept(s: State, a: Action)
    requires Accounts(s) && Shape(s) && (forall k :: KeyOk(s, k)) && Enabled(s, a)
    ensures Accounts(Next(s, a))
  {
    hide *;
    match a
    case Push(m) => PushKeepsAccounts(s, m);
    case Return(c) => ReturnKeepsAccounts(s, c);
    case Pop(_, _, _, _) => PopKeepsAccounts(s, a);
    case Del(_, _) => DelKeepsAccounts(s, a);
    case Commit(_, _) => CommitKeepsAccounts(s, a);
    case Flush(_) => FlusherKeepsAccounts(s, a);
    case Count => FlusherKeepsAccounts(s, a);
    case Release => FlusherKeepsAccounts(s, a);
    case Settle => FlusherKeepsAccounts(s, a);
    case _ => EndingKeepsAccounts(s, a);
  }

  lemma ReturnKeepsAccounts(s: State, c: nat)
    requires Accounts(s) && Shape(s) && Enabled(s, Return(c))
    ensures Accounts(Next(s, Return(c)))
  {
    hide Weight;
    WeightSame(s.calls, Next(s, Return(c)).calls, s.buf);
    WeightSame(s.calls, Next(s, Return(c)).calls, Snap(s));
  }

  lemma SizeWithout<X>(s: set<X>, gone: set<X>)
    requires gone <= s
    ensures |s - gone| == |s| - |gone|
  {
    assert (s - gone) + gone == s;
  }

  lemma SizeWith<X>(s: set<X>, more: set<X>)
    requires s !! more
    ensures |s + more| == |s| + |more|
  {
  }

  lemma PopKeepsAccounts(s: State, a: Action)
    requires Accounts(s) && Enabled(s, a) && a.Pop?
    ensures Accounts(Next(s, a))
  {
    hide Weight, Before, NewKeys;
    if Takes(s, a.n, a.lands) { SizeWithout(s.store, a.gone); }
  }

  lemma DelKeepsAccounts(s: State, a: Action)
    requires Accounts(s) && Enabled(s, a) && a.Del?
    ensures Accounts(Next(s, a))
  {
    hide Weight, Takes, IsFront, NewKeys;
    SizeWithout(s.store, a.gone);
  }

  lemma CommitKeepsAccounts(s: State, a: Action)
    requires Accounts(s) && (forall k :: KeyOk(s, k)) && Enabled(s, a) && a.Commit?
    ensures Accounts(Next(s, a))
  {
    hide Weight, Takes, IsFront, NewKeys, Fresh;
    var keys := NewKeys(|s.ranks|, |a.ranks|);
    assert s.store !! keys by {
      forall k | k in s.store ensures k !in keys { assert KeyOk(s, k); }
    }
    SizeWith(s.store, keys);
  }

  lemma FlusherKeepsAccounts(s: State, a: Action)
    requires Accounts(s) && Enabled(s, a) && (a.Flush? || a.Count? || a.Release? || a.Settle?)
    ensures Accounts(Next(s, a))
  {
    hide Weight, Takes, IsFront, NewKeys;
    EmptyWeighsNothing(s.calls);
  }

  lemma EndingKeepsAccounts(s: State, a: Action)
    requires Accounts(s) && Enabled(s, a)
    requires a.CloseQueue? || a.Cancel? || a.Clear? || a.TakeOrphans? || a.SettleOrphans?
    ensures Accounts(Next(s, a))
  {
    hide Weight, Takes, IsFront, NewKeys;
    EmptyWeighsNothing(s.calls);
  }

  lemma PushKeepsAccounts(s: State, m: nat)
    requires Accounts(s) && Shape(s)
    ensures Accounts(Next(s, Push(m)))
  {
    hide Weight;
    var calls := s.calls + [Call(m, s.cur, Waiting)];
    WeightSame(s.calls, calls, s.buf);
    WeightSame(s.calls, calls, Snap(s));
    WeightAppends(calls, s.buf, |s.calls|);
  }

  lemma EmptyWeighsNothing(calls: seq<Call>)
    ensures Weight(calls, []) == 0
  {
  }

  lemma ResultKept(s: State, a: Action, r: nat)
    requires Shape(s) && ResultOk(s, r) && Enabled(s, a)
    ensures ResultOk(Next(s, a), r)
  {
    hide Next, ResultOk, Stages, Members, Enabled;
    if a.Settle? || a.TakeOrphans? || a.SettleOrphans? || a.Flush? { ResultKeptBySettling(s, a, r); }
    else { ResultKeptByRest(s, a, r); }
  }

  lemma ResultKeptBySettling(s: State, a: Action, r: nat)
    requires Stages(s) && ResultOk(s, r) && Enabled(s, a)
    requires a.Settle? || a.TakeOrphans? || a.SettleOrphans? || a.Flush?
    ensures ResultOk(Next(s, a), r)
  {
    hide Weight, Takes, IsFront, NewKeys, Fresh, PopSize;
  }

  lemma ResultKeptByRest(s: State, a: Action, r: nat)
    requires ResultOk(s, r) && Enabled(s, a)
    requires !(a.Settle? || a.TakeOrphans? || a.SettleOrphans? || a.Flush?)
    ensures ResultOk(Next(s, a), r)
  {
    hide Weight, Takes, IsFront, NewKeys, Fresh, PopSize;
  }

  // A call's fate, through the steps of pushers and consumers, of the flusher before a settlement, and of a settlement.

  lemma CallKeptByPush(s: State, m: nat, c: nat)
    requires Shape(s) && CallOk(s, c) && (forall r :: ResultOk(s, r))
    ensures CallOk(Next(s, Push(m)), c)
  {
    hide Weight;
    assert ResultOk(s, s.cur);
    assert Snap(Next(s, Push(m))) == Snap(s);
  }

  lemma CallKeptByReturn(s: State, d: nat, c: nat)
    requires Shape(s) && CallOk(s, c) && (forall r :: ResultOk(s, r)) && Enabled(s, Return(d))
    ensures CallOk(Next(s, Return(d)), c)
  {
    hide Weight, HasLanded;
    if c < |s.calls| { assert ResultOk(s, s.calls[c].r); }
    assert Snap(Next(s, Return(d))) == Snap(s);
  }

  /** The steps that change nothing a call's fate depends on. */
  lemma CallKeptByRest(s: State, a: Action, c: nat)
    requires CallOk(s, c) && Enabled(s, a)
    requires a.Pop? || a.Del? || a.CloseQueue? || a.Cancel? || a.Count? || a.Release? || a.Clear?
    ensures CallOk(Next(s, a), c)
  {
    hide CallOk;
    NothingSettles(s, a);
    hide Next, Enabled, HasLanded, Snap;
    SameFate(s, Next(s, a), c);
  }

  lemma NothingSettles(s: State, a: Action)
    requires Enabled(s, a)
    requires a.Pop? || a.Del? || a.CloseQueue? || a.Cancel? || a.Count? || a.Release? || a.Clear?
    ensures var t := Next(s, a);
      && t.calls == s.calls && t.buf == s.buf && t.cur == s.cur && t.results == s.results && t.landed == s.landed
      && Snap(t) == Snap(s) && HasResult(t.f) == HasResult(s.f) && (HasResult(s.f) ==> t.f.r == s.f.r)
      && t.f.Orphans? == s.f.Orphans? && HasLanded(t.f) == HasLanded(s.f)
  {
    hide Weight, Takes, IsFront, NewKeys, Fresh, PopSize;
  }

  lemma SameFate(s: State, t: State, c: nat)
    requires CallOk(s, c)
    requires t.calls == s.calls && t.buf == s.buf && t.cur == s.cur && t.results == s.results && t.landed == s.landed
    requires Snap(t) == Snap(s) && HasResult(t.f) == HasResult(s.f) && (HasResult(s.f) ==> t.f.r == s.f.r)
    requires t.f.Orphans? == s.f.Orphans? && HasLanded(t.f) == HasLanded(s.f)
    ensures CallOk(t, c)
  {
    hide Snap, HasLanded;
  }

  lemma CallKeptByFlush(s: State, from: From, c: nat)
    requires Shape(s) && CallOk(s, c) && (forall r :: ResultOk(s, r)) && Enabled(s, Flush(from))
    ensures CallOk(Next(s, Flush(from)), c)
  {
    hide Weight;
    assert ResultOk(s, s.cur);
    if c < |s.calls| { assert ResultOk(s, s.calls[c].r); }
  }

  lemma CallKeptByCommit(s: State, a: Action, c: nat)
    requires Shape(s) && CallOk(s, c) && Enabled(s, a) && a.Commit?
    ensures CallOk(Next(s, a), c)
  {
    hide Weight, NewKeys, Takes, IsFront;
    assert Snap(Next(s, a)) == Snap(s);
  }

  lemma CallKeptBySettling(s: State, a: Action, c: nat)
    requires Shape(s) && CallOk(s, c) && (forall r :: ResultOk(s, r)) && Enabled(s, a)
    requires a.Settle? || a.TakeOrphans? || a.SettleOrphans?
    ensures CallOk(Next(s, a), c)
  {
    hide Weight, Takes, IsFront, NewKeys, Fresh, PopSize;
    assert ResultOk(s, s.cur);
    if c < |s.calls| { assert ResultOk(s, s.calls[c].r); }
  }

  // The items and the index.

  lemma KeyKept(s: State, a: Action, k: nat)
    requires KeyOk(s, k) && Enabled(s, a)
    ensures KeyOk(Next(s, a), k)
  {
    hide Weight, Takes, NewKeys;
  }

  lemma RanksKept(s: State, a: Action)
    requires Ranks(s) && Members(s) && Enabled(s, a)
    ensures Ranks(Next(s, a))
  {
    hide Members, Ranks, Next, Enabled;
    if a.Commit? { RanksKeptByCommit(s, a); }
    else if a.Push? || a.Return? { RanksKeptByPushers(s, a); }
    else { RanksKeptByRest(s, a); }
  }

  lemma RanksKeptByCommit(s: State, a: Action)
    requires Ranks(s) && Enabled(s, a) && a.Commit?
    ensures Ranks(Next(s, a))
  {
    hide Weight, Takes, IsFront, NewKeys, Fresh;
  }

  lemma RanksKeptByPushers(s: State, a: Action)
    requires Ranks(s) && Members(s) && Enabled(s, a) && (a.Push? || a.Return?)
    ensures Ranks(Next(s, a))
  {
    hide Weight, Takes, IsFront, NewKeys, Fresh;
    WeightSame(s.calls, Next(s, a).calls, Snap(s));
  }

  lemma RanksKeptByRest(s: State, a: Action)
    requires Ranks(s) && Enabled(s, a) && !a.Commit? && !a.Push? && !a.Return?
    ensures Ranks(Next(s, a))
  {
    hide Weight, Takes, IsFront, NewKeys, Fresh, IsFresh, PopSize;
  }

  lemma FifoKept(s: State, a: Action)
    requires Accounts(s) && Ranks(s) && FifoOk(s) && (forall k :: KeyOk(s, k)) && Enabled(s, a)
    ensures FifoOk(Next(s, a))
  {
    hide *;
    if a.Pop? { FifoKeptByPop(s, a); }
    else if a.Del? { FifoKeptByDel(s, a); }
    else if a.Commit? { FifoKeptByCommit(s, a); }
    else { FifoKeptByRest(s, a); }
  }

  lemma FifoKeptByDel(s: State, a: Action)
    requires FifoOk(s) && (forall k :: KeyOk(s, k)) && Enabled(s, a) && a.Del?
    ensures FifoOk(Next(s, a))
  {
    hide Weight, Takes, IsFront, NewKeys;
    if s.kind.indexed {
      forall k | k in a.gone ensures k !in Fresh(s) { assert KeyOk(s, k); }
      assert Fresh(s) - (s.store - a.gone) == Fresh(s) - s.store;
    }
  }

  lemma FifoKeptByCommit(s: State, a: Action)
    requires FifoOk(s) && Enabled(s, a) && a.Commit?
    ensures FifoOk(Next(s, a))
  {
    hide Weight, Takes, IsFront, NewKeys;
    var keys := NewKeys(|s.ranks|, |a.ranks|);
    assert keys - (s.store + keys) == {};
  }

  lemma FifoKeptByRest(s: State, a: Action)
    requires FifoOk(s) && Enabled(s, a) && !a.Pop? && !a.Del? && !a.Commit?
    ensures FifoOk(Next(s, a))
  {
    hide Weight, Takes, IsFront, NewKeys, Enabled;
    FreshStays(s, a);
  }

  /** No other step changes what is written, or adds to what waits to be counted. */
  lemma FreshStays(s: State, a: Action)
    requires Enabled(s, a) && !a.Pop? && !a.Del? && !a.Commit?
    ensures Next(s, a).kind == s.kind && (Next(s, a).store == s.store || Fresh(Next(s, a)) == {})
    ensures Fresh(Next(s, a)) == Fresh(s) || Fresh(Next(s, a)) == {}
    ensures Next(s, a).lost == s.lost || Fresh(Next(s, a)) == {}
  {
    hide Weight, Takes, IsFront, NewKeys;
  }

  /** When what is taken from the front of a store reaches what came late, it has taken all the rest. */
  lemma FrontReaches(store: set<nat>, late: set<nat>, gone: set<nat>)
    requires gone <= store && (gone !! late || store - late <= gone)
    ensures |late - (store - gone)| == |late - store| + |gone * late|
    ensures gone * late != {} ==> |gone * late| + |store| + |late - store| == |gone| + |late|
  {
    var missing, taken, early := late - store, gone * late, store - late;
    assert late - (store - gone) == missing + taken;
    SizeWith(missing, taken);
    if taken != {} {
      assert gone - early == taken && store - early == late - missing;
      SizeWithout(gone, early);
      SizeWithout(store, early);
      SizeWithout(late, missing);
    }
  }

  lemma FreshSize(s: State)
    requires Ranks(s)
    ensures |Fresh(s)| == Uncounted(s)
    ensures forall k :: k in s.store && k !in Fresh(s) && s.f.Written? && k < |s.ranks| ==> k < s.f.first
  {
  }

  /** What is counted and stored is in front of what is fresh. */
  lemma FrontIsCounted(s: State, a: Action)
    requires Ranks(s) && (forall k :: KeyOk(s, k)) && Enabled(s, a)
    requires a.Pop? && Takes(s, a.n, a.lands) && s.kind.fifo
    ensures a.gone <= s.store && (a.gone !! Fresh(s) || s.store - Fresh(s) <= a.gone)
  {
    hide Weight, PopSize, Takes;
    if x: nat :| x in a.gone && x in Fresh(s) {
      forall k | k in s.store - Fresh(s) ensures k in a.gone {
        assert KeyOk(s, k);
        assert k !in a.gone ==> Before(s, x, k);
      }
    }
  }

  lemma FifoKeptByPop(s: State, a: Action)
    requires Accounts(s) && Ranks(s) && FifoOk(s) && (forall k :: KeyOk(s, k)) && Enabled(s, a) && a.Pop?
    ensures FifoOk(Next(s, a))
  {
    PopEffect(s, a);
    if Takes(s, a.n, a.lands) && s.kind.indexed && s.kind.fifo {
      FrontIsCounted(s, a);
      FreshSize(s);
      hide *;
      FrontReaches(s.store, Fresh(s), a.gone);
      PartsAreSmaller(a.gone, Fresh(s));
    }
  }

  lemma PopEffect(s: State, a: Action)
    requires Enabled(s, a) && a.Pop?
    ensures var t := Next(s, a);
      && t.kind == s.kind && Fresh(t) == Fresh(s)
      && (if Takes(s, a.n, a.lands) then t.store == s.store - a.gone && |a.gone| <= s.count else t == s)
      && (t.lost == s.lost || t.lost == s.lost + |a.gone|)
  {
    hide IsFront, NewKeys;
  }

  lemma PartsAreSmaller(a: set<nat>, b: set<nat>)
    ensures |a * b| <= |a|
  {
    SizeWithout(a, a * b);
  }

  lemma StepKeeps(s: State, a: Action)
    requires Inv(s) && Enabled(s, a)
    ensures Inv(Next(s, a))
  {
    hide Accounts, Members, Stages, RoomsOk, ResultOk, CallOk, KeyOk, Ranks, FifoOk, Next, Enabled;
    RanksKept(s, a);
    FifoKept(s, a);
    forall k ensures KeyOk(Next(s, a), k) { KeyKept(s, a, k); }
    AccountsKept(s, a);
    StagesKept(s, a);
    MembersKept(s, a);
    RoomsKept(s, a);
    forall r ensures ResultOk(Next(s, a), r) { ResultKept(s, a, r); }
    forall c ensures CallOk(Next(s, a), c) {
      if a.Push? { CallKeptByPush(s, a.m, c); }
      else if a.Return? { CallKeptByReturn(s, a.c, c); }
      else if a.Settle? || a.TakeOrphans? || a.SettleOrphans? { CallKeptBySettling(s, a, c); }
      else if a.Commit? { CallKeptByCommit(s, a, c); }
      else if a.Flush? { CallKeptByFlush(s, a.from, c); }
      else { CallKeptByRest(s, a, c); }
    }
  }

  // ---- runs

  predicate Allowed(s: State, run: seq<Action>)
    decreases |run|
  {
    run == [] || (Enabled(s, run[0]) && Allowed(Next(s, run[0]), run[1..]))
  }

  function End(s: State, run: seq<Action>): State
    requires Allowed(s, run)
    decreases |run|
  {
    if run == [] then s else End(Next(s, run[0]), run[1..])
  }

  /** A backing just opened on a store of items with these ranks, its flusher started. */
  function Start(kind: Kind, maxSize: nat, maxBatch: nat, ranks: seq<nat>): State
  {
    var n, keys := |ranks|, NewKeys(0, |ranks|);
    State(kind, maxSize, maxBatch, [], [], 0, [Result(0, false)], n, 0, false, false, Select,
          if kind.fifo then seq(n, _ => 0) else ranks, keys, if kind.indexed then keys else {}, {}, {}, 0)
  }

  lemma StartHolds(kind: Kind, maxSize: nat, maxBatch: nat, ranks: seq<nat>)
    ensures Inv(Start(kind, maxSize, maxBatch, ranks))
  {
    hide NewKeys;
  }

  lemma {:induction false} RunKeeps(s: State, run: seq<Action>)
    requires Inv(s) && Allowed(s, run)
    ensures Inv(End(s, run))
    decreases |run|
  {
    hide Inv, Next, Enabled;
    if run != [] {
      StepKeeps(s, run[0]);
      RunKeeps(Next(s, run[0]), run[1..]);
    }
  }

  ghost predicate Reachable(s: State)
  {
    exists k: Kind, m: nat, b: nat, ranks: seq<nat>, run: seq<Action> ::
      Allowed(Start(k, m, b, ranks), run) && End(Start(k, m, b, ranks), run) == s
  }

  lemma ReachableHolds(s: State)
    requires Reachable(s)
    ensures Inv(s)
  {
    hide Inv, Next, Enabled, Start;
    var k: Kind, m: nat, b: nat, ranks: seq<nat>, run: seq<Action> :|
      Allowed(Start(k, m, b, ranks), run) && End(Start(k, m, b, ranks), run) == s;
    StartHolds(k, m, b, ranks);
    RunKeeps(Start(k, m, b, ranks), run);
  }

  // ---- what holds in every reachable state

  /** No flush result is closed twice, and every one but the current one and the one in the flusher's hands has been
      closed. */
  lemma ResultsCloseOnce(s: State, r: nat)
    requires Reachable(s) && r < |s.results|
    ensures s.results[r].closes <= 1
    ensures r != s.cur && !Holds(s.f, r) ==> s.results[r].closes == 1
  {
    ReachableHolds(s);
    assert ResultOk(s, r);
  }

  /** A staged Push returns nil exactly when its items were written to the store; and once its result is closed, that is
      what it will return. */
  lemma NilMeansCommitted(s: State, c: nat)
    requires Reachable(s) && c < |s.calls|
    ensures s.calls[c].status.Returned? ==> (s.calls[c].status.ok <==> c in s.landed)
    ensures Enabled(s, Return(c)) ==> (Next(s, Return(c)).calls[c].status == Returned(c in s.landed))
  {
    ReachableHolds(s);
    assert CallOk(s, c) && ResultOk(s, s.calls[c].r);
  }

  /** When the flusher has ended, by returning or by a Goexit out of caller code, the queue is closed, nothing is staged
      or reserved, and no Push waits on a result that is not settled. */
  lemma DeadFlusherLeavesNobodyWaiting(s: State, c: nat)
    requires Reachable(s) && s.f.Dead?
    ensures s.closed && s.buf == [] && s.inflight == 0 && s.count == |s.store| + s.lost
    ensures c < |s.calls| && s.calls[c].status.Waiting? ==> Enabled(s, Return(c))
    ensures forall r :: r in s.rooms ==> r < |s.results| && s.results[r].closes == 1
    ensures forall m :: Next(s, Push(m)) == s
  {
    ReachableHolds(s);
    assert CallOk(s, c);
    if c < |s.calls| { assert ResultOk(s, s.calls[c].r); }
    forall r | r in s.rooms ensures r < |s.results| && s.results[r].closes == 1 { assert ResultOk(s, r); }
  }

  /** inflight is what is staged and what the flusher holds uncounted; the count and what is written but not counted are
      the store and what was lost, whatever Pops, Dels and Clears come between. */
  lemma Conservation(s: State)
    requires Reachable(s)
    ensures s.inflight == Weight(s.calls, s.buf) + Reserved(s)
    ensures s.count + Uncounted(s) == |s.store| + s.lost
    ensures !s.kind.indexed ==> s.lost == 0
  {
    ReachableHolds(s);
    OnlyIndexedStoresLose(s);
  }

  /** The count tells the store: what is stored is counted, or written and about to be. */
  ghost predicate Balanced(s: State)
  {
    s.count + Uncounted(s) == |s.store|
  }

  /** A Pop that takes items from an indexed store and is unwound by Item.Hash before it takes them off the count. */
  predicate Overcounts(s: State, a: Action)
  {
    a.Pop? && s.kind.indexed && Takes(s, a.n, a.lands) && a.hashed != a.gone
  }

  /** The balance is lost exactly by such a Pop. */
  lemma BalanceIsKeptIff(s: State, a: Action)
    requires Reachable(s) && Enabled(s, a) && Balanced(s)
    ensures Balanced(Next(s, a)) <==> !Overcounts(s, a)
  {
    hide *;
    BalancedIff(s);
    ReachesNext(s, a);
    BalancedIff(Next(s, a));
    LossIff(s, a);
  }

  lemma LossIff(s: State, a: Action)
    requires Enabled(s, a) && s.lost == 0
    ensures Next(s, a).lost == 0 <==> !Overcounts(s, a)
  {
    hide Weight, Before, NewKeys, Fresh, PopSize;
    if a.Pop? && Takes(s, a.n, a.lands) && a.hashed != a.gone {
      assert a.gone != {};
    }
  }

  lemma BalancedIff(s: State)
    requires Reachable(s)
    ensures Balanced(s) <==> s.lost == 0
  {
    hide Weight, Shape, RoomsOk, Ranks, FifoOk, ResultOk, CallOk, KeyOk;
    ReachableHolds(s);
  }

  lemma OnlyIndexedStoresLose(s: State)
    requires Reachable(s)
    ensures !s.kind.indexed ==> s.lost == 0
  {
    hide Next, Enabled, Start;
    var k: Kind, m: nat, b: nat, ranks: seq<nat>, run: seq<Action> :|
      Allowed(Start(k, m, b, ranks), run) && End(Start(k, m, b, ranks), run) == s;
    StartsWithoutLoss(k, m, b, ranks);
    UnindexedLosesNothing(Start(k, m, b, ranks), run);
  }

  lemma StartsWithoutLoss(k: Kind, m: nat, b: nat, ranks: seq<nat>)
    ensures Start(k, m, b, ranks).lost == 0
  {
  }

  lemma {:induction false} UnindexedLosesNothing(s: State, run: seq<Action>)
    requires Allowed(s, run) && (!s.kind.indexed ==> s.lost == 0)
    ensures End(s, run).kind == s.kind && (!s.kind.indexed ==> End(s, run).lost == 0)
    decreases |run|
  {
    hide Next, Enabled;
    if run != [] {
      StepLosesNothing(s, run[0]);
      UnindexedLosesNothing(Next(s, run[0]), run[1..]);
    }
  }

  lemma StepLosesNothing(s: State, a: Action)
    requires Enabled(s, a)
    ensures Next(s, a).kind == s.kind && (!s.kind.indexed && s.lost == 0 ==> Next(s, a).lost == 0)
  {
    hide Weight, Before, NewKeys, Takes, IsFront;
  }

  predicate HasKeys(s: State, k: nat)
  {
    k <= |s.store|
  }

  /** Every Pop of no more than the count finds its keys, if and only if no more was lost than is about to be counted;
      so always, if nothing was lost. */
  lemma PopMeetsNoMissingKeyIff(s: State)
    requires Reachable(s)
    ensures (forall k: nat :: k <= s.count ==> HasKeys(s, k)) <==> s.lost <= Uncounted(s)
  {
    ReachableHolds(s);
    if s.lost > Uncounted(s) {
      assert !HasKeys(s, s.count);
    }
  }

  /** Staged and stored items together stay within the bound, or within what the store held when it was opened. */
  lemma {:induction false} AdmissionIsBounded(s: State, run: seq<Action>, bound: nat)
    requires Inv(s) && Allowed(s, run) && 0 < s.maxSize <= bound && s.count + s.inflight <= bound
    ensures End(s, run).count + End(s, run).inflight <= bound
    decreases |run|
  {
    hide Inv, Next, Enabled;
    if run != [] {
      StepKeeps(s, run[0]);
      StepIsBounded(s, run[0], bound);
      AdmissionIsBounded(Next(s, run[0]), run[1..], bound);
    }
  }

  lemma StepIsBounded(s: State, a: Action, bound: nat)
    requires Inv(s) && Enabled(s, a) && 0 < s.maxSize <= bound && s.count + s.inflight <= bound
    ensures Next(s, a).maxSize == s.maxSize && Next(s, a).count + Next(s, a).inflight <= bound
  {
    hide Weight, Takes, IsFront, NewKeys, Fresh, Members, Stages, RoomsOk, Ranks, FifoOk, ResultOk, CallOk, KeyOk;
  }

  lemma {:induction false} RunGoesOn(s: State, run: seq<Action>, a: Action)
    requires Allowed(s, run) && Enabled(End(s, run), a)
    ensures Allowed(s, run + [a]) && End(s, run + [a]) == Next(End(s, run), a)
    decreases |run|
  {
    hide Next, Enabled;
    if run == [] {
      assert run + [a] == [a] && [a][1..] == [];
    } else {
      RunGoesOn(Next(s, run[0]), run[1..], a);
      assert (run + [a])[1..] == run[1..] + [a];
    }
  }

  lemma ReachesNext(s: State, a: Action)
    requires Reachable(s) && Enabled(s, a)
    ensures Reachable(Next(s, a))
  {
    hide Next, Enabled, Start;
    var k: Kind, m: nat, b: nat, ranks: seq<nat>, run: seq<Action> :|
      Allowed(Start(k, m, b, ranks), run) && End(Start(k, m, b, ranks), run) == s;
    RunGoesOn(Start(k, m, b, ranks), run, a);
  }

  lemma Follow(s: State, a: Action) returns (s': State)
    requires Reachable(s) && Enabled(s, a)
    ensures Reachable(s') && s' == Next(s, a)
  {
    hide *;
    ReachesNext(s, a);
    s' := Next(s, a);
  }

  lemma StartIsReachable(k: Kind, m: nat, b: nat, ranks: seq<nat>)
    ensures Reachable(Start(k, m, b, ranks))
  {
    hide Start;
    assert Allowed(Start(k, m, b, ranks), []) && End(Start(k, m, b, ranks), []) == Start(k, m, b, ranks);
  }

  // ---- the index

  /** In every reachable state Exists and Del, which look in the index, find what is stored and counted. */
  lemma IndexListsWhatIsCounted(s: State, k: nat)
    requires Reachable(s) && s.kind.indexed && k in s.store
    ensures k in s.index <==> k !in Fresh(s)
  {
    hide Accounts, Shape, RoomsOk, Ranks, FifoOk, ResultOk, CallOk;
    ReachableHolds(s);
    assert KeyOk(s, k);
  }

  /** Listed and no longer stored. */
  function Stale(s: State): set<nat>
  {
    s.index - s.store
  }

  /** Index and store agree exactly when nothing written waits to be counted and nothing listed has left. */
  lemma IndexAgreesIff(s: State)
    requires Reachable(s) && s.kind.indexed
    ensures s.index == s.store <==> s.store !! Fresh(s) && Stale(s) == {}
  {
    forall k | k in s.store ensures k in s.index <==> k !in Fresh(s) { IndexListsWhatIsCounted(s, k); }
  }

  /** The batch is counted, and so listed, when a Pop has already taken some of it; or Item.Hash unwinds out of a Pop
      before something it took is off the list. */
  predicate Strands(s: State, a: Action)
    requires Enabled(s, a)
  {
    || (a.Count? && s.kind.indexed && Fresh(s) - s.store != {})
    || (a.Pop? && s.kind.indexed && Takes(s, a.n, a.lands) && s.index * (a.gone - a.hashed) != {})
  }

  lemma ListedOnly(s: State)
    requires Reachable(s)
    ensures Fresh(s) !! s.index && (!s.kind.indexed ==> s.index == {})
  {
    ReachableHolds(s);
    forall k ensures k in s.index ==> k !in Fresh(s) && s.kind.indexed { assert KeyOk(s, k); }
  }

  /** It is exactly by such a step that something listed is left behind. */
  lemma StaleGrowsIff(s: State, a: Action)
    requires Reachable(s) && Enabled(s, a)
    ensures Stale(Next(s, a)) <= Stale(s) <==> !Strands(s, a)
  {
    ListedOnly(s);
    hide Next, Enabled, Reachable, Fresh, Stale;
    if a.Pop? { StaleByPop(s, a); }
    else if a.Count? { StaleByCount(s, a); }
    else { StaleByRest(s, a); }
  }

  lemma StaleByPop(s: State, a: Action)
    requires Enabled(s, a) && a.Pop?
    ensures Stale(Next(s, a)) <= Stale(s) <==> !Strands(s, a)
  {
    hide Weight, Before, NewKeys, PopSize;
    if Takes(s, a.n, a.lands) {
      hide Takes;
      StaleAfterPop(s.store, s.index, a.gone, a.hashed);
    }
  }

  lemma StaleByCount(s: State, a: Action)
    requires Enabled(s, a) && a.Count? && Fresh(s) !! s.index
    ensures Stale(Next(s, a)) <= Stale(s) <==> !Strands(s, a)
  {
    hide Weight, Takes, IsFront, Fresh, PopSize;
    StaleAfterCount(s.store, s.index, Fresh(s));
  }

  lemma StaleByRest(s: State, a: Action)
    requires Enabled(s, a) && !a.Pop? && !a.Count?
    ensures Stale(Next(s, a)) <= Stale(s)
  {
    hide Weight, Takes, IsFront, NewKeys, Fresh, PopSize;
  }

  lemma StaleAfterPop(store: set<nat>, index: set<nat>, gone: set<nat>, hashed: set<nat>)
    requires hashed <= gone <= store
    ensures (index - hashed) - (store - gone) <= index - store <==> index * (gone - hashed) == {}
    ensures index - gone - (store - gone) <= index - store
  {
    var stays := index * (gone - hashed);
    forall k ensures k in (index - hashed) - (store - gone) <==> k in index - store || k in stays {}
    if stays != {} {
      var k :| k in stays;
      assert k !in index - store;
    }
  }

  lemma StaleAfterCount(store: set<nat>, index: set<nat>, keys: set<nat>)
    requires keys !! index
    ensures index + keys - store <= index - store <==> keys - store == {}
  {
    forall k ensures k in index + keys - store <==> k in index - store || k in keys - store {}
    if keys - store != {} {
      var k :| k in keys - store;
      assert k !in index - store;
    }
  }

  /** It does no harm to lookups: no number is given out again. */
  lemma StaleIsNeverStored(s: State, a: Action, k: nat)
    requires Reachable(s) && Enabled(s, a) && k in Stale(s)
    ensures k !in Next(s, a).store
  {
    hide Weight, Before, PopSize, Reachable, Accounts, Shape, RoomsOk, Ranks, FifoOk, ResultOk, CallOk;
    ReachableHolds(s);
    assert KeyOk(s, k);
  }

  // ---- the count below zero

  /** Only while a batch is written and not yet counted can the count be below zero, ... */
  lemma CountIsBelowZeroOnlyBeforeCounting(s: State)
    requires Reachable(s) && !s.f.Written?
    ensures s.count >= 0
  {
    ReachableHolds(s);
  }

  /** ... and what takes it there is exactly a Del of more than it counts. */
  lemma CountGoesBelowZeroIff(s: State, a: Action)
    requires Reachable(s) && s.count >= 0 && Enabled(s, a)
    ensures Next(s, a).count < 0 <==> a.Del? && a.lands && !s.closed && s.count != 0 && |a.gone| > s.count
  {
    hide Weight, Before, NewKeys, IsFront, Reachable, Accounts, Shape, RoomsOk, Ranks, FifoOk, ResultOk, CallOk, KeyOk;
    ReachableHolds(s);
  }

  /** An indexed FIFO store has nothing like it: Pop comes to what is counted first, and Del to nothing else. */
  lemma IndexedFifoCountIsNeverNegative(s: State)
    requires Reachable(s) && s.kind.indexed && s.kind.fifo
    ensures s.count >= 0
  {
    hide Weight, Shape, RoomsOk, Ranks, ResultOk, CallOk, KeyOk;
    ReachableHolds(s);
    FreshSize(s);
    var missing := Fresh(s) - s.store;
    SizeWithout(Fresh(s), missing);
    SizeWithout(s.store, Fresh(s) - missing);
  }

  /** A batch of m has been handed to the transaction. */
  lemma OneStaged(k: Kind, m: nat, ranks: seq<nat>) returns (s: State)
    ensures Reachable(s) && Weight(s.calls, [0]) == m
    ensures s == Start(k, 0, m, ranks).(calls := [Call(m, 0, Waiting)], inflight := m, cur := 1, results := s.results,
                                        f := Committing([0], 0, Loop))
  {
    hide Reachable, NewKeys;
    StartIsReachable(k, 0, m, ranks);
    s := Start(k, 0, m, ranks);
    assert Weight(s.calls, []) == 0;
    s := Follow(s, Push(m));
    assert s.calls == [Call(m, 0, Waiting)] && s.buf == [0];
    s := Follow(s, Flush(Loop));
    assert Weight(s.calls, [0]) == m by { assert [0][1..] == []; }
  }

  lemma FirstKeys()
    ensures NewKeys(0, 1) == {0} && NewKeys(0, 2) == {0, 1} && NewKeys(1, 2) == {1, 2} && NewKeys(2, 1) == {2}
  {
    hide NewKeys;
  }

  /** A batch of two is written over a store of one. */
  lemma WrittenOverOne(fifo: bool) returns (s: State)
    ensures Reachable(s) && s.kind == Kind(false, fifo) && s.count == 1 && !s.closed && s.store == {0, 1, 2}
  {
    hide Reachable, NewKeys, Weight, Takes, IsFront, Fresh;
    s := OneStaged(Kind(false, fifo), 2, [0]);
    FirstKeys();
    assert {0} + {1, 2} == {0, 1, 2};
    s := Follow(s, Commit(Ok, [0, 0]));
  }

  /** A run in which the count falls below zero: a Del of a batch that is written and not yet counted. */
  lemma UnindexedCountCanBeNegative(fifo: bool) returns (s: State)
    ensures Reachable(s) && s.kind == Kind(false, fifo) && s.count < 0
  {
    hide Reachable;
    s := WrittenOverOne(fifo);
    hide NewKeys, Weight;
    assert |{0, 1, 2}| == 3;
    s := Follow(s, Del({0, 1, 2}, true));
  }

  /** Two items of low rank are stored and listed, one of high rank written over them. */
  lemma WrittenInFront() returns (s: State)
    ensures Reachable(s) && s.kind == Kind(true, false) && s.count == 2 && !s.closed
    ensures s.store == {0, 1, 2} && s.index == {0, 1} && s.ranks == [0, 0, 1]
  {
    hide Reachable, NewKeys, Weight;
    s := OneStaged(Kind(true, false), 1, [0, 0]);
    FirstKeys();
    s := Follow(s, Commit(Ok, [1]));
  }

  /** A run in which it falls below zero in an indexed priority store: a Pop takes the item that is written and not yet
      counted, because it goes first, and a Del then finds both that are counted. */
  lemma IndexedCountCanBeNegative() returns (s: State)
    ensures Reachable(s) && s.kind == Kind(true, false) && s.count < 0
  {
    hide Reachable;
    s := WrittenInFront();
    hide NewKeys, Weight;
    assert |{2}| == 1 && |{0, 1}| == 2;
    s := Follow(s, Pop(1, true, {2}, {2}));
    s := Follow(s, Del({0, 1}, true));
  }

  /** So of the four kinds of store it is the indexed FIFO store alone whose count is never negative. */
  lemma CountIsNeverNegativeIff(kind: Kind)
    ensures (forall s :: Reachable(s) && s.kind == kind ==> s.count >= 0) <==> kind.indexed && kind.fifo
  {
    hide Reachable;
    if kind.indexed && kind.fifo {
      forall s | Reachable(s) && s.kind == kind ensures s.count >= 0 { IndexedFifoCountIsNeverNegative(s); }
    } else if kind.indexed {
      var s := IndexedCountCanBeNegative();
    } else {
      var s := UnindexedCountCanBeNegative(kind.fifo);
    }
  }

  // ---- the balance lost

  /** A run in which the balance is lost: the store is empty and the count says one, so a Pop meets a missing key. */
  lemma UnwoundPopLeavesAMissingKey() returns (s: State)
    ensures Reachable(s) && s.count == 1 && s.store == {} && !s.closed && !Balanced(s)
    ensures forall gone, hashed :: Enabled(s, Pop(1, true, gone, hashed)) ==> Next(s, Pop(1, true, gone, hashed)) == s
  {
    hide Reachable;
    StartIsReachable(Kind(true, true), 0, 2, [0]);
    s := Start(Kind(true, true), 0, 2, [0]);
    assert s.store == {0} && |{0}| == 1;
    s := Follow(s, Pop(1, true, {0}, {}));
    assert s.store == {};
  }
}
