/** Bounded admission of the in-memory backings. One step is one critical section of one goroutine, or one of
    Close's signals; a WithOnAdmit hook runs between two steps, holding a reservation. Caller code ends in one of
    three ways. Contents are the arrival numbers of the entries, oldest first; those below `end` came from Hydrate. */
module Admission {
  import opened Basics
  import opened Hydration

  datatype Outcome = Ok | Err | Unwind

  /** How a backing tells a restored entry: the slice and positional-tree queues by position, the heap and the
      keyed tree by arrival number. */
  datatype Discipline = ByPosition | BySeq

  datatype Pc =
    | Idle
    | Hooked(m: nat)                     // in the hook, the lock released, m reserved
    | WaitFull(m: nat, woken: bool)      // a producer of m items (NotFull: of one) parked on notFull
    | WaitEmpty(woken: bool)             // a consumer parked on notEmpty
    | Closing(empty: bool, full: bool)   // Close has unlocked and still owes these signals

  /** Four things only the proofs look at: uncharged is how many restored entries have left since the last Clear without
      the exemption being charged for them, ever how many have in all; unsignalled is whether a Del has unwound past its
      signal since notFull was last signalled, and unannounced whether a Push has since notEmpty was. */
  datatype State = State(disc: Discipline, maxSize: nat, contents: seq<nat>, next: nat, end: nat, hydrated: int,
                         inflight: int, closed: bool, ts: seq<Pc>, uncharged: nat, ever: nat, unsignalled: bool,
                         unannounced: bool)

  /** The caller code a step runs under the lock: the side effect, the Backup, and the Item's methods. If those unwind
      out of a Push, `landed` of its batch are in; only the keyed tree does not take them out again. */
  datatype Calls = Calls(side: Outcome, backup: Outcome, items: Outcome, landed: nat) {
    predicate AllOk() { side.Ok? && backup.Ok? && items.Ok? }
  }

  datatype Action =
    | Push(m: nat, hook: bool, calls: Calls)
    | HookDone(hooked: Outcome, calls: Calls)
    | Pop(n: nat, gone: set<nat>, calls: Calls)
    | Del(gone: set<nat>, calls: Calls)
    | Clear(calls: Calls)
    | NotEmpty
    | NotFull
    | Close(side: Outcome, backup: Outcome)
    | CloseSignal
    | Resume    // woken, by a signal or by its context: back to the top of its loop

  // ---- the steps

  function PcOf(s: State, t: nat): Pc
  {
    if t < |s.ts| then s.ts[t] else Idle
  }

  function MoveTo(s: State, t: nat, pc: Pc): State
  {
    if t < |s.ts| then s.(ts := s.ts[t := pc]) else s
  }

  function Used(s: State): int
  {
    |s.contents| - s.hydrated + s.inflight
  }

  /** What the bound is for: the entries present that were not restored, and the reservations. */
  function Admitted(s: State): int
  {
    |s.contents| - Below(s.contents, s.end) + s.inflight
  }

  predicate Admits(s: State, m: nat)
  {
    s.maxSize == 0 || Used(s) + m <= s.maxSize
  }

  function WokenFull(ts: seq<Pc>): seq<Pc>
  {
    seq(|ts|, i requires 0 <= i < |ts| => if ts[i].WaitFull? then ts[i].(woken := true) else ts[i])
  }

  function WokenEmpty(ts: seq<Pc>): seq<Pc>
  {
    seq(|ts|, i requires 0 <= i < |ts| => if ts[i].WaitEmpty? then ts[i].(woken := true) else ts[i])
  }

  /** HasWaiters counts a Wait from its registration until it returns, so it covers the woken ones too. */
  predicate HasFull(ts: seq<Pc>)
  {
    exists i :: 0 <= i < |ts| && ts[i].WaitFull?
  }

  predicate HasEmpty(ts: seq<Pc>)
  {
    exists i :: 0 <= i < |ts| && ts[i].WaitEmpty?
  }

  function SignalFull(s: State): State
  {
    (if HasFull(s.ts) then s.(ts := WokenFull(s.ts)) else s).(unsignalled := false)
  }

  function SignalEmpty(s: State): State
  {
    (if HasEmpty(s.ts) then s.(ts := WokenEmpty(s.ts)) else s).(unannounced := false)
  }

  /** How much of a batch of m stays when an Item method unwinds out of the insert. */
  function Landed(s: State, m: nat, calls: Calls): nat
  {
    if s.disc == ByPosition || !calls.side.Ok? || !calls.backup.Ok? || m == 0 then 0 else Min(m - 1, calls.landed)
  }

  /** A Push that does not come to its end: n of the batch stay, unannounced; an abandoned reservation is signalled. */
  function Abandon(s: State, n: nat, hook: bool): State
  {
    var s1 := s.(contents := Appended(s.contents, s.next, n), next := s.next + n,
                 unannounced := s.unannounced || (s.contents == [] && n > 0));
    if hook then SignalFull(s1) else s1
  }

  /** The end of Push, under the lock: the caller code, then the insert. */
  function Insert(s: State, m: nat, hook: bool, calls: Calls): State
  {
    if !calls.AllOk() then Abandon(s, Landed(s, m, calls), hook)
    else
      var s1 := s.(contents := Appended(s.contents, s.next, m), next := s.next + m);
      if s.contents == [] then SignalEmpty(s1) else s1
  }

  /** The end of Pop and Del, under the lock. */
  function Remove(s: State, gone: set<nat>, hydrated: int): State
  {
    SignalFull(s.(contents := Kept(s.contents, gone), hydrated := hydrated))
  }

  /** The end of Del when an Item method unwinds out of it after entries have been removed: out of the heap's rebuild,
      or out of the keyed tree's loop, gone then being what it had reached. The exemption is not charged and nobody
      signalled. */
  function DelUnwound(s: State, gone: set<nat>): State
  {
    var missed := Below(Picked(s.contents, gone), s.end);
    s.(contents := Kept(s.contents, gone), uncharged := s.uncharged + missed, ever := s.ever + missed,
       unsignalled := true)
  }

  function AfterPop(s: State, k: nat, gone: set<nat>): int
  {
    if s.disc == ByPosition then DropCount(s.hydrated, Min(k, s.hydrated))
    else DropSeqs(s.hydrated, Picked(s.contents, gone), s.end)
  }

  function AfterDel(s: State, gone: set<nat>): int
  {
    if s.disc == ByPosition then DropCount(s.hydrated, GoneBelow(|s.contents|, gone, s.hydrated))
    else DropSeqs(s.hydrated, Picked(s.contents, gone), s.end)
  }

  /** Which step t may take. A queue without priorities pops the oldest entries, one with them any. */
  predicate Enabled(s: State, t: nat, a: Action)
  {
    && t < |s.ts|
    && match a
       case HookDone(_, _) => s.ts[t].Hooked?
       case CloseSignal => s.ts[t].Closing?
       case Resume => s.ts[t].WaitFull? || s.ts[t].WaitEmpty?
       case Pop(n, gone, _) =>
         && s.ts[t] == Idle
         && (forall i :: i in gone ==> i < |s.contents|)
         && |Picked(s.contents, gone)| == Min(n, |s.contents|)
         && (s.disc == ByPosition ==> forall i: nat :: i < |s.contents| ==> (i in gone <==> i < n))
       case Del(gone, _) => s.ts[t] == Idle && forall i :: i in gone ==> i < |s.contents|
       case _ => s.ts[t] == Idle
  }

  function Next(s: State, t: nat, a: Action): State
    requires Enabled(s, t, a)
  {
    match a
    case Push(m, hook, calls) =>
      if s.closed then s                                  // ErrClosed
      else if s.maxSize > 0 && m > s.maxSize then s       // ErrBatchTooLarge
      else if !Admits(s, m) then MoveTo(s, t, WaitFull(m, false))
      else if hook then MoveTo(s.(inflight := s.inflight + m), t, Hooked(m))
      else Insert(s, m, false, calls)
    case HookDone(hooked, calls) =>
      var m := s.ts[t].m;
      var s1 := MoveTo(s.(inflight := s.inflight - m), t, Idle);
      if !hooked.Ok? || s.closed then SignalFull(s1) else Insert(s1, m, true, calls)
    case Pop(n, gone, calls) =>
      if s.closed then s
      else if s.contents == [] then MoveTo(s, t, WaitEmpty(false))
      else if !calls.AllOk() then s                       // nothing removed
      else Remove(s, gone, AfterPop(s, Min(n, |s.contents|), gone))
    case Del(gone, calls) =>
      if s.closed || gone == {} || !calls.side.Ok? || !calls.backup.Ok? then s
      else if calls.items.Ok? then Remove(s, gone, AfterDel(s, gone))
      else if s.disc == ByPosition then s                 // out of Equal, before anything is removed
      else DelUnwound(s, gone)
    case Clear(calls) =>
      if s.closed || s.contents == [] || !calls.side.Ok? || !calls.backup.Ok? then s
      else SignalFull(s.(contents := [], hydrated := 0, uncharged := 0))
    case NotEmpty =>
      if s.closed || s.contents != [] then s else MoveTo(s, t, WaitEmpty(false))
    case NotFull =>
      if s.closed || s.maxSize == 0 || Used(s) < s.maxSize then s else MoveTo(s, t, WaitFull(1, false))
    case Close(side, _) =>
      if s.closed || !side.Ok? then s else MoveTo(s.(closed := true), t, Closing(true, true))
    case CloseSignal =>
      if s.ts[t].empty then SignalEmpty(MoveTo(s, t, Closing(false, s.ts[t].full)))
      else SignalFull(MoveTo(s, t, Idle))
    case Resume => MoveTo(s, t, Idle)
  }

  /** The Dels that unwind after having removed something. */
  predicate DelUnwinds(s: State, a: Action)
  {
    && a.Del? && !s.closed && a.gone != {} && a.calls.side.Ok? && a.calls.backup.Ok?
    && !a.calls.items.Ok? && s.disc == BySeq
  }

  /** The Pushes whose insert comes to run. */
  predicate Inserts(s: State, t: nat, a: Action)
    requires t < |s.ts|
  {
    match a
    case Push(m, hook, _) => !s.closed && (s.maxSize > 0 ==> m <= s.maxSize) && Admits(s, m) && !hook
    case HookDone(hooked, _) => s.ts[t].Hooked? && !s.closed && hooked.Ok?
    case _ => false
  }

  /** The Pushes that unwind after having put something into an empty queue. */
  predicate PushUnwinds(s: State, t: nat, a: Action)
    requires t < |s.ts|
  {
    && Inserts(s, t, a) && s.contents == [] && !a.calls.items.Ok?
    && Landed(s, if a.Push? then a.m else s.ts[t].m, a.calls) > 0
  }

  // ---- the invariant

  function Reserved(pc: Pc): nat
  {
    if pc.Hooked? then pc.m else 0
  }

  function Reservations(ts: seq<Pc>): nat
  {
    if ts == [] then 0 else Reserved(ts[0]) + Reservations(ts[1..])
  }

  ghost predicate OwesEmpty(s: State)
  {
    exists t :: 0 <= t < |s.ts| && s.ts[t].Closing? && s.ts[t].empty
  }

  ghost predicate OwesFull(s: State)
  {
    exists t :: 0 <= t < |s.ts| && s.ts[t].Closing? && s.ts[t].full
  }

  /** A producer sleeps only while its batch does not fit, or a Close owes it its signal, or a Del has unwound past. */
  ghost predicate ProducerOk(s: State, t: nat)
  {
    t < |s.ts| && s.ts[t].WaitFull? && !s.ts[t].woken ==>
      && 0 < s.maxSize && s.ts[t].m <= s.maxSize
      && (if s.closed then OwesFull(s) else !Admits(s, s.ts[t].m) || s.unsignalled)
  }

  /** A consumer sleeps only while there is nothing, or a Close owes it its signal, or a Push has unwound past it. */
  ghost predicate ConsumerOk(s: State, t: nat)
  {
    t < |s.ts| && s.ts[t].WaitEmpty? && !s.ts[t].woken ==>
      if s.closed then OwesEmpty(s) else s.contents == [] || s.unannounced
  }

  ghost predicate CloserOk(s: State, t: nat)
  {
    t < |s.ts| && s.ts[t].Closing? ==> s.closed && s.ts[t].full
  }

  /** Nobody sleeps through what it waits for. */
  ghost predicate WaiterOk(s: State, t: nat)
  {
    ProducerOk(s, t) && ConsumerOk(s, t) && CloserOk(s, t)
  }

  ghost predicate Numbered(s: State)
  {
    && Ascending(s.contents) && (forall x :: x in s.contents ==> x < s.next) && s.end <= s.next
    && s.hydrated == Below(s.contents, s.end) + s.uncharged && (s.disc == ByPosition ==> s.uncharged == 0)
  }

  /** The accounts: the exemption is the restored entries still present and those not charged for, the reservations are
      those of the hooks under way, and the bound is exceeded by no more than was ever left uncharged. */
  ghost predicate Accounts(s: State)
  {
    && Numbered(s)
    && s.inflight == Reservations(s.ts)
    && s.uncharged <= s.ever
    && (s.maxSize > 0 ==> Admitted(s) <= s.maxSize + s.ever)
  }

  ghost predicate Inv(s: State)
  {
    Accounts(s) && forall t :: WaiterOk(s, t)
  }

  // ---- proofs

  lemma {:induction false} ReservationsUpdate(ts: seq<Pc>, t: nat, pc: Pc)
    requires t < |ts|
    ensures Reservations(ts[t := pc]) == Reservations(ts) - Reserved(ts[t]) + Reserved(pc)
    ensures Reserved(ts[t]) <= Reservations(ts)
  {
    if t > 0 {
      ReservationsUpdate(ts[1..], t - 1, pc);
      assert ts[t := pc][1..] == ts[1..][t - 1 := pc];
    } else {
      assert ts[t := pc][1..] == ts[1..];
    }
  }

  lemma {:induction false} ReservationsSame(ts: seq<Pc>, us: seq<Pc>)
    requires |ts| == |us| && forall i :: 0 <= i < |ts| ==> Reserved(ts[i]) == Reserved(us[i])
    ensures Reservations(ts) == Reservations(us)
  {
    if ts != [] {
      ReservationsSame(ts[1..], us[1..]);
    }
  }

  lemma SignalsKeepReservations(ts: seq<Pc>)
    ensures Reservations(WokenFull(ts)) == Reservations(ts) == Reservations(WokenEmpty(ts))
  {
    ReservationsSame(ts, WokenFull(ts));
    ReservationsSame(ts, WokenEmpty(ts));
  }

  // Pop and Del keep the accounts.

  lemma PopIsExact(s: State, t: nat, n: nat, gone: set<nat>, calls: Calls)
    requires Accounts(s) && Enabled(s, t, Pop(n, gone, calls))
    ensures AfterPop(s, Min(n, |s.contents|), gone) == Below(Kept(s.contents, gone), s.end) + s.uncharged
  {
    KeptCounts(s.contents, gone, s.end);
    if s.disc == ByPosition {
      forall i | 0 <= i < |s.contents| ensures s.contents[i] < s.end <==> i < s.hydrated {
        RestoredComeFirst(s.contents, s.end, i);
      }
      GoneBelowIsRemoved(s.contents, gone, s.end, s.hydrated);
      PrefixGone(|s.contents|, Min(n, |s.contents|), gone, s.hydrated);
    } else {
      DropSeqsIsExact(s.hydrated, Picked(s.contents, gone), s.end);
    }
  }

  lemma DelIsExact(s: State, gone: set<nat>)
    requires Accounts(s)
    ensures AfterDel(s, gone) == Below(Kept(s.contents, gone), s.end) + s.uncharged
  {
    KeptCounts(s.contents, gone, s.end);
    if s.disc == ByPosition {
      forall i | 0 <= i < |s.contents| ensures s.contents[i] < s.end <==> i < s.hydrated {
        RestoredComeFirst(s.contents, s.end, i);
      }
      GoneBelowIsRemoved(s.contents, gone, s.end, s.hydrated);
    } else {
      DropSeqsIsExact(s.hydrated, Picked(s.contents, gone), s.end);
    }
  }

  /** Removing never uses more room. */
  lemma RemoveKeepsAccounts(s: State, gone: set<nat>, hydrated: int)
    requires Accounts(s) && hydrated == Below(Kept(s.contents, gone), s.end) + s.uncharged
    ensures Accounts(Remove(s, gone, hydrated)) && Admitted(Remove(s, gone, hydrated)) <= Admitted(s)
  {
    hide Kept, Picked, Below, Ascending, SignalFull;
    KeptCounts(s.contents, gone, s.end);
    KeptAscends(s.contents, gone);
    SignalKeepsAccounts(s.(contents := Kept(s.contents, gone), hydrated := hydrated));
    SignalEffect(s.(contents := Kept(s.contents, gone), hydrated := hydrated));
  }

  lemma UnwoundDelKeepsAccounts(s: State, gone: set<nat>)
    requires Accounts(s)
    ensures s.disc == BySeq ==> Accounts(DelUnwound(s, gone))
    ensures Used(DelUnwound(s, gone)) == Used(s) - |Picked(s.contents, gone)|
  {
    KeptCounts(s.contents, gone, s.end);
    KeptAscends(s.contents, gone);
  }

  /** m more stay within the bound, or within what was ever left uncharged above it. */
  predicate Fits(s: State, m: nat)
  {
    s.maxSize > 0 ==> Admitted(s) + m <= s.maxSize + s.ever
  }

  lemma AdmittedFits(s: State, m: nat)
    requires Accounts(s) && Admits(s, m)
    ensures Fits(s, m)
  {
    hide Below;
  }

  lemma InsertKeepsAccounts(s: State, m: nat, hook: bool, calls: Calls)
    requires Accounts(s) && Fits(s, m)
    ensures Accounts(Insert(s, m, hook, calls))
  {
    hide Accounts, Numbered, Reservations, Appended, SignalFull, SignalEmpty;
    var n := Landed(s, m, calls);
    assert Fits(s, n);
    var missed := s.unannounced || (s.contents == [] && n > 0);
    ArrivalsKeepAccounts(s, n, missed);
    ArrivalsKeepAccounts(s, m, s.unannounced);
    SignalKeepsAccounts(s.(contents := Appended(s.contents, s.next, n), next := s.next + n, unannounced := missed));
    SignalKeepsAccounts(s.(contents := Appended(s.contents, s.next, m), next := s.next + m));
  }

  lemma ArrivalsKeepAccounts(s: State, n: nat, missed: bool)
    requires Accounts(s) && Fits(s, n)
    ensures Accounts(s.(contents := Appended(s.contents, s.next, n), next := s.next + n, unannounced := missed))
  {
    hide Ascending, Below;
    Arrivals(s.contents, s.next, n, s.end);
  }

  /** Every step keeps the accounts. */
  lemma AccountsKept(s: State, t: nat, a: Action)
    requires Accounts(s) && Enabled(s, t, a)
    ensures Accounts(Next(s, t, a))
  {
    hide Remove, Insert, Abandon, Reservations, SignalEmpty, DelUnwound, Admitted, Numbered, Fits, AfterPop, AfterDel,
      Kept, Picked;
    match a
    case Push(m, hook, calls) =>
      if Admits(s, m) {
        AdmittedFits(s, m);
        InsertKeepsAccounts(s, m, false, calls);
        OwnStepKeepsAccounts(s, t, Hooked(m), m);
      }
      OwnStepKeepsAccounts(s, t, WaitFull(m, false), 0);
    case HookDone(hooked, calls) => HookKeepsAccounts(s, t, hooked, calls);
    case Pop(n, gone, calls) =>
      PopIsExact(s, t, n, gone, calls);
      RemoveKeepsAccounts(s, gone, AfterPop(s, Min(n, |s.contents|), gone));
      OwnStepKeepsAccounts(s, t, WaitEmpty(false), 0);
    case Del(gone, calls) =>
      DelIsExact(s, gone);
      RemoveKeepsAccounts(s, gone, AfterDel(s, gone));
      UnwoundDelKeepsAccounts(s, gone);
    case CloseSignal =>
      OwnStepKeepsAccounts(s, t, Closing(false, s.ts[t].full), 0);
      OwnStepKeepsAccounts(s, t, Idle, 0);
      SignalKeepsAccounts(MoveTo(s, t, Closing(false, s.ts[t].full)));
      SignalKeepsAccounts(MoveTo(s, t, Idle));
    case Close(_, _) =>
      SameContents(s, s.(closed := true));
      OwnStepKeepsAccounts(s.(closed := true), t, Closing(true, true), 0);
    case NotEmpty => OwnStepKeepsAccounts(s, t, WaitEmpty(false), 0);
    case NotFull => OwnStepKeepsAccounts(s, t, WaitFull(1, false), 0);
    case Clear(calls) => ClearKeepsAccounts(s, t, calls);
    case Resume => OwnStepKeepsAccounts(s, t, Idle, 0);
  }

  lemma HookKeepsAccounts(s: State, t: nat, hooked: Outcome, calls: Calls)
    requires Accounts(s) && Enabled(s, t, HookDone(hooked, calls))
    ensures Accounts(Next(s, t, HookDone(hooked, calls)))
  {
    hide Insert, Reservations, SignalFull, Numbered, Below;
    var m: int := s.ts[t].m;
    OwnStepKeepsAccounts(s, t, Idle, -m);
    var s1 := MoveTo(s.(inflight := s.inflight - m), t, Idle);
    InsertKeepsAccounts(s1, m, true, calls);
    SignalKeepsAccounts(s1);
  }

  lemma SameContents(s: State, u: State)
    requires Numbered(s) && u.contents == s.contents && u.next == s.next && u.end == s.end && u.hydrated == s.hydrated
    requires u.uncharged == s.uncharged && u.disc == s.disc
    ensures Numbered(u) && Admitted(u) - u.inflight == Admitted(s) - s.inflight
  {
  }

  /** A goroutine that only changes its own place and its own reservation, by as much. */
  lemma OwnStepKeepsAccounts(s: State, t: nat, pc: Pc, n: int)
    requires Accounts(s) && t < |s.ts| && Reserved(pc) == Reserved(s.ts[t]) + n
    requires n > 0 ==> Fits(s, n)
    ensures Accounts(MoveTo(s.(inflight := s.inflight + n), t, pc))
  {
    hide Numbered, Reservations, Below;
    ReservationsUpdate(s.ts, t, pc);
    SameContents(s, MoveTo(s.(inflight := s.inflight + n), t, pc));
  }

  lemma SignalKeepsAccounts(s: State)
    requires Accounts(s)
    ensures Accounts(SignalFull(s)) && Accounts(SignalEmpty(s))
  {
    hide Numbered, Below, Reservations;
    SignalsKeepReservations(s.ts);
    SameContents(s, SignalFull(s));
    SameContents(s, SignalEmpty(s));
  }

  lemma ClearKeepsAccounts(s: State, t: nat, calls: Calls)
    requires Accounts(s) && Enabled(s, t, Clear(calls))
    ensures Accounts(Next(s, t, Clear(calls)))
    ensures Admitted(Next(s, t, Clear(calls))) <= Admitted(s)
  {
    SignalsKeepReservations(s.ts);
  }

  // Nobody sleeps through what it waits for.

  /** Everyone is where they were, but that some have been woken. */
  ghost predicate OnlyWoken(ts: seq<Pc>, us: seq<Pc>)
  {
    && |us| == |ts|
    && forall i :: 0 <= i < |ts| ==>
         us[i] == ts[i] || ((ts[i].WaitFull? || ts[i].WaitEmpty?) && us[i] == ts[i].(woken := true))
  }

  ghost predicate AllFullWoken(ts: seq<Pc>)
  {
    forall i :: 0 <= i < |ts| && ts[i].WaitFull? ==> ts[i].woken
  }

  ghost predicate AllEmptyWoken(ts: seq<Pc>)
  {
    forall i :: 0 <= i < |ts| && ts[i].WaitEmpty? ==> ts[i].woken
  }

  ghost predicate EmptySleepOn(ts: seq<Pc>, us: seq<Pc>)
  {
    |us| == |ts| && forall i :: 0 <= i < |ts| && ts[i].WaitEmpty? ==> us[i] == ts[i]
  }

  lemma SignalFullEffect(s: State)
    ensures OnlyWoken(s.ts, SignalFull(s).ts) && AllFullWoken(SignalFull(s).ts) && EmptySleepOn(s.ts, SignalFull(s).ts)
    ensures SignalFull(s) == s.(ts := SignalFull(s).ts, unsignalled := false)
  {
  }

  lemma SignalEmptyEffect(s: State)
    ensures OnlyWoken(s.ts, SignalEmpty(s).ts) && AllEmptyWoken(SignalEmpty(s).ts)
    ensures SignalEmpty(s) == s.(ts := SignalEmpty(s).ts, unannounced := false)
  {
  }

  lemma SignalEffect(s: State)
    ensures OnlyWoken(s.ts, SignalFull(s).ts) && AllFullWoken(SignalFull(s).ts) && EmptySleepOn(s.ts, SignalFull(s).ts)
    ensures OnlyWoken(s.ts, SignalEmpty(s).ts) && AllEmptyWoken(SignalEmpty(s).ts)
    ensures SignalFull(s) == s.(ts := SignalFull(s).ts, unsignalled := false)
    ensures SignalEmpty(s) == s.(ts := SignalEmpty(s).ts, unannounced := false)
  {
    hide *;
    SignalFullEffect(s);
    SignalEmptyEffect(s);
  }

  /** What an insert does to those who wait. */
  lemma InsertEffect(s: State, m: nat, hook: bool, calls: Calls)
    ensures var s' := Insert(s, m, hook, calls);
      && OnlyWoken(s.ts, s'.ts) && |s'.contents| >= |s.contents|
      && (if hook && !calls.AllOk() then AllFullWoken(s'.ts) else s'.unsignalled == s.unsignalled)
      && (hook && !calls.AllOk() ==> !s'.unsignalled)
      && (calls.AllOk() && s.contents == [] ==> AllEmptyWoken(s'.ts)) && (!calls.AllOk() ==> EmptySleepOn(s.ts, s'.ts))
      && (!(calls.AllOk() && s.contents == []) ==> (s.unannounced ==> s'.unannounced))
      && (s.contents == [] && s'.contents != [] && !calls.AllOk() ==> s'.unannounced && Landed(s, m, calls) > 0)
      && (calls.AllOk() ==> |s'.contents| == |s.contents| + m)
      && s' == s.(ts := s'.ts, contents := s'.contents, next := s'.next, unsignalled := s'.unsignalled,
                  unannounced := s'.unannounced)
  {
    hide OnlyWoken, AllFullWoken, AllEmptyWoken, EmptySleepOn, SignalFull, SignalEmpty;
    var n := Landed(s, m, calls);
    assert Appended(s.contents, s.next, 0) == s.contents;
    SignalEffect(s.(contents := Appended(s.contents, s.next, n), next := s.next + n,
                    unannounced := s.unannounced || (s.contents == [] && n > 0)));
    SignalEffect(s.(contents := Appended(s.contents, s.next, m), next := s.next + m));
    NobodyWoken(s.ts);
  }

  /** The state in which a hook's insert runs. */
  function Back(s: State, t: nat): State
    requires t < |s.ts| && s.ts[t].Hooked?
  {
    MoveTo(s.(inflight := s.inflight - s.ts[t].m), t, Idle)
  }

  lemma PushEffect(s: State, t: nat, a: Action)
    requires Enabled(s, t, a)
    ensures a.Push? ==> var s' := Insert(s, a.m, false, a.calls);
      && OnlyWoken(s.ts, s'.ts) && |s'.contents| >= |s.contents| && s'.unsignalled == s.unsignalled
      && (a.calls.AllOk() && s.contents == [] ==> AllEmptyWoken(s'.ts))
      && (!a.calls.AllOk() ==> EmptySleepOn(s.ts, s'.ts))
      && (!(a.calls.AllOk() && s.contents == []) ==> (s.unannounced ==> s'.unannounced))
      && (s.contents == [] && s'.contents != [] && !a.calls.AllOk() ==>
            s'.unannounced && Landed(s, a.m, a.calls) > 0)
      && s' == s.(ts := s'.ts, contents := s'.contents, next := s'.next, unannounced := s'.unannounced)
    ensures a.HookDone? ==> var b := Back(s, t); var s' := Insert(b, s.ts[t].m, true, a.calls);
      && OnlyWoken(b.ts, s'.ts) && |s'.contents| >= |s.contents|
      && (if !a.calls.AllOk() then AllFullWoken(s'.ts) && EmptySleepOn(b.ts, s'.ts) && !s'.unsignalled
          else s'.unsignalled == s.unsignalled && |s'.contents| == |s.contents| + s.ts[t].m)
      && (a.calls.AllOk() && s.contents == [] ==> AllEmptyWoken(s'.ts))
      && (!(a.calls.AllOk() && s.contents == []) ==> (s.unannounced ==> s'.unannounced))
      && (s.contents == [] && s'.contents != [] && !a.calls.AllOk() ==>
            s'.unannounced && Landed(s, s.ts[t].m, a.calls) > 0)
      && s' == b.(ts := s'.ts, contents := s'.contents, next := s'.next, unsignalled := s'.unsignalled,
                  unannounced := s'.unannounced)
    ensures a.HookDone? ==>
      OnlyWoken(Back(s, t).ts, SignalFull(Back(s, t)).ts) && AllFullWoken(SignalFull(Back(s, t)).ts)
    ensures a.HookDone? ==> SignalFull(Back(s, t)) == Back(s, t).(ts := SignalFull(Back(s, t)).ts, unsignalled := false)
  {
    hide Insert, OnlyWoken, AllFullWoken, AllEmptyWoken, EmptySleepOn, SignalFull;
    if a.Push? {
      InsertEffect(s, a.m, false, a.calls);
    } else if a.HookDone? {
      InsertEffect(Back(s, t), s.ts[t].m, true, a.calls);
      SignalEffect(Back(s, t));
    }
  }

  lemma NobodyWoken(ts: seq<Pc>)
    ensures OnlyWoken(ts, ts) && EmptySleepOn(ts, ts)
  {
  }

  /** The others' places, but that some are woken; and t's, if it has to do with Close. */
  ghost predicate MovesOne(s: State, t: nat, a: Action, s': State)
  {
    && t < |s.ts| == |s'.ts| && OnlyWoken(s.ts[t := s'.ts[t]], s'.ts) && (s.closed ==> s'.closed)
    && (s'.ts[t].Closing? ==> if a.Close? then s'.closed
          else a.CloseSignal? && s.ts[t].Closing? && s.ts[t].empty)
    && (a.Close? && s'.ts[t].Closing? ==> s'.ts[t].full)
    && (a.CloseSignal? && s.ts[t].Closing? && s.ts[t].empty ==> s'.ts[t] == Closing(false, s.ts[t].full))
  }

  lemma PushMovesOne(s: State, t: nat, a: Action)
    requires Enabled(s, t, a) && (a.Push? || a.HookDone?)
    ensures MovesOne(s, t, a, Next(s, t, a))
  {
    hide Insert, Landed, AllFullWoken, AllEmptyWoken, EmptySleepOn, SignalFull, Admits, Used;
    PushEffect(s, t, a);
  }

  /** What a Pop, a Del or a Clear does to those who wait. */
  lemma RemovalEffect(s: State, t: nat, a: Action)
    requires Enabled(s, t, a) && (a.Pop? || a.Del? || a.Clear?)
    ensures var s' := Next(s, t, a);
      && s'.maxSize == s.maxSize && s'.closed == s.closed && s'.unannounced == s.unannounced
      && (|| s'.ts == s.ts || s'.ts == SignalFull(s).ts
          || (!s.closed && s.contents == [] && s'.ts == s.ts[t := WaitEmpty(false)]))
      && (s.contents == [] ==> s'.contents == [])
      && (Used(s') < Used(s) && !DelUnwinds(s, a) ==> s'.ts == SignalFull(s).ts)
  {
    hide Picked, Below, AfterPop, AfterDel, HasFull, WokenFull;
    KeptOfNothing(if a.Clear? then {} else a.gone);
  }

  lemma RemovalMovesOne(s: State, t: nat, a: Action)
    requires Enabled(s, t, a) && (a.Pop? || a.Del? || a.Clear?)
    ensures MovesOne(s, t, a, Next(s, t, a))
  {
    hide Next, Kept, Picked, AllFullWoken, EmptySleepOn, SignalFull, Used;
    RemovalEffect(s, t, a);
    SignalFullEffect(s);
  }

  lemma RestMovesOne(s: State, t: nat, a: Action)
    requires Enabled(s, t, a) && (a.NotEmpty? || a.NotFull? || a.Close? || a.CloseSignal? || a.Resume?)
    ensures MovesOne(s, t, a, Next(s, t, a))
  {
    hide AllFullWoken, AllEmptyWoken, EmptySleepOn, SignalFull, SignalEmpty, Used;
    if a.CloseSignal? {
      SignalEmptyEffect(MoveTo(s, t, Closing(false, s.ts[t].full)));
      SignalFullEffect(MoveTo(s, t, Idle));
    }
  }

  lemma StepMovesOne(s: State, t: nat, a: Action)
    requires Enabled(s, t, a)
    ensures MovesOne(s, t, a, Next(s, t, a))
  {
    hide *;
    if a.Push? || a.HookDone? {
      PushMovesOne(s, t, a);
    } else if a.Pop? || a.Del? || a.Clear? {
      RemovalMovesOne(s, t, a);
    } else {
      RestMovesOne(s, t, a);
    }
  }

  /** A Close that owes signals goes on owing them until it gives them. */
  lemma ClosersStay(s: State, t: nat, a: Action, u: nat)
    requires Enabled(s, t, a) && u < |s.ts| && s.ts[u].Closing?
    ensures u < |Next(s, t, a).ts|
    ensures !a.CloseSignal? || u != t ==> Next(s, t, a).ts[u] == s.ts[u]
    ensures a.CloseSignal? && u == t && s.ts[u].empty ==> Next(s, t, a).ts[u] == Closing(false, s.ts[u].full)
  {
    hide Next;
    StepMovesOne(s, t, a);
  }

  lemma CloserKept(s: State, t: nat, a: Action, u: nat)
    requires CloserOk(s, u) && CloserOk(s, t) && Enabled(s, t, a)
    ensures CloserOk(Next(s, t, a), u)
  {
    hide Next;
    StepMovesOne(s, t, a);
  }

  lemma OwesKept(s: State, t: nat, a: Action)
    requires Enabled(s, t, a)
    requires a.CloseSignal? ==> s.ts[t].full
    ensures OwesEmpty(s) && !(a.CloseSignal? && s.ts[t].empty) ==> OwesEmpty(Next(s, t, a))
    ensures OwesFull(s) && !(a.CloseSignal? && !s.ts[t].empty) ==> OwesFull(Next(s, t, a))
  {
    hide Next;
    if OwesEmpty(s) && !(a.CloseSignal? && s.ts[t].empty) {
      var u :| 0 <= u < |s.ts| && s.ts[u].Closing? && s.ts[u].empty;
      ClosersStay(s, t, a, u);
    }
    if OwesFull(s) && !(a.CloseSignal? && !s.ts[t].empty) {
      var u :| 0 <= u < |s.ts| && s.ts[u].Closing? && s.ts[u].full;
      ClosersStay(s, t, a, u);
    }
  }

  lemma CloseOwes(s: State, t: nat, side: Outcome, backup: Outcome)
    requires Enabled(s, t, Close(side, backup)) && !s.closed && side.Ok?
    ensures OwesEmpty(Next(s, t, Close(side, backup))) && OwesFull(Next(s, t, Close(side, backup)))
  {
    assert Next(s, t, Close(side, backup)).ts[t] == Closing(true, true);
  }

  /** Room never appears without a signal: if a step leaves more room than before, no producer is left asleep, unless
      the step is a Del that unwound. */
  lemma RoomIsSignalled(s: State, t: nat, a: Action, u: nat)
    requires Inv(s) && Enabled(s, t, a) && u < |s.ts| && Used(Next(s, t, a)) < Used(s)
    ensures PcOf(Next(s, t, a), u).WaitFull? && !DelUnwinds(s, a) ==> PcOf(Next(s, t, a), u).woken
  {
    hide *;
    if a.Push? || a.HookDone? {
      PushSignalsRoom(s, t, a, u);
    } else if a.Pop? || a.Del? || a.Clear? {
      if !DelUnwinds(s, a) { RemovalSignalsRoom(s, t, a, u); }
    } else {
      RestFreesNothing(s, t, a);
    }
  }

  lemma PushSignalsRoom(s: State, t: nat, a: Action, u: nat)
    requires Enabled(s, t, a) && (a.Push? || a.HookDone?) && u < |s.ts| && Used(Next(s, t, a)) < Used(s)
    ensures PcOf(Next(s, t, a), u).WaitFull? ==> PcOf(Next(s, t, a), u).woken
  {
    hide Insert, Landed, AllEmptyWoken, EmptySleepOn, SignalFull;
    PushEffect(s, t, a);
  }

  lemma RemovalSignalsRoom(s: State, t: nat, a: Action, u: nat)
    requires Enabled(s, t, a) && (a.Pop? || a.Del? || a.Clear?) && !DelUnwinds(s, a) && u < |s.ts|
    requires Used(Next(s, t, a)) < Used(s)
    ensures PcOf(Next(s, t, a), u).WaitFull? ==> PcOf(Next(s, t, a), u).woken
  {
    hide Next, Kept, Picked, OnlyWoken, EmptySleepOn, SignalFull, Used;
    RemovalEffect(s, t, a);
    SignalFullEffect(s);
  }

  lemma RestFreesNothing(s: State, t: nat, a: Action)
    requires Enabled(s, t, a) && (a.NotEmpty? || a.NotFull? || a.Close? || a.CloseSignal? || a.Resume?)
    ensures var s' := Next(s, t, a);
      Used(s') == Used(s) && s'.contents == s.contents
  {
    hide HasFull, HasEmpty, WokenFull, WokenEmpty;
  }

  /** Nor do items come to an empty queue without a signal, unless the step is a Push that unwound. */
  lemma ArrivalsAreSignalled(s: State, t: nat, a: Action, u: nat)
    requires Enabled(s, t, a) && u < |s.ts| && s.contents == [] && Next(s, t, a).contents != []
    ensures PcOf(Next(s, t, a), u).WaitEmpty? && !PushUnwinds(s, t, a) ==> PcOf(Next(s, t, a), u).woken
    ensures PushUnwinds(s, t, a) ==> Next(s, t, a).unannounced
  {
    hide *;
    if a.Push? || a.HookDone? {
      PushAnnounces(s, t, a, u);
    } else if a.Pop? || a.Del? || a.Clear? {
      RemovalEffect(s, t, a);
    } else {
      RestFreesNothing(s, t, a);
    }
  }

  lemma PushAnnounces(s: State, t: nat, a: Action, u: nat)
    requires Enabled(s, t, a) && (a.Push? || a.HookDone?)
    requires u < |s.ts| && s.contents == [] && Next(s, t, a).contents != []
    ensures PcOf(Next(s, t, a), u).WaitEmpty? && !PushUnwinds(s, t, a) ==> PcOf(Next(s, t, a), u).woken
    ensures PushUnwinds(s, t, a) ==> Next(s, t, a).unannounced
  {
    hide Insert, AllFullWoken, OnlyWoken, EmptySleepOn, SignalFull, Used;
    PushEffect(s, t, a);
  }

  lemma ProducerKept(s: State, t: nat, a: Action, u: nat)
    requires Inv(s) && Enabled(s, t, a)
    ensures ProducerOk(Next(s, t, a), u)
  {
    hide Next, Accounts, ProducerOk;
    if DelUnwinds(s, a) { ProducerKeptByUnwoundDel(s, t, a, u); }
    else if a.Close? || a.CloseSignal? { ProducerKeptByClose(s, t, a, u); }
    else if a.Pop? || a.Del? || a.Clear? { ProducerKeptByRemoval(s, t, a, u); }
    else if a.Push? || a.HookDone? { ProducerKeptByPush(s, t, a, u); }
    else { ProducerKeptByRest(s, t, a, u); }
  }

  lemma ProducerKeptByUnwoundDel(s: State, t: nat, a: Action, u: nat)
    requires Inv(s) && Enabled(s, t, a) && DelUnwinds(s, a)
    ensures ProducerOk(Next(s, t, a), u)
  {
    hide Accounts, DelUnwound;
    assert WaiterOk(s, u);
    UnwoundDelIsUnsignalled(s, a.gone);
  }

  lemma ProducerKeptByClose(s: State, t: nat, a: Action, u: nat)
    requires Inv(s) && Enabled(s, t, a) && (a.Close? || a.CloseSignal?)
    ensures ProducerOk(Next(s, t, a), u)
  {
    hide Accounts, OwesEmpty, OwesFull, Below, ConsumerOk;
    assert WaiterOk(s, u) && WaiterOk(s, t);
    OwesKept(s, t, a);
    if a.Close? && !s.closed && a.side.Ok? { CloseOwes(s, t, a.side, a.backup); }
  }

  /** A removal wakes every producer there is. */
  lemma ProducerKeptByRemoval(s: State, t: nat, a: Action, u: nat)
    requires Inv(s) && Enabled(s, t, a) && (a.Pop? || a.Del? || a.Clear?) && !DelUnwinds(s, a)
    ensures ProducerOk(Next(s, t, a), u)
  {
    hide Picked, Kept, AfterPop, AfterDel, OwesEmpty, OwesFull, Accounts, ConsumerOk, Below;
    assert WaiterOk(s, u);
    OwesKept(s, t, a);
  }

  lemma ProducerKeptByPush(s: State, t: nat, a: Action, u: nat)
    requires Inv(s) && Enabled(s, t, a)
    requires a.Push? || a.HookDone?
    ensures ProducerOk(Next(s, t, a), u)
  {
    hide OwesEmpty, OwesFull, Accounts, ConsumerOk, Below, Picked, Kept, Insert, AllEmptyWoken, Landed;
    assert WaiterOk(s, u);
    OwesKept(s, t, a);
    PushEffect(s, t, a);
    if u < |s.ts| && Used(Next(s, t, a)) < Used(s) { RoomIsSignalled(s, t, a, u); }
  }

  lemma ProducerKeptByRest(s: State, t: nat, a: Action, u: nat)
    requires Inv(s) && Enabled(s, t, a)
    requires a.NotEmpty? || a.NotFull? || a.Resume?
    ensures ProducerOk(Next(s, t, a), u)
  {
    hide OwesEmpty, OwesFull, Accounts, ConsumerOk, Below, Picked, Kept;
    assert WaiterOk(s, u);
    OwesKept(s, t, a);
  }

  lemma UnwoundDelIsUnsignalled(s: State, gone: set<nat>)
    ensures var s' := DelUnwound(s, gone);
      s'.unsignalled && s'.ts == s.ts && s'.maxSize == s.maxSize && s'.closed == s.closed
  {
  }

  lemma ConsumerKept(s: State, t: nat, a: Action, u: nat)
    requires Inv(s) && Enabled(s, t, a)
    ensures ConsumerOk(Next(s, t, a), u)
  {
    hide Next, Enabled, Accounts, ConsumerOk, ProducerOk, CloserOk;
    assert WaiterOk(s, u) && WaiterOk(s, t);
    if a.Close? || a.CloseSignal? {
      ConsumerKeptByClose(s, t, a, u);
    } else if a.Pop? || a.Del? || a.Clear? {
      ConsumerKeptByRemoval(s, t, a, u);
    } else if a.Push? || a.HookDone? {
      ConsumerKeptByPush(s, t, a, u);
    } else {
      ConsumerKeptByRest(s, t, a, u);
    }
  }

  lemma ConsumerKeptByClose(s: State, t: nat, a: Action, u: nat)
    requires ConsumerOk(s, u) && CloserOk(s, t) && Enabled(s, t, a) && (a.Close? || a.CloseSignal?)
    ensures ConsumerOk(Next(s, t, a), u)
  {
    hide OwesEmpty, OwesFull, SignalFull, SignalEmpty, OnlyWoken;
    OwesKept(s, t, a);
    if a.Close? && !s.closed && a.side.Ok? { CloseOwes(s, t, a.side, a.backup); }
    if a.CloseSignal? {
      SignalEmptyEffect(MoveTo(s, t, Closing(false, s.ts[t].full)));
      SignalFullEffect(MoveTo(s, t, Idle));
    }
  }

  lemma ConsumerKeptByRemoval(s: State, t: nat, a: Action, u: nat)
    requires ConsumerOk(s, u) && CloserOk(s, t) && Enabled(s, t, a) && (a.Pop? || a.Del? || a.Clear?)
    ensures ConsumerOk(Next(s, t, a), u)
  {
    hide Next, OwesEmpty, OwesFull, SignalFull, OnlyWoken, AllFullWoken, Picked, Kept, Used;
    OwesKept(s, t, a);
    RemovalEffect(s, t, a);
    SignalFullEffect(s);
  }

  lemma ConsumerKeptByPush(s: State, t: nat, a: Action, u: nat)
    requires ConsumerOk(s, u) && CloserOk(s, t) && Enabled(s, t, a) && (a.Push? || a.HookDone?)
    ensures ConsumerOk(Next(s, t, a), u)
  {
    hide OwesEmpty, OwesFull, SignalFull, Insert, AllFullWoken, Landed, Used;
    OwesKept(s, t, a);
    PushEffect(s, t, a);
  }

  lemma ConsumerKeptByRest(s: State, t: nat, a: Action, u: nat)
    requires ConsumerOk(s, u) && CloserOk(s, t) && Enabled(s, t, a) && (a.NotEmpty? || a.NotFull? || a.Resume?)
    ensures ConsumerOk(Next(s, t, a), u)
  {
    hide OwesEmpty, OwesFull, Used;
    OwesKept(s, t, a);
  }

  lemma WaiterKept(s: State, t: nat, a: Action, u: nat)
    requires Inv(s) && Enabled(s, t, a)
    ensures WaiterOk(Next(s, t, a), u)
  {
    hide Next, Enabled, Accounts, ProducerOk, ConsumerOk, CloserOk;
    assert WaiterOk(s, u) && WaiterOk(s, t);
    ProducerKept(s, t, a, u);
    ConsumerKept(s, t, a, u);
    CloserKept(s, t, a, u);
  }

  lemma StepKeeps(s: State, t: nat, a: Action)
    requires Inv(s) && Enabled(s, t, a)
    ensures Inv(Next(s, t, a))
  {
    hide Accounts, WaiterOk, Next, Enabled;
    AccountsKept(s, t, a);
    forall u ensures WaiterOk(Next(s, t, a), u) { WaiterKept(s, t, a, u); }
  }

  // ---- what an unwound Del or Push costs, exactly

  /** A producer asleep on an open queue has no room, a consumer nothing to take. */
  ghost predicate Rests(s: State, t: nat)
  {
    && (t < |s.ts| && s.ts[t].WaitFull? && !s.ts[t].woken && !s.closed ==> !Admits(s, s.ts[t].m))
    && (Sleeps(s, t) && !s.closed ==> s.contents == [])
  }

  /** A consumer that nobody has woken. */
  predicate Sleeps(s: State, t: nat)
  {
    t < |s.ts| && s.ts[t].WaitEmpty? && !s.ts[t].woken
  }

  /** The exemption and with it the bound are exact, and nobody sleeps through what it waits for. */
  ghost predicate Exact(s: State)
  {
    s.ever == 0 && forall t :: Rests(s, t)
  }

  /** A Del that unwinds after having removed a restored entry, or enough that a sleeping producer's batch fits; or a
      Push that unwinds having put something into an empty queue on which a consumer sleeps. */
  ghost predicate Harms(s: State, t: nat, a: Action)
    requires t < |s.ts|
  {
    || (DelUnwinds(s, a) && DelHarms(s, a.gone))
    || (PushUnwinds(s, t, a) && exists u :: Sleeps(s, u))
  }

  ghost predicate DelHarms(s: State, gone: set<nat>)
  {
    Below(Picked(s.contents, gone), s.end) > 0 || exists u :: WouldFit(s, |Picked(s.contents, gone)|, u)
  }

  ghost predicate WouldFit(s: State, freed: nat, u: nat)
  {
    u < |s.ts| && s.ts[u].WaitFull? && !s.ts[u].woken && Used(s) - freed + s.ts[u].m <= s.maxSize
  }

  /** Among all steps it is exactly those that cost exactness. */
  lemma ExactIsKeptIff(s: State, t: nat, a: Action)
    requires Inv(s) && Exact(s) && Enabled(s, t, a)
    ensures Exact(Next(s, t, a)) <==> !Harms(s, t, a)
  {
    hide Next, Enabled, Accounts, WaiterOk, DelUnwinds, PushUnwinds, Exact, DelHarms;
    NotBoth(s, t, a);
    if DelUnwinds(s, a) {
      UnwoundDelIsExactIff(s, t, a);
    } else if PushUnwinds(s, t, a) {
      UnwoundPushIsExactIff(s, t, a);
    } else {
      OthersKeepExact(s, t, a);
    }
  }

  lemma NotBoth(s: State, t: nat, a: Action)
    requires Enabled(s, t, a)
    ensures t < |s.ts| && !(DelUnwinds(s, a) && PushUnwinds(s, t, a)) && (DelUnwinds(s, a) ==> a.Del?)
  {
  }

  lemma UnwoundDelIsExactIff(s: State, t: nat, a: Action)
    requires Inv(s) && Exact(s) && Enabled(s, t, a) && DelUnwinds(s, a)
    ensures Exact(Next(s, t, a)) <==> !DelHarms(s, a.gone)
  {
    var s' := DelUnwound(s, a.gone);
    assert Next(s, t, a) == s';
    UnwoundDelKeepsAccounts(s, a.gone);
    KeptOfNothing(a.gone);
    hide Kept, Picked, Below, Accounts;
    forall u ensures Rests(s', u) <==> !WouldFit(s, |Picked(s.contents, a.gone)|, u) {
      assert WaiterOk(s, u) && Rests(s, u);
    }
  }

  lemma KeptOfNothing(gone: set<nat>)
    ensures Kept([], gone) == []
  {
  }

  lemma UnwoundPushIsExactIff(s: State, t: nat, a: Action)
    requires Inv(s) && Exact(s) && Enabled(s, t, a) && PushUnwinds(s, t, a)
    ensures Exact(Next(s, t, a)) <==> !exists u :: Sleeps(s, u)
  {
    hide Insert, Accounts, OwesEmpty, OwesFull, AllEmptyWoken, Landed;
    var s' := Next(s, t, a);
    PushEffect(s, t, a);
    UnwoundPushFills(s, t, a);
    forall u ensures Rests(s', u) <==> !Sleeps(s, u) { assert WaiterOk(s, u) && Rests(s, u); }
  }

  lemma UnwoundPushFills(s: State, t: nat, a: Action)
    requires Enabled(s, t, a) && PushUnwinds(s, t, a)
    ensures Next(s, t, a).contents != [] && Next(s, t, a).ever == s.ever && !Next(s, t, a).closed && !s.closed
  {
  }

  /** s apart from whether a Del or a Push has unwound past its signal. */
  function Signalled(s: State): State
  {
    s.(unsignalled := false, unannounced := false)
  }

  /** No other step looks at that. */
  lemma OthersIgnoreUnsignalled(s: State, t: nat, a: Action)
    requires Enabled(s, t, a) && !DelUnwinds(s, a) && !PushUnwinds(s, t, a)
    ensures Enabled(Signalled(s), t, a) && Next(Signalled(s), t, a) == Signalled(Next(s, t, a))
    ensures Next(s, t, a).ever == s.ever
  {
    hide *;
    EnabledIgnores(s, t, a);
    if a.Push? {
      PushIgnores(s, t, a.m, a.hook, a.calls);
    } else if a.HookDone? {
      HookIgnores(s, t, a.hooked, a.calls);
    } else if a.Pop? || a.Del? || a.Clear? {
      RemovalIgnores(s, t, a);
    } else {
      RestIgnores(s, t, a);
    }
  }

  lemma EnabledIgnores(s: State, t: nat, a: Action)
    requires Enabled(s, t, a)
    ensures Enabled(Signalled(s), t, a)
  {
  }

  lemma PushIgnores(s: State, t: nat, m: nat, hook: bool, calls: Calls)
    requires var a := Push(m, hook, calls); Enabled(s, t, a) && Enabled(Signalled(s), t, a) && !PushUnwinds(s, t, a)
    ensures var a := Push(m, hook, calls);
      Next(Signalled(s), t, a) == Signalled(Next(s, t, a)) && Next(s, t, a).ever == s.ever
  {
    hide Insert, Landed, PushUnwinds;
    var a := Push(m, hook, calls);
    if Inserts(s, t, a) {
      if s.contents == [] && !calls.AllOk() { NothingLands(s, t, a); }
      InsertIgnores(s, m, false, calls);
    }
  }

  lemma HookIgnores(s: State, t: nat, hooked: Outcome, calls: Calls)
    requires var a := HookDone(hooked, calls);
      Enabled(s, t, a) && Enabled(Signalled(s), t, a) && !PushUnwinds(s, t, a)
    ensures var a := HookDone(hooked, calls);
      Next(Signalled(s), t, a) == Signalled(Next(s, t, a)) && Next(s, t, a).ever == s.ever
  {
    hide Insert, Landed, SignalFull, PushUnwinds;
    var a := HookDone(hooked, calls);
    if Inserts(s, t, a) {
      if s.contents == [] && !calls.AllOk() { NothingLands(s, t, a); }
      InsertIgnores(Back(s, t), s.ts[t].m, true, calls);
    }
    SignalIgnores(Back(s, t));
  }

  lemma RemovalIgnores(s: State, t: nat, a: Action)
    requires Enabled(s, t, a) && Enabled(Signalled(s), t, a) && (a.Pop? || a.Del? || a.Clear?) && !DelUnwinds(s, a)
    ensures Next(Signalled(s), t, a) == Signalled(Next(s, t, a)) && Next(s, t, a).ever == s.ever
  {
    hide Kept, Picked, Below, Remove, DelUnwound, AfterPop, AfterDel, SignalFull;
    if a.Clear? {
      SignalIgnores(s.(contents := [], hydrated := 0, uncharged := 0));
    } else {
      RemoveIgnores(s, t, a, a.gone);
    }
  }

  lemma RestIgnores(s: State, t: nat, a: Action)
    requires Enabled(s, t, a) && Enabled(Signalled(s), t, a)
    requires a.NotEmpty? || a.NotFull? || a.Close? || a.CloseSignal? || a.Resume?
    ensures Next(Signalled(s), t, a) == Signalled(Next(s, t, a)) && Next(s, t, a).ever == s.ever
  {
    hide SignalFull, SignalEmpty;
    if a.CloseSignal? {
      SignalIgnores(MoveTo(s, t, Closing(false, s.ts[t].full)));
      SignalIgnores(MoveTo(s, t, Idle));
    }
  }

  lemma NothingLands(s: State, t: nat, a: Action)
    requires Enabled(s, t, a) && !PushUnwinds(s, t, a) && Inserts(s, t, a) && s.contents == [] && !a.calls.AllOk()
    ensures a.Push? ==> Landed(s, a.m, a.calls) == 0
    ensures a.HookDone? ==> Landed(Back(s, t), s.ts[t].m, a.calls) == 0
  {
  }

  lemma SignalIgnores(s: State)
    ensures SignalFull(Signalled(s)) == Signalled(SignalFull(s)) && SignalFull(s).ever == s.ever
    ensures SignalEmpty(Signalled(s)) == Signalled(SignalEmpty(s)) && SignalEmpty(s).ever == s.ever
  {
  }

  lemma InsertIgnores(s: State, m: nat, hook: bool, calls: Calls)
    requires calls.AllOk() || s.contents != [] || Landed(s, m, calls) == 0
    ensures Insert(Signalled(s), m, hook, calls) == Signalled(Insert(s, m, hook, calls))
    ensures Insert(s, m, hook, calls).ever == s.ever
  {
    hide SignalFull, SignalEmpty, Appended;
    var n := Landed(s, m, calls);
    SignalIgnores(s.(contents := Appended(s.contents, s.next, n), next := s.next + n));
    SignalIgnores(s.(contents := Appended(s.contents, s.next, n), next := s.next + n,
                     unannounced := s.unannounced || (s.contents == [] && n > 0)));
    SignalIgnores(s.(contents := Appended(s.contents, s.next, m), next := s.next + m));
  }

  lemma RemoveIgnores(s: State, t: nat, a: Action, gone: set<nat>)
    requires Enabled(s, t, a)
    ensures forall h ::
      Remove(Signalled(s), gone, h) == Signalled(Remove(s, gone, h)) && Remove(s, gone, h).ever == s.ever
    ensures forall k :: AfterPop(Signalled(s), k, gone) == AfterPop(s, k, gone)
    ensures AfterDel(Signalled(s), gone) == AfterDel(s, gone)
  {
    hide Kept, Picked, SignalFull;
    forall h
      ensures Remove(Signalled(s), gone, h) == Signalled(Remove(s, gone, h)) && Remove(s, gone, h).ever == s.ever
    {
      SignalIgnores(s.(contents := Kept(s.contents, gone), hydrated := h));
    }
  }

  lemma OthersKeepExact(s: State, t: nat, a: Action)
    requires Inv(s) && Exact(s) && Enabled(s, t, a) && !DelUnwinds(s, a) && !PushUnwinds(s, t, a)
    ensures Exact(Next(s, t, a))
  {
    hide Next, Enabled, Accounts, DelUnwinds, PushUnwinds;
    var s0 := Signalled(s);
    SignalledHolds(s);
    OthersIgnoreUnsignalled(s, t, a);
    StepKeeps(s0, t, a);
    forall u ensures Rests(Next(s, t, a), u) { assert WaiterOk(Next(s0, t, a), u); }
  }

  lemma SignalledHolds(s: State)
    requires Inv(s) && Exact(s)
    ensures Inv(Signalled(s))
  {
    var s0 := Signalled(s);
    SameContents(s, s0);
    hide Accounts, Numbered;
    forall u ensures WaiterOk(s0, u) { assert WaiterOk(s, u) && Rests(s, u); }
  }
}
