/** The on-disk backing's shutdown: any number of Closes, concurrent, nested in Backup.Close, or retried. One step is
    one critical section under the shutdown mutex, one wait decided, or one call begun or ended. A timeout is a step
    that may always happen. */
module Shutdown {

  /** What the release reported: from the flusher, from Backup.Close, from closing the store; 0 is nil. */
  datatype Errors = Errors(g: int, b: int, c: int)

  datatype Flusher = NotStarted | Alive | Ended

  datatype Answer =
    | Joined(e: Errors)    // errors.Join of the three
    | Incomplete           // ErrShutdownIncomplete
    | InProgress           // ErrShutdownInProgress

  /** Where a Close is. gen numbers the channel shutDone it saw. */
  datatype Pc =
    | Entering
    | Waiting(gen: nat)                                        // for the Close that is performing
    | Woken                                                    // its channel was closed
    | Joining(gen: nat)                                        // performing: for the flusher to end
    | Releasing(gen: nat, g: int)                              // committed
    | InBackup(gen: nat, g: int)                               // Backup.Close is running
    | ClosingStore(gen: nat, g: int, b: int, unwinds: bool)    // the deferred closeDB
    | Publishing(gen: nat, e: Errors, complete: bool, unwinds: bool)  // the deferred bookkeeping
    | Announcing(gen: nat, e: Errors, complete: bool, unwinds: bool)  // the close of the channel
    | Returned(a: Answer, gaveUp: bool)
    | Unwound

  /** who performs (shutBusy), complete, committed, the current channel, the channels closed, the published errors; and
      how often the store and the Backup have been closed. */
  datatype State = State(hasBackup: bool, flusher: Flusher, who: int, complete: bool, committed: bool, gen: nat,
                         closed: set<nat>, errors: Errors, stores: nat, backups: nat, ts: seq<Pc>)

  const NOBODY := -1

  datatype Outcome = Ok | Err(code: int) | Unwinds

  datatype Action =
    | Call                        // one more Close
    | FlusherEnds
    | Enter(t: nat)
    | Join(t: nat, g: int)
    | JoinTimesOut(t: nat)
    | BeginRelease(t: nat)        // calls Backup.Close, if there is one
    | BackupEnds(t: nat, o: Outcome)
    | CloseStore(t: nat, c: int)
    | Publish(t: nat)
    | Announce(t: nat)
    | Wake(t: nat)
    | ReadAnswer(t: nat)
    | GiveUp(t: nat)

  function PcOf(s: State, t: nat): Pc
  {
    if t < |s.ts| then s.ts[t] else Unwound
  }

  function MoveTo(s: State, t: nat, pc: Pc): State
  {
    if t < |s.ts| then s.(ts := s.ts[t := pc]) else s
  }

  predicate Enabled(s: State, a: Action)
  {
    match a
    case Call => true
    case FlusherEnds => s.flusher == Alive
    case Enter(t) => PcOf(s, t).Entering?
    case Join(t, g) => PcOf(s, t).Joining? && s.flusher != Alive && (s.flusher == NotStarted ==> g == 0)
    case JoinTimesOut(t) => PcOf(s, t).Joining? && s.flusher != NotStarted
    case BeginRelease(t) => PcOf(s, t).Releasing?
    case BackupEnds(t, o) => PcOf(s, t).InBackup? && (o.Err? ==> o.code != 0)
    case CloseStore(t, _) => PcOf(s, t).ClosingStore?
    case Publish(t) => PcOf(s, t).Publishing?
    case Announce(t) => PcOf(s, t).Announcing?
    case Wake(t) => PcOf(s, t).Waiting? && PcOf(s, t).gen in s.closed
    case ReadAnswer(t) => PcOf(s, t).Woken?
    case GiveUp(t) => PcOf(s, t).Waiting?
  }

  /** The error recorded for a Backup.Close that never returned. */
  const DID_NOT_RETURN := -1

  function Next(s: State, a: Action): State
    requires Enabled(s, a)
  {
    match a
    case Call => s.(ts := s.ts + [Entering])
    case FlusherEnds => s.(flusher := Ended)
    case Enter(t) =>
      if s.complete then MoveTo(s, t, Returned(Joined(s.errors), false))
      else if s.who != NOBODY then MoveTo(s, t, Waiting(s.gen))
      else MoveTo(s, t, Joining(s.gen)).(who := t)
    case Join(t, g) => MoveTo(s, t, Releasing(s.ts[t].gen, g)).(committed := true)
    case JoinTimesOut(t) => MoveTo(s, t, Publishing(s.ts[t].gen, Errors(0, 0, 0), false, false))
    case BeginRelease(t) =>
      if s.hasBackup then MoveTo(s, t, InBackup(s.ts[t].gen, s.ts[t].g)).(backups := s.backups + 1)
      else MoveTo(s, t, ClosingStore(s.ts[t].gen, s.ts[t].g, 0, false))
    case BackupEnds(t, o) =>
      var b := match o case Ok => 0 case Err(code) => code case Unwinds => DID_NOT_RETURN;
      MoveTo(s, t, ClosingStore(s.ts[t].gen, s.ts[t].g, b, o.Unwinds?))
    case CloseStore(t, c) =>
      var pc := s.ts[t];
      MoveTo(s, t, Publishing(pc.gen, Errors(pc.g, pc.b, c), true, pc.unwinds)).(stores := s.stores + 1)
    case Publish(t) =>
      var pc := s.ts[t];
      var s1 := MoveTo(s, t, Announcing(pc.gen, pc.e, pc.complete, pc.unwinds));
      s1.(errors := pc.e, complete := pc.complete, who := NOBODY, gen := if pc.complete then s.gen else s.gen + 1)
    case Announce(t) =>
      var pc := s.ts[t];
      var after :=
        if pc.unwinds then Unwound
        else if pc.complete then Returned(Joined(pc.e), false)
        else Returned(Incomplete, false);
      MoveTo(s, t, after).(closed := s.closed + {pc.gen})
    case Wake(t) => MoveTo(s, t, Woken)
    case ReadAnswer(t) => MoveTo(s, t, Returned(if s.complete then Joined(s.errors) else Incomplete, false))
    case GiveUp(t) => MoveTo(s, t, Returned(if s.committed then InProgress else Incomplete, true))
  }

  // ---- the invariant

  predicate Performs(pc: Pc)
  {
    pc.Joining? || pc.Releasing? || pc.InBackup? || pc.ClosingStore? || pc.Publishing?
  }

  /** The store and the Backup have been let go of exactly as far as the performer has come. */
  predicate Released(s: State, stores: nat, backups: nat)
  {
    s.stores == stores && s.backups == (if s.hasBackup then backups else 0)
  }

  ghost predicate Shared(s: State)
  {
    && (s.who != NOBODY ==> 0 <= s.who < |s.ts| && !s.complete && Performs(s.ts[s.who]))
    && (s.complete ==> s.committed && s.flusher != Alive && Released(s, 1, 1))
    && (s.who == NOBODY && !s.complete ==> !s.committed && Released(s, 0, 0))
    && (forall g :: g in s.closed ==> if s.complete then g <= s.gen else g < s.gen)
    && s.stores <= 1 && s.backups <= 1
  }

  ghost predicate PcOk(s: State, t: nat)
  {
    t < |s.ts| ==>
      var pc := s.ts[t];
      && (Performs(pc) ==> s.who == t && pc.gen == s.gen)
      && (pc.Joining? ==> !s.committed && Released(s, 0, 0))
      && (pc.Releasing? || pc.InBackup? || pc.ClosingStore? ==> s.committed && s.flusher != Alive)
      && (pc.Releasing? ==> Released(s, 0, 0))
      && (pc.InBackup? ==> s.hasBackup && Released(s, 0, 1))
      && (pc.ClosingStore? ==> Released(s, 0, 1))
      && (pc.Publishing? ==>
            && pc.complete == s.committed
            && if pc.complete then s.flusher != Alive && Released(s, 1, 1) else Released(s, 0, 0))
      && (pc.Announcing? ==>
            && pc.gen !in s.closed
            && if pc.complete then s.complete && pc.e == s.errors && pc.gen == s.gen else pc.gen < s.gen)
      && (pc.Waiting? ==> pc.gen <= s.gen)
      && (pc.Returned? && pc.a.Joined? ==> s.complete && pc.a.e == s.errors)
      && (pc.Returned? && pc.gaveUp ==> !pc.a.Joined?)
      && (pc.Returned? && pc.a.InProgress? ==> pc.gaveUp && s.committed)
  }

  /** No two Closes are about to close the same channel. */
  ghost predicate Apart(s: State, t: nat, u: nat)
  {
    t < |s.ts| && u < |s.ts| && t != u && s.ts[t].Announcing? && s.ts[u].Announcing? ==> s.ts[t].gen != s.ts[u].gen
  }

  ghost predicate Inv(s: State)
  {
    Shared(s) && (forall t :: PcOk(s, t)) && (forall t, u :: Apart(s, t, u))
  }

  function Who(a: Action): nat
  {
    if a.Call? || a.FlusherEnds? then 0 else a.t
  }

  /** A step that changes nothing but the state of the Close that takes it, and who performs. */
  predicate Silent(a: Action)
  {
    a.Call? || a.Enter? || a.JoinTimesOut? || a.BackupEnds? || a.Wake? || a.ReadAnswer? || a.GiveUp?
  }

  /** A step that lets go of the performing or closes the channel. */
  predicate Ends(a: Action)
  {
    a.Publish? || a.Announce?
  }

  lemma SharedKeptBySilent(s: State, a: Action)
    requires Shared(s) && PcOk(s, Who(a)) && Enabled(s, a) && Silent(a)
    ensures Shared(Next(s, a))
  {
  }

  lemma SharedKeptByEnds(s: State, a: Action)
    requires Shared(s) && PcOk(s, Who(a)) && Enabled(s, a) && Ends(a)
    ensures Shared(Next(s, a))
  {
  }

  lemma SharedKeptByRelease(s: State, a: Action)
    requires Shared(s) && PcOk(s, Who(a)) && Enabled(s, a) && !Silent(a) && !Ends(a)
    ensures Shared(Next(s, a))
  {
  }

  lemma SharedKept(s: State, a: Action)
    requires Shared(s) && PcOk(s, Who(a)) && Enabled(s, a)
    ensures Shared(Next(s, a))
  {
    hide Shared, PcOk, Next, Enabled;
    if Silent(a) {
      SharedKeptBySilent(s, a);
    } else if Ends(a) {
      SharedKeptByEnds(s, a);
    } else {
      SharedKeptByRelease(s, a);
    }
  }

  // PcOk of the Close that takes the step

  lemma OwnPcKeptBySilent(s: State, a: Action)
    requires Shared(s) && PcOk(s, Who(a)) && Enabled(s, a) && Silent(a)
    ensures PcOk(Next(s, a), Who(a))
  {
  }

  lemma OwnPcKeptByEnds(s: State, a: Action)
    requires Shared(s) && PcOk(s, Who(a)) && Enabled(s, a) && Ends(a)
    ensures PcOk(Next(s, a), Who(a))
  {
  }

  lemma OwnPcKeptByRelease(s: State, a: Action)
    requires Shared(s) && PcOk(s, Who(a)) && Enabled(s, a) && !Silent(a) && !Ends(a)
    ensures PcOk(Next(s, a), Who(a))
  {
  }

  // ... and of any other

  lemma PcKeptBySilent(s: State, a: Action, t: nat)
    requires Shared(s) && PcOk(s, t) && Enabled(s, a) && Silent(a) && t != Who(a)
    ensures PcOk(Next(s, a), t)
  {
  }

  lemma PcKeptByOther(s: State, a: Action, t: nat)
    requires Shared(s) && PcOk(s, Who(a)) && PcOk(s, t) && Apart(s, Who(a), t) && Enabled(s, a)
    requires !Silent(a) && t != Who(a)
    ensures PcOk(Next(s, a), t)
  {
  }

  lemma PcKept(s: State, a: Action, t: nat)
    requires Inv(s) && Enabled(s, a)
    ensures PcOk(Next(s, a), t)
  {
    hide Shared, PcOk, Apart, Next, Enabled;
    assert Shared(s) && PcOk(s, Who(a)) && PcOk(s, t) && Apart(s, Who(a), t);
    if t != Who(a) {
      if Silent(a) {
        PcKeptBySilent(s, a, t);
      } else {
        PcKeptByOther(s, a, t);
      }
    } else if Silent(a) {
      OwnPcKeptBySilent(s, a);
    } else if Ends(a) {
      OwnPcKeptByEnds(s, a);
    } else {
      OwnPcKeptByRelease(s, a);
    }
  }

  lemma ApartKept(s: State, a: Action, t: nat, u: nat)
    requires Shared(s) && PcOk(s, Who(a)) && PcOk(s, t) && PcOk(s, u) && Apart(s, t, u) && Enabled(s, a)
    ensures Apart(Next(s, a), t, u)
  {
    hide Released;
  }

  lemma StepKeeps(s: State, a: Action)
    requires Inv(s) && Enabled(s, a)
    ensures Inv(Next(s, a))
  {
    hide Shared, PcOk, Apart, Next, Enabled;
    SharedKept(s, a);
    forall t ensures PcOk(Next(s, a), t) { PcKept(s, a, t); }
    forall t, u ensures Apart(Next(s, a), t, u) { ApartKept(s, a, t, u); }
  }

  // ---- runs

  predicate Allowed(s: State, run: seq<Action>)
    decreases |run|
  {
    run == [] || (Enabled(s, run[0]) && Allowed(Next(s, run[0]), run[1..]))
  }

  function End(s: State, run: seq<Action>): State
    requires Allowed(s, run)
    decreases |run|
  {
    if run == [] then s else End(Next(s, run[0]), run[1..])
  }

  /** A backing nobody has closed, its flusher started or not. */
  function Start(hasBackup: bool, started: bool): State
  {
    State(hasBackup, if started then Alive else NotStarted, NOBODY, false, false, 0, {}, Errors(0, 0, 0), 0, 0, [])
  }

  lemma {:induction false} RunKeeps(s: State, run: seq<Action>)
    requires Inv(s) && Allowed(s, run)
    ensures Inv(End(s, run))
    decreases |run|
  {
    hide Inv, Next, Enabled;
    if run != [] {
      StepKeeps(s, run[0]);
      RunKeeps(Next(s, run[0]), run[1..]);
    }
  }

  ghost predicate Reachable(s: State)
  {
    exists b: bool, f: bool, run: seq<Action> :: Allowed(Start(b, f), run) && End(Start(b, f), run) == s
  }

  lemma ReachableHolds(s: State)
    requires Reachable(s)
    ensures Inv(s)
  {
    hide Next, Enabled;
    var b: bool, f: bool, run: seq<Action> :| Allowed(Start(b, f), run) && End(Start(b, f), run) == s;
    RunKeeps(Start(b, f), run);
  }

  // ---- what holds in every reachable state

  /** The store's handle is closed at most once, only after Backup.Close has been called, and never while the flusher
      runs; Backup.Close is called at most once, and not while the flusher runs either. */
  lemma ReleaseHappensOnce(s: State, a: Action)
    requires Reachable(s) && Enabled(s, a)
    ensures s.stores <= 1 && s.backups <= 1
    ensures Next(s, a).stores > s.stores ==> s.stores == 0 && s.flusher != Alive && (s.hasBackup ==> s.backups == 1)
    ensures Next(s, a).backups > s.backups ==> s.hasBackup && s.backups == 0 && s.stores == 0 && s.flusher != Alive
  {
    ReachableHolds(s);
    assert PcOk(s, Who(a));
  }

  /** A join that times out leaves everything unreleased, and the next Close performs anew. */
  lemma FailedJoinIsRetryable(s: State, t: nat, u: nat)
    requires Reachable(s) && Enabled(s, Publish(t)) && !s.ts[t].complete
    requires u < |s.ts| && s.ts[u].Entering?
    ensures var s1 := Next(s, Publish(t));
      && s1.stores == 0 && s1.backups == 0 && !s1.complete && !s1.committed
      && Enabled(s1, Enter(u)) && Next(s1, Enter(u)).ts[u] == Joining(s1.gen)
  {
    ReachableHolds(s);
    assert PcOk(s, t);
  }

  /** One Close at a time performs. */
  lemma OnePerformer(s: State, t: nat, u: nat)
    requires Reachable(s) && t < |s.ts| && u < |s.ts| && Performs(s.ts[t]) && Performs(s.ts[u])
    ensures t == u
  {
    ReachableHolds(s);
    assert PcOk(s, t) && PcOk(s, u);
  }

  /** Every Close that is given a joined result is given the same one, the published errors. */
  lemma JoinedAnswersAgree(s: State, t: nat, u: nat)
    requires Reachable(s) && t < |s.ts| && u < |s.ts|
    requires s.ts[t].Returned? && s.ts[t].a.Joined? && s.ts[u].Returned? && s.ts[u].a.Joined?
    ensures s.ts[t].a == s.ts[u].a == Joined(s.errors)
  {
    ReachableHolds(s);
    assert PcOk(s, t) && PcOk(s, u);
  }

  /** Completion is for good: no step takes it back or changes what was published. */
  lemma CompletionIsFinal(s: State, a: Action)
    requires Reachable(s) && s.complete && Enabled(s, a)
    ensures Next(s, a).complete && Next(s, a).errors == s.errors
  {
    ReachableHolds(s);
    assert PcOk(s, Who(a));
  }

  /** The steps by which a Close returns although it is not given the joined result: it gives up waiting on its own
      timer, or it performed itself, its join timed out, and another Close completed before it closed its channel. */
  predicate MissesTheAnswer(s: State, a: Action)
    requires Enabled(s, a)
  {
    a.GiveUp? || (a.Announce? && !s.ts[a.t].complete)
  }

  /** From completion on, a Close that returns is given the joined result if and only if it neither gave up waiting nor
      performed a join that failed; the first is told "in progress", the second "incomplete". A frame is unwound exactly
      when Backup.Close unwound it. */
  lemma AnswerAfterCompletionIff(s: State, a: Action)
    requires Reachable(s) && s.complete && Enabled(s, a) && !a.Call? && !a.FlusherEnds?
    ensures var pc := Next(s, a).ts[a.t];
      && (pc.Returned? ==> (pc.a == Joined(s.errors) <==> !MissesTheAnswer(s, a)))
      && (pc.Returned? && MissesTheAnswer(s, a) ==> pc.a == if a.GiveUp? then InProgress else Incomplete)
      && (pc.Unwound? <==> a.Announce? && s.ts[a.t].unwinds)
  {
    ReachableHolds(s);
    assert PcOk(s, a.t);
  }

  // Each of the exceptions arises.

  lemma StartIsReachable(hasBackup: bool, started: bool)
    ensures Reachable(Start(hasBackup, started))
  {
    assert Allowed(Start(hasBackup, started), []) && End(Start(hasBackup, started), []) == Start(hasBackup, started);
  }

  lemma {:induction false} RunGoesOn(s: State, run: seq<Action>, a: Action)
    requires Allowed(s, run) && Enabled(End(s, run), a)
    ensures Allowed(s, run + [a]) && End(s, run + [a]) == Next(End(s, run), a)
    decreases |run|
  {
    hide Next, Enabled;
    if run == [] {
      assert run + [a] == [a] && [a][1..] == [];
    } else {
      RunGoesOn(Next(s, run[0]), run[1..], a);
      assert (run + [a])[1..] == run[1..] + [a];
    }
  }

  lemma ReachesNext(s: State, a: Action)
    requires Reachable(s) && Enabled(s, a)
    ensures Reachable(Next(s, a))
  {
    hide Next, Enabled, Start;
    var b: bool, f: bool, run: seq<Action> :| Allowed(Start(b, f), run) && End(Start(b, f), run) == s;
    RunGoesOn(Start(b, f), run, a);
  }

  lemma Follow(s: State, a: Action) returns (s': State)
    requires Reachable(s) && Enabled(s, a)
    ensures Reachable(s') && s' == Next(s, a)
  {
    ReachesNext(s, a);
    s' := Next(s, a);
  }

  /** Two Closes; the first has performed, its join timed out, and it has let go of the performing. */
  lemma AfterAFailedJoin() returns (s: State)
    ensures Reachable(s) && s.ts == [Announcing(0, Errors(0, 0, 0), false, false), Entering]
    ensures s == Start(false, true).(gen := 1, ts := s.ts)
  {
    hide Reachable;
    StartIsReachable(false, true);
    s := Follow(Start(false, true), Call);
    s := Follow(s, Call);
    s := Follow(s, Enter(0));
    s := Follow(s, JoinTimesOut(0));
    s := Follow(s, Publish(0));
  }

  /** ... and the second has completed. */
  lemma AfterTheSecondCompletes() returns (s: State)
    ensures Reachable(s)
    ensures s.ts == [Announcing(0, Errors(0, 0, 0), false, false), Announcing(1, Errors(0, 0, 0), true, false)]
    ensures s == Start(false, true).(ts := s.ts, flusher := Ended, complete := true, committed := true, gen := 1,
                                     stores := 1)
  {
    hide Reachable;
    s := AfterAFailedJoin();
    s := Follow(s, FlusherEnds);
    s := Follow(s, Enter(1));
    s := Follow(s, Join(1, 0));
    s := Follow(s, BeginRelease(1));
    s := Follow(s, CloseStore(1, 0));
    s := Follow(s, Publish(1));
  }

  /** A Close that performed a failed join can return "incomplete" after another has completed. */
  lemma FailedPerformerMissesTheAnswer() returns (s: State)
    ensures Reachable(s) && s.complete && Enabled(s, Announce(0))
    ensures Next(s, Announce(0)).ts[0] == Returned(Incomplete, false)
  {
    hide Reachable;
    s := AfterTheSecondCompletes();
  }

  /** Two Closes; the first has joined the flusher, the second waits for it. */
  lemma WhileReleasing() returns (s: State)
    ensures Reachable(s) && s.ts == [Releasing(0, 0), Waiting(0)]
    ensures s == Start(true, false).(who := 0, committed := true, ts := s.ts)
  {
    hide Reachable;
    StartIsReachable(true, false);
    s := Follow(Start(true, false), Call);
    s := Follow(s, Call);
    s := Follow(s, Enter(0));
    s := Follow(s, Enter(1));
    s := Follow(s, Join(0, 0));
  }

  /** ... and Backup.Close has unwound. */
  lemma AfterTheUnwinding() returns (s: State)
    ensures Reachable(s) && s.ts == [Announcing(0, Errors(0, DID_NOT_RETURN, 0), true, true), Waiting(0)]
    ensures s == Start(true, false).(ts := s.ts, complete := true, committed := true, stores := 1, backups := 1,
                                     errors := Errors(0, DID_NOT_RETURN, 0))
  {
    hide Reachable;
    s := WhileReleasing();
    s := Follow(s, BeginRelease(0));
    s := Follow(s, BackupEnds(0, Unwinds));
    s := Follow(s, CloseStore(0, 0));
    s := Follow(s, Publish(0));
  }

  /** A Close whose timer fires can return "in progress" after completion; and the Close that Backup.Close unwound out
      of is unwound. */
  lemma ImpatientAndUnwoundMissTheAnswer() returns (s: State)
    ensures Reachable(s) && s.complete && Enabled(s, GiveUp(1)) && Enabled(s, Announce(0))
    ensures Next(s, GiveUp(1)).ts[1] == Returned(InProgress, true)
    ensures Next(s, Announce(0)).ts[0] == Unwound
  {
    hide Reachable;
    s := AfterTheUnwinding();
  }

  /** A Close is told "in progress" only once the release is committed, and it is then not to be retried: whatever
      comes, nobody performs again. */
  lemma InProgressIsFinal(s: State, t: nat, run: seq<Action>, u: nat)
    requires Reachable(s) && t < |s.ts| && s.ts[t].Returned? && s.ts[t].a.InProgress? && Allowed(s, run)
    ensures s.committed
    ensures u < |End(s, run).ts| ==> !End(s, run).ts[u].Joining?
  {
    hide Reachable, Next, Enabled;
    ReachableHolds(s);
    assert PcOk(s, t);
    CommittedForGood(s, run);
    assert PcOk(End(s, run), u);
  }

  lemma {:induction false} CommittedForGood(s: State, run: seq<Action>)
    requires Inv(s) && s.committed && Allowed(s, run)
    ensures Inv(End(s, run)) && End(s, run).committed
    decreases |run|
  {
    hide Inv;
    if run != [] {
      StepKeeps(s, run[0]);
      CommittedForGood(Next(s, run[0]), run[1..]);
    }
  }

  /** The channel a Close waits on is closed at most once, and every Close that has announced did close it. */
  lemma ChannelsCloseOnce(s: State, t: nat)
    requires Reachable(s) && Enabled(s, Announce(t))
    ensures s.ts[t].gen !in s.closed && s.ts[t].gen in Next(s, Announce(t)).closed
  {
    ReachableHolds(s);
    assert PcOk(s, t);
  }

  // ---- what is reported

  /** What the calls of a run reported: the flushers joined, the Backup.Closes that ended, the closes of the store. */
  datatype Reports = Reports(gs: seq<int>, bs: seq<int>, cs: seq<int>)

  function CodeOf(o: Outcome): int
  {
    match o
    case Ok => 0
    case Err(code) => code
    case Unwinds => DID_NOT_RETURN
  }

  function Heard(r: Reports, a: Action): Reports
  {
    match a
    case Join(_, g) => r.(gs := r.gs + [g])
    case BackupEnds(_, o) => r.(bs := r.bs + [CodeOf(o)])
    case CloseStore(_, c) => r.(cs := r.cs + [c])
    case _ => r
  }

  function HeardAll(r: Reports, run: seq<Action>): Reports
    decreases |run|
  {
    if run == [] then r else HeardAll(Heard(r, run[0]), run[1..])
  }

  /** All three, of a backing with a Backup or without. */
  ghost predicate Whole(hasBackup: bool, e: Errors, r: Reports)
  {
    r == Reports([e.g], if hasBackup then [e.b] else [], [e.c]) && (!hasBackup ==> e.b == 0)
  }

  /** The reports so far are what the Close that performs carries, and once complete what is published. */
  ghost predicate Tracks(s: State, r: Reports)
  {
    if s.complete then Whole(s.hasBackup, s.errors, r)
    else if !s.committed then r == Reports([], [], [])
    else
      && 0 <= s.who < |s.ts|
      && match s.ts[s.who]
         case Releasing(_, g) => r == Reports([g], [], [])
         case InBackup(_, g) => r == Reports([g], [], [])
         case ClosingStore(_, g, b, _) =>
           r == Reports([g], if s.hasBackup then [b] else [], []) && (!s.hasBackup ==> b == 0)
         case Publishing(_, e, complete, _) => complete && Whole(s.hasBackup, e, r)
         case _ => false
  }

  lemma TrackedBySilent(s: State, a: Action, r: Reports)
    requires Shared(s) && PcOk(s, Who(a)) && Enabled(s, a) && Silent(a) && !a.BackupEnds? && Tracks(s, r)
    ensures Tracks(Next(s, a), Heard(r, a))
  {
  }

  lemma TrackedByRest(s: State, a: Action, r: Reports)
    requires Shared(s) && PcOk(s, Who(a)) && Enabled(s, a) && (!Silent(a) || a.BackupEnds?) && Tracks(s, r)
    ensures Tracks(Next(s, a), Heard(r, a))
  {
  }

  lemma {:induction false} RunIsTracked(s: State, run: seq<Action>, r: Reports)
    requires Inv(s) && Allowed(s, run) && Tracks(s, r)
    ensures Inv(End(s, run)) && Tracks(End(s, run), HeardAll(r, run))
    decreases |run|
  {
    hide Next, Enabled, Tracks, Shared, PcOk, Heard;
    if run != [] {
      var a := run[0];
      StepKeeps(s, a);
      assert Shared(s) && PcOk(s, Who(a));
      if Silent(a) && !a.BackupEnds? { TrackedBySilent(s, a, r); } else { TrackedByRest(s, a, r); }
      RunIsTracked(Next(s, a), run[1..], Heard(r, a));
    }
  }

  /** Over any run: once complete, the flusher was joined once, the Backup, if there is one, and the store were closed
      once each, and what is published, and so what every Close given a joined result is given, is exactly what those
      three reported: nil, the error, or that Backup.Close did not return. */
  lemma AnswersAreReported(hasBackup: bool, started: bool, run: seq<Action>, t: nat)
    requires Allowed(Start(hasBackup, started), run)
    ensures var e, r := End(Start(hasBackup, started), run), HeardAll(Reports([], [], []), run);
      && (e.complete ==> Whole(hasBackup, e.errors, r))
      && (t < |e.ts| && e.ts[t].Returned? && e.ts[t].a.Joined? ==> Whole(hasBackup, e.ts[t].a.e, r))
  {
    hide Next, Enabled, Whole;
    var s, none := Start(hasBackup, started), Reports([], [], []);
    RunIsTracked(s, run, none);
    BackupStays(s, run);
    assert PcOk(End(s, run), t);
  }

  lemma {:induction false} BackupStays(s: State, run: seq<Action>)
    requires Allowed(s, run)
    ensures End(s, run).hasBackup == s.hasBackup
    decreases |run|
  {
    hide Next, Enabled;
    if run != [] {
      StepKeepsBackup(s, run[0]);
      BackupStays(Next(s, run[0]), run[1..]);
    }
  }

  lemma StepKeepsBackup(s: State, a: Action)
    requires Enabled(s, a)
    ensures Next(s, a).hasBackup == s.hasBackup
  {
  }

  /** A Close that gives up is told not to retry exactly when the flusher has been joined, and so the release begun; one
      that was woken is given the joined result exactly when the shutdown is complete. */
  lemma WaitersAreTold(hasBackup: bool, started: bool, run: seq<Action>, t: nat)
    requires Allowed(Start(hasBackup, started), run)
    ensures var e := End(Start(hasBackup, started), run);
      var joined := HeardAll(Reports([], [], []), run).gs != [];
      && (Enabled(e, GiveUp(t)) ==>
            PcOf(Next(e, GiveUp(t)), t) == Returned(if joined then InProgress else Incomplete, true))
      && (Enabled(e, ReadAnswer(t)) ==>
            PcOf(Next(e, ReadAnswer(t)), t) == Returned(if e.complete then Joined(e.errors) else Incomplete, false))
  {
    var s, none := Start(hasBackup, started), Reports([], [], []);
    RunIsTracked(s, run, none);
    JoinedIff(End(s, run), HeardAll(none, run));
    hide Inv, Tracks, Shared, HeardAll, Allowed, End;
  }

  lemma JoinedIff(s: State, r: Reports)
    requires Inv(s) && Tracks(s, r)
    ensures s.committed <==> r.gs != []
  {
  }

  // ---- nobody is stuck

  /** How far a Close is from its return. */
  function Due(pc: Pc): nat
  {
    match pc
    case Entering => 8
    case Joining(_) => 7
    case Releasing(_, _) => 6
    case InBackup(_, _) => 5
    case ClosingStore(_, _, _, _) => 4
    case Publishing(_, _, _, _) => 3
    case Announcing(_, _, _, _) => 1
    case Waiting(_) => 2
    case Woken => 1
    case Returned(_, _) => 0
    case Unwound => 0
  }

  /** Every step of a Close brings it nearer to its return, ... */
  lemma ClosesGoOn(s: State, a: Action)
    requires Enabled(s, a) && !a.Call? && !a.FlusherEnds?
    ensures Due(PcOf(Next(s, a), a.t)) < Due(PcOf(s, a.t))
  {
  }

  /** ... and moves no other. */
  lemma OthersStay(s: State, a: Action, u: nat)
    requires Enabled(s, a) && u < |s.ts| && (a.Call? || a.FlusherEnds? || u != a.t)
    ensures PcOf(Next(s, a), u) == PcOf(s, u)
  {
  }

  /** Someone is about to close the channel of that number, or it is closed. */
  ghost predicate WillBeClosed(s: State, gen: nat)
  {
    || gen in s.closed || (gen == s.gen && s.who != NOBODY)
    || exists u :: 0 <= u < |s.ts| && s.ts[u].Announcing? && s.ts[u].gen == gen
  }

  ghost predicate Awaits(s: State, t: nat)
  {
    t < |s.ts| && s.ts[t].Waiting? ==> WillBeClosed(s, s.ts[t].gen)
  }

  lemma ClosingStays(s: State, a: Action, gen: nat)
    requires Shared(s) && PcOk(s, Who(a)) && Enabled(s, a) && WillBeClosed(s, gen) && gen <= s.gen
    ensures WillBeClosed(Next(s, a), gen)
  {
    var s' := Next(s, a);
    if u :| 0 <= u < |s.ts| && s.ts[u].Announcing? && s.ts[u].gen == gen {
      assert (a.Announce? && a.t == u) || s'.ts[u] == s.ts[u];
    }
    if a.Publish? && gen == s.gen { assert s'.ts[a.t].Announcing? && s'.ts[a.t].gen == gen; }
  }

  lemma AwaitsKept(s: State, a: Action, t: nat)
    requires Inv(s) && Enabled(s, a) && Awaits(s, t)
    ensures Awaits(Next(s, a), t)
  {
    assert Shared(s) && PcOk(s, Who(a)) && PcOk(s, t);
    hide Inv, Shared, PcOk, WillBeClosed;
    if t < |s.ts| && s.ts[t].Waiting? {
      WaitsForACurrent(s, t);
      ClosingStays(s, a, s.ts[t].gen);
      WaitingStays(s, a, t);
    } else {
      EnteringWaits(s, a, t);
    }
  }

  lemma WaitsForACurrent(s: State, t: nat)
    requires PcOk(s, t) && t < |s.ts| && s.ts[t].Waiting?
    ensures s.ts[t].gen <= s.gen
  {
  }

  lemma WaitingStays(s: State, a: Action, t: nat)
    requires Enabled(s, a) && t < |s.ts| && s.ts[t].Waiting?
    ensures var s' := Next(s, a); PcOf(s', t).Waiting? ==> PcOf(s', t) == s.ts[t]
  {
    hide Next, Enabled;
    if a.Call? || a.FlusherEnds? || a.t != t { OthersStay(s, a, t); } else { WaitingEnds(s, a); }
  }

  lemma WaitingEnds(s: State, a: Action)
    requires Enabled(s, a) && !a.Call? && !a.FlusherEnds? && PcOf(s, a.t).Waiting?
    ensures !PcOf(Next(s, a), a.t).Waiting?
  {
  }

  lemma EnteringWaits(s: State, a: Action, t: nat)
    requires Enabled(s, a) && !(t < |s.ts| && s.ts[t].Waiting?)
    ensures Awaits(Next(s, a), t)
  {
  }

  lemma {:induction false} RunAwaits(s: State, run: seq<Action>, t: nat)
    requires Inv(s) && Allowed(s, run) && Awaits(s, t)
    ensures Awaits(End(s, run), t)
    decreases |run|
  {
    hide Inv, Next, Enabled, Awaits;
    if run != [] {
      StepKeeps(s, run[0]);
      AwaitsKept(s, run[0], t);
      RunAwaits(Next(s, run[0]), run[1..], t);
    }
  }

  /** Every Close that has not returned can take a step, timers apart: it waits only for the flusher, or for a Close
      that is performing, or is about to close the channel it waits on. */
  lemma NobodyWaitsInVain(s: State, t: nat) returns (a: Action)
    requires Reachable(s) && t < |s.ts| && Due(s.ts[t]) > 0
    ensures || (Enabled(s, a) && !a.Call? && !a.FlusherEnds? && a.t == t && !a.GiveUp? && !a.JoinTimesOut?)
            || (s.ts[t].Joining? && s.flusher == Alive)
            || (s.ts[t].Waiting? && WillBeClosed(s, s.ts[t].gen))
  {
    hide Reachable, WillBeClosed;
    Awaited(s, t);
    a := match s.ts[t]
      case Entering => Enter(t)
      case Joining(_) => Join(t, 0)
      case Releasing(_, _) => BeginRelease(t)
      case InBackup(_, _) => BackupEnds(t, Ok)
      case ClosingStore(_, _, _, _) => CloseStore(t, 0)
      case Publishing(_, _, _, _) => Publish(t)
      case Announcing(_, _, _, _) => Announce(t)
      case Waiting(_) => Wake(t)
      case _ => ReadAnswer(t);
  }

  lemma Awaited(s: State, t: nat)
    requires Reachable(s)
    ensures Awaits(s, t)
  {
    hide Next, Enabled, Awaits;
    var b: bool, f: bool, run: seq<Action> :| Allowed(Start(b, f), run) && End(Start(b, f), run) == s;
    StartAwaits(b, f, t);
    RunAwaits(Start(b, f), run, t);
  }

  lemma StartAwaits(b: bool, f: bool, t: nat)
    ensures Inv(Start(b, f)) && Awaits(Start(b, f), t)
  {
  }
}
