/** That the park/wake protocol gets everyone on: what a Broadcast and a cancelled context bring about, and that nobody
    is left behind when nothing is left to do. */
module Wakeups {
  import opened Basics
  import opened Parkers

  // ---- a fired watcher wakes its Wait

  ghost predicate InTodo(s: State, e: Entry)
  {
    exists k :: 0 <= k < |s.wakers| && e in s.wakers[k].todo
  }

  /** A goroutine whose context has been cancelled under it is woken, or its watcher is yet to wake it. */
  ghost predicate FiredOk(s: State, g: Gid)
  {
    g < |s.gs| && s.gs[g].pc != Idle && s.gs[g].watch == Fired ==>
      ParkerOf(s, OwnParker(s, g)).state == Woken || InTodo(s, Now(s, OwnParker(s, g)))
  }

  lemma TodoStays(s: State, a: Action, e: Entry)
    requires Enabled(s, a) && InTodo(s, e)
    ensures (a.Swap? && a.e == e) || InTodo(Next(s, a), e)
  {
    var k :| 0 <= k < |s.wakers| && e in s.wakers[k].todo;
    assert (a.Swap? && a.e == e) || e in Next(s, a).wakers[k].todo;
  }

  lemma FireAdds(s: State, g: Gid)
    requires Enabled(s, Fire(g))
    ensures InTodo(Next(s, Fire(g)), Now(s, OwnParker(s, g)))
  {
    var s' := Next(s, Fire(g));
    assert Now(s, OwnParker(s, g)) in s'.wakers[|s.wakers|].todo;
  }

  /** The parker of a goroutine in Wait goes on being its own, of the same era, and once woken stays so, until the Wait
      ends. */
  ghost predicate OwnKept(s: State, g: Gid, s': State)
  {
    GorOf(s', g).pc != Idle ==>
      && OwnParker(s', g) == OwnParker(s, g) && Now(s', OwnParker(s, g)) == Now(s, OwnParker(s, g))
      && (ParkerOf(s, OwnParker(s, g)).state == Woken ==> ParkerOf(s', OwnParker(s, g)).state == Woken)
  }

  lemma OwnStays(s: State, a: Action, g: Gid)
    requires Inv(s) && Enabled(s, a) && g < |s.gs| && s.gs[g].pc != Idle
    ensures OwnKept(s, g, Next(s, a))
  {
    hide Inv, Next, OwnKept;
    if a.Swap? || a.Ready? {
      OwnStaysByWaker(s, a, g);
    } else if a.Broadcast? || a.Fire? || a.New? {
      OwnStaysByNewcomer(s, a, g);
    } else if g == Who(s, a) {
      OwnStaysByItself(s, a);
    } else {
      OwnStaysByOther(s, a, g);
    }
  }

  lemma OwnStaysByWaker(s: State, a: Action, g: Gid)
    requires Inv(s) && Enabled(s, a) && g < |s.gs| && s.gs[g].pc != Idle && (a.Swap? || a.Ready?)
    ensures OwnKept(s, g, Next(s, a))
  {
    hide Inv, Roused, Due, Listed, Done;
    GorHolds(s, g);
    if a.Ready? {
      ReadyHolds(s, a.k);
      GorHolds(s, Who(s, a));
    }
  }

  lemma OwnStaysByNewcomer(s: State, a: Action, g: Gid)
    requires Inv(s) && Enabled(s, a) && g < |s.gs| && s.gs[g].pc != Idle && (a.Broadcast? || a.Fire? || a.New?)
    ensures OwnKept(s, g, Next(s, a))
  {
    hide Inv, Roused, Due, Listed, Done;
    GorHolds(s, g);
  }

  lemma OwnStaysByItself(s: State, a: Action)
    requires Inv(s) && Enabled(s, a) && !ByWaker(a) && Who(s, a) < |s.gs| && s.gs[Who(s, a)].pc != Idle
    ensures OwnKept(s, Who(s, a), Next(s, a))
  {
    hide Inv, Roused, Due, Listed, Done;
    GorHolds(s, Who(s, a));
  }

  lemma OwnStaysByOther(s: State, a: Action, g: Gid)
    requires Inv(s) && Enabled(s, a) && !ByWaker(a) && g < |s.gs| && s.gs[g].pc != Idle && g != Who(s, a)
    ensures OwnKept(s, g, Next(s, a))
  {
    hide Inv, Roused, Due, Listed, Done;
    GorHolds(s, g);
    GorHolds(s, Who(s, a));
    ParkerHolds(s, Which(s, a));
  }

  /** Swapped entries are woken. */
  lemma SwapWakes(s: State, k: nat, e: Entry)
    requires Inv(s) && Enabled(s, Swap(k, e))
    ensures e == Now(s, e.p) && ParkerOf(Next(s, Swap(k, e)), e.p).state == Woken
  {
    hide Inv;
    TodoHolds(s, k, e);
    hide Done, Listed;
  }

  lemma WatchFires(s: State, a: Action, g: Gid)
    requires Inv(s) && Enabled(s, a) && g < |s.gs|
    requires GorOf(Next(s, a), g).watch == Fired && GorOf(Next(s, a), g).pc != Idle
    ensures (s.gs[g].watch == Fired && s.gs[g].pc != Idle) || a == Fire(g)
  {
    hide Inv;
    GorHolds(s, g);
    hide Roused, Due, Listed, Done;
  }

  lemma FiredKept(s: State, a: Action, g: Gid)
    requires Inv(s) && Enabled(s, a) && FiredOk(s, g)
    ensures FiredOk(Next(s, a), g)
  {
    hide Inv, Next, Enabled, InTodo;
    var s' := Next(s, a);
    SameGoroutines(s, a);
    if g < |s.gs| && s'.gs[g].pc != Idle && s'.gs[g].watch == Fired {
      WatchFires(s, a, g);
      StillWaiting(s, a, g);
      OwnStays(s, a, g);
      var e := Now(s, OwnParker(s, g));
      if a == Fire(g) {
        FireAdds(s, g);
      } else if InTodo(s, e) {
        TodoStays(s, a, e);
        if a.Swap? && a.e == e { SwapWakes(s, a.k, e); }
      }
    }
  }

  lemma SameGoroutines(s: State, a: Action)
    requires Enabled(s, a)
    ensures |Next(s, a).gs| == |s.gs|
  {
  }

  lemma StillWaiting(s: State, a: Action, g: Gid)
    requires Enabled(s, a) && g < |s.gs| && (s.gs[g].pc != Idle || a == Fire(g)) && Inv(s)
    ensures s.gs[g].pc != Idle
  {
    GorHolds(s, g);
    hide Inv, Roused, Due, Listed, Done;
  }

  lemma {:induction false} RunFires(s: State, run: seq<Action>, g: Gid)
    requires Inv(s) && Allowed(s, run) && FiredOk(s, g)
    ensures FiredOk(End(s, run), g)
    decreases |run|
  {
    hide Inv, Next, Enabled, FiredOk;
    if run != [] {
      StepKeeps(s, run[0]);
      FiredKept(s, run[0], g);
      RunFires(Next(s, run[0]), run[1..], g);
    }
  }

  lemma Fires(s: State, g: Gid)
    requires Reachable(s)
    ensures FiredOk(s, g)
  {
    hide Inv, Next, Enabled;
    var n: nat, m: nat, run: seq<Action> :| Allowed(Start(n, m), run) && End(Start(n, m), run) == s;
    StartHolds(n, m);
    RunFires(Start(n, m), run, g);
  }

  /** A goroutine blocked in a Wait whose context has been cancelled is in the hands of a waker that is yet to swap its
      parker, or about to be made ready: it does not sleep on. */
  lemma CancelledIsWoken(s: State, g: Gid)
    requires Reachable(s) && g < |s.gs| && s.gs[g].watch == Fired && s.gs[g].pc.Blocked?
    ensures InTodo(s, Now(s, s.gs[g].pc.p)) || Roused(s, s.gs[g].pc.p)
  {
    hide Reachable, InTodo, Roused;
    Fires(s, g);
    BlockedWillBeFound(s, g);
  }

  // ---- who can be cancelled

  /** Between the start of Park and the cancel that follows it. */
  predicate Inside(pc: Pc)
  {
    pc.Parking? || pc.GSet? || pc.Blocked? || pc.Returned?
  }

  lemma WatchStays(s: State, a: Action, g: Gid)
    requires Enabled(s, a) && g < |s.gs| && Inside(s.gs[g].pc) && a != Cancel(g)
    ensures var s' := Next(s, a);
      && g < |s'.gs| && Inside(GorOf(s', g).pc)
      && GorOf(s', g).watch == if a == Fire(g) then Fired else s.gs[g].watch
  {
  }

  predicate Stays(run: seq<Action>, g: Gid)
  {
    forall k :: 0 <= k < |run| ==> run[k] != Cancel(g)
  }

  lemma {:induction false} RunWatches(s: State, run: seq<Action>, g: Gid)
    requires Allowed(s, run) && g < |s.gs| && Inside(s.gs[g].pc) && Stays(run, g)
    ensures var e := End(s, run);
      && g < |e.gs| && Inside(e.gs[g].pc)
      && (if s.gs[g].watch == Off then e.gs[g].watch == Off else e.gs[g].watch != Off)
    decreases |run|
  {
    hide Next;
    if run != [] {
      WatchStays(s, run[0], g);
      if run[0] == Fire(g) { FireNeedsAWatch(s, g); }
      assert Stays(run[1..], g);
      hide Enabled;
      RunWatches(Next(s, run[0]), run[1..], g);
    }
  }

  lemma FireNeedsAWatch(s: State, g: Gid)
    requires Enabled(s, Fire(g))
    ensures g < |s.gs| && s.gs[g].watch == Armed
  {
  }

  /** Whatever comes between: until it has returned from Park and cancelled its watcher, a Wait with a context that can
      be cancelled can be cancelled or has been, and one without cannot. */
  lemma WatchedUntilItLeaves(s: State, g: Gid, watched: bool, run: seq<Action>)
    requires Enabled(s, Enter(g, watched)) && Allowed(Next(s, Enter(g, watched)), run) && Stays(run, g)
    ensures var e := End(Next(s, Enter(g, watched)), run);
      && g < |e.gs| && Inside(e.gs[g].pc)
      && (watched <==> Enabled(e, Fire(g)) || e.gs[g].watch == Fired)
  {
    EnterWatches(s, g, watched);
    hide Next;
    RunWatches(Next(s, Enter(g, watched)), run, g);
  }

  lemma EnterWatches(s: State, g: Gid, watched: bool)
    requires Enabled(s, Enter(g, watched))
    ensures var s' := Next(s, Enter(g, watched));
      g < |s'.gs| && Inside(s'.gs[g].pc) && s'.gs[g].watch == if watched then Armed else Off
  {
  }

  // ---- what a waker holds it frees

  lemma HeldStays(s: State, a: Action, k: nat)
    requires Enabled(s, a) && k < |s.wakers|
    ensures k < |Next(s, a).wakers| && Next(s, a).wakers[k].held == s.wakers[k].held
  {
  }

  lemma {:induction false} RunHolds(s: State, run: seq<Action>, k: nat)
    requires Inv(s) && Allowed(s, run) && k < |s.wakers|
    ensures var e := End(s, run); Inv(e) && k < |e.wakers| && e.wakers[k].held == s.wakers[k].held
    decreases |run|
  {
    hide Inv, Next, Enabled;
    if run != [] {
      StepKeeps(s, run[0]);
      HeldStays(s, run[0], k);
      RunHolds(Next(s, run[0]), run[1..], k);
    }
  }

  /** e is dealt with: the parker has been through the pool, or it is woken and whoever is blocked on it is about to be
      made ready. */
  ghost predicate Freed(s: State, e: Entry)
  {
    && e.p < |s.ps|
    && (s.ps[e.p].era > e.era ||
        (s.ps[e.p].era == e.era && s.ps[e.p].state == Woken
         && forall g :: 0 <= g < |s.gs| && s.gs[g].pc == Blocked(e.p) ==> Roused(s, e.p)))
  }

  lemma HeldIsFreed(s: State, k: nat, e: Entry)
    requires Inv(s) && k < |s.wakers| && s.wakers[k].todo == {} && e in s.wakers[k].held
    ensures Freed(s, e)
  {
    HeldHolds(s, k, e);
    forall g | 0 <= g < |s.gs| && s.gs[g].pc == Blocked(e.p) ensures s.ps[e.p].state == Woken ==> Roused(s, e.p) {
      GorHolds(s, g);
    }
    hide Inv, Roused;
  }

  /** A Broadcast takes every parker on the list: once it has swapped them all, whatever comes between, each is dealt
      with. */
  lemma BroadcastFreesAll(s: State, w: Wid, run: seq<Action>, p: Pid)
    requires Reachable(s) && Enabled(s, Broadcast(w)) && p in s.lists[w] && Allowed(Next(s, Broadcast(w)), run)
    ensures var e, k := End(Next(s, Broadcast(w)), run), |s.wakers|;
      k < |e.wakers| && (e.wakers[k].todo == {} ==> Freed(e, Now(s, p)))
  {
    hide Inv, Reachable, Freed;
    var s1, k := Next(s, Broadcast(w)), |s.wakers|;
    ReachableHolds(s);
    StepKeeps(s, Broadcast(w));
    BroadcastHolds(s, w, p);
    RunHolds(s1, run, k);
    var e := End(s1, run);
    if e.wakers[k].todo == {} { HeldIsFreed(e, k, Now(s, p)); }
  }

  lemma BroadcastHolds(s: State, w: Wid, p: Pid)
    requires Enabled(s, Broadcast(w)) && p in s.lists[w]
    ensures var s1 := Next(s, Broadcast(w)); |s1.wakers| == |s.wakers| + 1 && Now(s, p) in s1.wakers[|s.wakers|].held
    ensures Next(s, Broadcast(w)).lists[w] == {}
  {
  }

  /** The watcher of a cancelled context takes the parker of its Wait: once it has swapped it, whatever comes between,
      it is dealt with. */
  lemma FireFreesItsWait(s: State, g: Gid, run: seq<Action>)
    requires Reachable(s) && Enabled(s, Fire(g)) && Allowed(Next(s, Fire(g)), run)
    ensures var e, k := End(Next(s, Fire(g)), run), |s.wakers|;
      k < |e.wakers| && (e.wakers[k].todo == {} ==> Freed(e, Now(s, OwnParker(s, g))))
  {
    hide Inv, Reachable, Freed;
    var s1, k := Next(s, Fire(g)), |s.wakers|;
    ReachableHolds(s);
    StepKeeps(s, Fire(g));
    FireHolds(s, g);
    RunHolds(s1, run, k);
    var e := End(s1, run);
    if e.wakers[k].todo == {} { HeldIsFreed(e, k, Now(s, OwnParker(s, g))); }
  }

  lemma FireHolds(s: State, g: Gid)
    requires Enabled(s, Fire(g))
    ensures var s1 := Next(s, Fire(g));
      |s1.wakers| == |s.wakers| + 1 && Now(s, OwnParker(s, g)) in s1.wakers[|s.wakers|].held
  {
  }

  // ---- nobody is forgotten

  /** How far a goroutine is from the end of its Wait. */
  function Place(pc: Pc): nat
  {
    match pc
    case Idle => 0
    case Registered(_) => 7
    case Parking(_) => 6
    case GSet(_) => 5
    case Blocked(_) => 4
    case Returned(_) => 3
    case Leaving(_, _) => 2
    case Putting(_) => 1
  }

  function Places(gs: seq<Gor>): nat
  {
    if gs == [] then 0 else Place(gs[0].pc) + Places(gs[1..])
  }

  /** What a waker has still to do. */
  function Load(w: Waker): nat
  {
    2 * |w.todo| + if w.ready.Some? then 1 else 0
  }

  function Loads(ws: seq<Waker>): nat
  {
    if ws == [] then 0 else Load(ws[0]) + Loads(ws[1..])
  }

  function Work(s: State): nat
  {
    Places(s.gs) + Loads(s.wakers)
  }

  lemma {:induction false} PlacesMove(gs: seq<Gor>, g: nat, x: Gor)
    requires g < |gs|
    ensures Places(gs[g := x]) == Places(gs) - Place(gs[g].pc) + Place(x.pc)
  {
    if g > 0 {
      PlacesMove(gs[1..], g - 1, x);
      assert gs[g := x][1..] == gs[1..][g - 1 := x];
    } else {
      assert gs[g := x][1..] == gs[1..];
    }
  }

  lemma {:induction false} LoadsMove(ws: seq<Waker>, k: nat, w: Waker)
    requires k < |ws|
    ensures Loads(ws[k := w]) == Loads(ws) - Load(ws[k]) + Load(w)
  {
    if k > 0 {
      LoadsMove(ws[1..], k - 1, w);
      assert ws[k := w][1..] == ws[1..][k - 1 := w];
    } else {
      assert ws[k := w][1..] == ws[1..];
    }
  }

  /** A step that goes on with something begun: not a new Wait, a new parker, a Broadcast or a cancellation. */
  predicate GoesOn(a: Action)
  {
    !a.Register? && !a.New? && !a.Broadcast? && !a.Fire?
  }

  /** Every such step leaves less to do, so without new Waits, Broadcasts and cancellations every run comes to rest. */
  lemma WorkGoesOn(s: State, a: Action)
    requires Inv(s) && Enabled(s, a) && GoesOn(a)
    ensures Work(Next(s, a)) < Work(s)
  {
    hide Inv, Places, Loads, Next;
    if a.Swap? {
      SwapIs(s, a.k, a.e);
      LoadsMove(s.wakers, a.k, Next(s, a).wakers[a.k]);
    } else if a.Ready? {
      ReadyIs(s, a.k);
      LoadsMove(s.wakers, a.k, Next(s, a).wakers[a.k]);
      PlacesMove(s.gs, Who(s, a), Next(s, a).gs[Who(s, a)]);
    } else {
      OwnIs(s, a);
      PlacesMove(s.gs, a.g, Next(s, a).gs[a.g]);
    }
  }

  lemma SwapIs(s: State, k: nat, e: Entry)
    requires Enabled(s, Swap(k, e))
    ensures var s' := Next(s, Swap(k, e));
      && s'.gs == s.gs && k < |s'.wakers| && s'.wakers == s.wakers[k := s'.wakers[k]]
      && Load(s'.wakers[k]) < Load(s.wakers[k])
  {
  }

  lemma ReadyIs(s: State, k: nat)
    requires Inv(s) && Enabled(s, Ready(k))
    ensures var s', g := Next(s, Ready(k)), Who(s, Ready(k));
      && k < |s'.wakers| && s'.wakers == s.wakers[k := s'.wakers[k]] && Load(s'.wakers[k]) < Load(s.wakers[k])
      && g < |s.gs| && s.gs[g].pc.Blocked? && s'.gs == s.gs[g := GorOf(s', g)] && GorOf(s', g).pc.Returned?
  {
    hide Inv, Roused;
    ReadyHolds(s, k);
    GorHolds(s, Who(s, Ready(k)));
  }

  lemma OwnIs(s: State, a: Action)
    requires Enabled(s, a) && GoesOn(a) && !a.Swap? && !a.Ready?
    ensures var s' := Next(s, a);
      && s'.wakers == s.wakers && a.g < |s.gs| && s'.gs == s.gs[a.g := GorOf(s', a.g)]
      && Place(GorOf(s', a.g).pc) < Place(s.gs[a.g].pc)
  {
  }

  /** Nothing that was begun can go on. */
  ghost predicate AtRest(s: State)
  {
    forall a :: GoesOn(a) ==> !Enabled(s, a)
  }

  /** ... and then nobody is forgotten: every goroutine is out of Wait or blocked on a parker that is parked, on its
      Waiter's list, and whose context has not been cancelled; so the next Broadcast will free it. */
  lemma AtRestNobodyIsForgotten(s: State, g: Gid)
    requires Reachable(s) && AtRest(s) && g < |s.gs| && s.gs[g].pc != Idle
    ensures var p := OwnParker(s, g);
      && s.gs[g].pc == Blocked(p) && s.gs[g].watch != Fired
      && p < |s.ps| && s.ps[p].state == Parked && Listed(s, p)
  {
    hide Reachable;
    NoneIsUnderWay(s, g);
    Fires(s, g);
    BlockedWillBeFound(s, g);
    WakersAreDone(s);
    assert !InTodo(s, Now(s, OwnParker(s, g)));
  }

  lemma NoneIsUnderWay(s: State, g: Gid)
    requires AtRest(s) && g < |s.gs|
    ensures s.gs[g].pc.Idle? || s.gs[g].pc.Blocked?
  {
    assert !Enabled(s, Enter(g, true)) && !Enabled(s, StoreG(g)) && !Enabled(s, Cas(g));
    assert !Enabled(s, Cancel(g)) && !Enabled(s, Unlist(g)) && !Enabled(s, Put(g));
    hide AtRest;
  }

  lemma WakersAreDone(s: State)
    requires AtRest(s)
    ensures forall k :: 0 <= k < |s.wakers| ==> s.wakers[k].todo == {} && s.wakers[k].ready == None
  {
    forall k | 0 <= k < |s.wakers| ensures s.wakers[k].todo == {} && s.wakers[k].ready == None {
      assert !Enabled(s, Ready(k));
      forall e ensures e !in s.wakers[k].todo { assert !Enabled(s, Swap(k, e)); }
    }
  }

  // ---- where parkers go

  /** Neither in the pool nor a goroutine's. */
  function Detached(s: State): set<Pid>
  {
    set p | 0 <= p < |s.ps| && !s.ps[p].pooled && s.ps[p].owner == None
  }

  /** The goroutines that are about to detach theirs. */
  function Detaching(s: State): set<Gid>
  {
    set g | 0 <= g < |s.gs| && s.gs[g].pc.Leaving? && !s.gs[g].pc.recycle
  }

  /** g leaves a Wait whose context was cancelled before it could stop the watcher. */
  predicate LeavesCancelled(s: State, a: Action)
  {
    a.Cancel? && GorOf(s, a.g).watch == Fired
  }

  function CancelledBy(s: State, run: seq<Action>): nat
    requires Allowed(s, run)
    decreases |run|
  {
    if run == [] then 0
    else (if LeavesCancelled(s, run[0]) then 1 else 0) + CancelledBy(Next(s, run[0]), run[1..])
  }

  lemma CancelMoves(s: State, g: Gid)
    requires Enabled(s, Cancel(g))
    ensures var s' := Next(s, Cancel(g));
      && Detached(s') == Detached(s) && g !in Detaching(s)
      && Detaching(s') == Detaching(s) + if s.gs[g].watch == Fired then {g} else {}
  {
  }

  lemma UnlistMoves(s: State, g: Gid)
    requires Inv(s) && Enabled(s, Unlist(g))
    ensures var s', p := Next(s, Unlist(g)), OwnParker(s, g);
      if s.gs[g].pc.recycle then Detached(s') == Detached(s) && Detaching(s') == Detaching(s)
      else p !in Detached(s) && Detached(s') == Detached(s) + {p}
           && g in Detaching(s) && Detaching(s') == Detaching(s) - {g}
  {
    GorHolds(s, g);
    hide Inv, Roused;
  }

  /** No other step takes a goroutine to or from the point of detaching, ... */
  lemma OthersDecideNothing(s: State, a: Action, g: Gid)
    requires Inv(s) && Enabled(s, a) && !a.Cancel? && !a.Unlist?
    ensures GorOf(Next(s, a), g).pc.Leaving? || GorOf(s, g).pc.Leaving? ==> GorOf(Next(s, a), g).pc == GorOf(s, g).pc
  {
    if a.Ready? {
      ReadyHolds(s, a.k);
      GorHolds(s, Who(s, a));
    }
    hide Inv, Roused, Due, Listed, Done;
  }

  /** ... or detaches a parker. */
  lemma OthersLeaveParkers(s: State, a: Action, p: Pid)
    requires Inv(s) && Enabled(s, a) && !a.Unlist?
    ensures var s' := Next(s, a);
      && |s.ps| <= |s'.ps| && (|s.ps| <= p < |s'.ps| ==> s'.ps[p].pooled)
      && (p < |s.ps| ==> (s'.ps[p].pooled || s'.ps[p].owner.Some? <==> s.ps[p].pooled || s.ps[p].owner.Some?))
  {
    if !ByWaker(a) { GorHolds(s, Who(s, a)); }
    hide Inv, Roused, Due, Listed, Done;
  }

  lemma OthersDetachNothing(s: State, a: Action)
    requires Inv(s) && Enabled(s, a) && !a.Cancel? && !a.Unlist?
    ensures Detached(Next(s, a)) == Detached(s) && Detaching(Next(s, a)) == Detaching(s)
  {
    hide Inv, Next, Enabled;
    SameGoroutines(s, a);
    forall g: nat ensures g in Detaching(Next(s, a)) <==> g in Detaching(s) { OthersDecideNothing(s, a, g); }
    OthersLeaveParkers(s, a, 0);
    forall p: nat ensures p in Detached(Next(s, a)) <==> p in Detached(s) { OthersLeaveParkers(s, a, p); }
  }

  lemma StepDetaches(s: State, a: Action)
    requires Inv(s) && Enabled(s, a)
    ensures var s' := Next(s, a);
      |Detached(s')| + |Detaching(s')| == |Detached(s)| + |Detaching(s)| + if LeavesCancelled(s, a) then 1 else 0
  {
    hide Inv, Next, Detached, Detaching;
    if a.Cancel? {
      CancelMoves(s, a.g);
    } else if a.Unlist? {
      UnlistMoves(s, a.g);
    } else {
      OthersDetachNothing(s, a);
    }
  }

  lemma {:induction false} RunDetaches(s: State, run: seq<Action>)
    requires Inv(s) && Allowed(s, run)
    ensures var e := End(s, run);
      Inv(e) && |Detached(e)| + |Detaching(e)| == |Detached(s)| + |Detaching(s)| + CancelledBy(s, run)
    decreases |run|
  {
    hide Inv, Next, Enabled, Detached, Detaching, LeavesCancelled;
    if run != [] {
      StepKeeps(s, run[0]);
      StepDetaches(s, run[0]);
      RunDetaches(Next(s, run[0]), run[1..]);
    }
  }

  /** Over any run just the Waits whose contexts were cancelled cost the pool their parkers: as many are detached, or
      about to be. Once everybody has left Wait, every other parker is back in the pool and as good as new. */
  lemma PoolLosesOnlyTheCancelled(goroutines: nat, waiters: nat, run: seq<Action>, p: Pid)
    requires Allowed(Start(goroutines, waiters), run)
    ensures var e := End(Start(goroutines, waiters), run);
      && |Detached(e)| + |Detaching(e)| == CancelledBy(Start(goroutines, waiters), run)
      && (p < |e.ps| && p !in Detached(e) && (forall g :: 0 <= g < |e.gs| ==> e.gs[g].pc == Idle) ==>
            e.ps[p].pooled && e.ps[p].state == Init && e.ps[p].owner == None)
  {
    StartHolds(goroutines, waiters);
    var s := Start(goroutines, waiters);
    assert Detached(s) == {} && Detaching(s) == {};
    hide Inv, Next, Enabled;
    RunDetaches(s, run);
    ParkerHolds(End(s, run), p);
  }
}
