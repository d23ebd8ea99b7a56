/** The park/wake protocol and the Wait built on it, step by step: every step is one atomic action of one
    goroutine, and a run is any interleaving of them. */
module Parkers {
  import opened Basics

  const NEW := Parker(Init, None, None, None, true, 0)

  type Pid = nat  // parkers
  type Gid = nat  // goroutines that call Wait
  type Wid = nat  // Waiters, one per Signal

  datatype PState = Init | Parked | Woken

  /** `era` counts how often the parker has been through the pool. A parker is pooled, or owned by the
      goroutine that registered it, or detached: neither, for good. */
  datatype Parker = Parker(state: PState, g: Option<Gid>, waiter: Option<Wid>,
                           owner: Option<Gid>, pooled: bool, era: nat)

  /** Where a goroutine is in Wait. */
  datatype Pc =
    | Idle
    | Registered(p: Pid)            // Register returned
    | Parking(p: Pid)               // in Park, before unlockf
    | GSet(p: Pid)                  // unlockf stored g, before its compare-and-swap
    | Blocked(p: Pid)               // the swap succeeded; only goready gets it out
    | Returned(p: Pid)              // Park returned
    | Leaving(p: Pid, recycle: bool)  // cancel() has decided between Release and Detach
    | Putting(p: Pid)               // Release, off the Waiter's list, before the pool's Put

  /** The context watcher of the current Wait: not registered or stopped, armed, or fired. */
  datatype Watch = Off | Armed | Fired

  datatype Gor = Gor(pc: Pc, watch: Watch)

  datatype Entry = Entry(p: Pid, era: nat)

  /** A call of Broadcast, or the Wake a fired watcher makes: the parkers it has yet to swap, the one it
      swapped out of Parked and has yet to make ready, and all it ever held. */
  datatype Waker = Waker(bcast: bool, todo: set<Entry>, ready: Option<Entry>, held: set<Entry>)

  datatype State = State(gs: seq<Gor>, ps: seq<Parker>, lists: seq<set<Pid>>, wakers: seq<Waker>)

  datatype Action =
    | Register(g: Gid, w: Wid, p: Pid)
    | New                            // the pool allocates a parker
    | Enter(g: Gid, watched: bool)   // AfterFunc if the context can be cancelled, then Park
    | Fire(g: Gid)                   // the context is cancelled
    | StoreG(g: Gid)
    | Cas(g: Gid)
    | Broadcast(w: Wid)              // take the list
    | Swap(k: nat, e: Entry)
    | Ready(k: nat)
    | Cancel(g: Gid)
    | Unlist(g: Gid)
    | Put(g: Gid)

  // Reads and writes by id. Every id that occurs in a state that can arise is in range; see Inv.

  function GorOf(s: State, g: Gid): Gor
  {
    if g < |s.gs| then s.gs[g] else Gor(Idle, Off)
  }

  function ParkerOf(s: State, p: Pid): Parker
  {
    if p < |s.ps| then s.ps[p] else NEW
  }

  function ListOf(s: State, w: Wid): set<Pid>
  {
    if w < |s.lists| then s.lists[w] else {}
  }

  function OwnParker(s: State, g: Gid): Pid
  {
    if GorOf(s, g).pc == Idle then 0 else GorOf(s, g).pc.p
  }

  function Now(s: State, p: Pid): Entry
  {
    Entry(p, ParkerOf(s, p).era)
  }

  function SetG(s: State, g: Gid, x: Gor): State
  {
    if g < |s.gs| then s.(gs := s.gs[g := x]) else s
  }

  function Move(s: State, g: Gid, pc: Pc): State
  {
    SetG(s, g, GorOf(s, g).(pc := pc))
  }

  function SetP(s: State, p: Pid, x: Parker): State
  {
    if p < |s.ps| then s.(ps := s.ps[p := x]) else s
  }

  function SetL(s: State, w: Wid, x: set<Pid>): State
  {
    if w < |s.lists| then s.(lists := s.lists[w := x]) else s
  }

  predicate Enabled(s: State, a: Action)
  {
    match a
    case Register(g, w, p) => g < |s.gs| && s.gs[g].pc == Idle && w < |s.lists| && p < |s.ps| && s.ps[p].pooled
    case New => true
    case Enter(g, _) => g < |s.gs| && s.gs[g].pc.Registered?
    case Fire(g) => g < |s.gs| && s.gs[g].watch == Armed
    case StoreG(g) => g < |s.gs| && s.gs[g].pc.Parking?
    case Cas(g) => g < |s.gs| && s.gs[g].pc.GSet?
    case Broadcast(w) => w < |s.lists|
    case Swap(k, e) => k < |s.wakers| && s.wakers[k].ready == None && e in s.wakers[k].todo
    case Ready(k) => k < |s.wakers| && s.wakers[k].ready.Some?
    case Cancel(g) => g < |s.gs| && s.gs[g].pc.Returned?
    case Unlist(g) => g < |s.gs| && s.gs[g].pc.Leaving?
    case Put(g) => g < |s.gs| && s.gs[g].pc.Putting?
  }

  function Next(s: State, a: Action): State
    requires Enabled(s, a)
  {
    match a
    case Register(g, w, p) =>
      var s1 := Move(s, g, Registered(p));
      SetL(SetP(s1, p, ParkerOf(s, p).(owner := Some(g), waiter := Some(w), pooled := false)), w, ListOf(s, w) + {p})
    case New =>
      s.(ps := s.ps + [NEW])
    case Enter(g, watched) =>
      SetG(s, g, Gor(Parking(OwnParker(s, g)), if watched then Armed else Off))
    case Fire(g) =>
      var e := Now(s, OwnParker(s, g));
      SetG(s, g, GorOf(s, g).(watch := Fired)).(wakers := s.wakers + [Waker(false, {e}, None, {e})])
    case StoreG(g) =>
      var p := OwnParker(s, g);
      SetP(Move(s, g, GSet(p)), p, ParkerOf(s, p).(g := Some(g)))
    case Cas(g) =>
      var p := OwnParker(s, g);
      if ParkerOf(s, p).state == Init then SetP(Move(s, g, Blocked(p)), p, ParkerOf(s, p).(state := Parked))
      else Move(s, g, Returned(p))
    case Broadcast(w) =>
      var es := set p | p in ListOf(s, w) :: Now(s, p);
      SetL(s, w, {}).(wakers := s.wakers + [Waker(true, es, None, es)])
    case Swap(k, e) =>
      var ready := if ParkerOf(s, e.p).state == Parked then Some(e) else None;
      var x := s.wakers[k].(todo := s.wakers[k].todo - {e}, ready := ready);
      SetP(s, e.p, ParkerOf(s, e.p).(state := Woken)).(wakers := s.wakers[k := x])
    case Ready(k) =>
      var p := s.wakers[k].ready.value.p;
      var s1 := s.(wakers := s.wakers[k := s.wakers[k].(ready := None)]);
      if ParkerOf(s, p).g.Some? then Move(s1, ParkerOf(s, p).g.value, Returned(p)) else s1
    case Cancel(g) =>
      var stopped := GorOf(s, g).watch != Fired;
      SetG(s, g, Gor(Leaving(OwnParker(s, g), stopped), if stopped then Off else Fired))
    case Unlist(g) =>
      var p := OwnParker(s, g);
      var s1 := if ParkerOf(s, p).waiter == None then s
                else SetL(s, ParkerOf(s, p).waiter.value, ListOf(s, ParkerOf(s, p).waiter.value) - {p});
      if GorOf(s, g).pc.recycle then Move(s1, g, Putting(p))
      else SetP(SetG(s1, g, Gor(Idle, Off)), p, ParkerOf(s, p).(waiter := None, owner := None))
    case Put(g) =>
      var p := OwnParker(s, g);
      SetP(SetG(s, g, Gor(Idle, Off)), p, NEW.(era := ParkerOf(s, p).era + 1))
  }

  // ---- the invariant, one reference at a time

  /** A goroutine in Wait owns its parker, and its place in Wait says how far the parker has come. One still
      blocked on a woken parker is about to be made ready. */
  ghost predicate GorOk(s: State, g: Gid)
  {
    g < |s.gs| ==>
      var x, p := s.gs[g], ParkerOf(s, OwnParker(s, g));
      && ((x.pc.Idle? || x.pc.Registered?) ==> x.watch == Off)
      && (x.pc != Idle ==>
            && OwnParker(s, g) < |s.ps| && p.owner == Some(g) && !p.pooled
            && p.waiter.Some? && p.waiter.value < |s.lists|
            && ((x.pc.Registered? || x.pc.Parking? || x.pc.GSet?) ==> p.state != Parked)
            && ((x.pc.GSet? || x.pc.Blocked?) ==> p.g == Some(g))
            && ((x.pc.Returned? || x.pc.Leaving? || x.pc.Putting?) ==> p.state == Woken)
            && (x.pc.Leaving? ==> x.watch == if x.pc.recycle then Off else Fired)
            && (x.pc.Putting? ==> x.watch == Off)
            && (x.pc.Blocked? ==> p.state != Init && (p.state == Woken ==> Roused(s, OwnParker(s, g)))))
  }

  ghost predicate Roused(s: State, p: Pid)
  {
    exists k :: 0 <= k < |s.wakers| && s.wakers[k].ready == Some(Now(s, p))
  }

  /** A parker is pooled, or owned, or detached; one not woken yet will be found by a Broadcast. */
  ghost predicate ParkerOk(s: State, p: Pid)
  {
    p < |s.ps| ==>
      var x := s.ps[p];
      && (x.pooled ==> x.state == Init && x.owner == None)
      && (x.owner == None && !x.pooled ==> x.state == Woken && x.waiter == None)
      && (x.owner.Some? ==>
            x.owner.value < |s.gs| && GorOf(s, x.owner.value).pc != Idle && OwnParker(s, x.owner.value) == p)
      && (x.owner.Some? && x.state != Woken ==> Listed(s, p) || Due(s, p))
  }

  ghost predicate Listed(s: State, p: Pid)
  {
    ParkerOf(s, p).waiter.Some? && p in ListOf(s, ParkerOf(s, p).waiter.value)
  }

  /** Some call of Broadcast is yet to swap p. */
  ghost predicate Due(s: State, p: Pid)
  {
    exists k :: 0 <= k < |s.wakers| && s.wakers[k].bcast && Now(s, p) in s.wakers[k].todo
  }

  /** p is woken and its watcher has not fired: nobody but its goroutine refers to it. */
  ghost predicate Done(s: State, p: Pid)
  {
    ParkerOf(s, p).owner.Some? && ParkerOf(s, p).state == Woken && GorOf(s, ParkerOf(s, p).owner.value).watch != Fired
  }

  ghost predicate ListOk(s: State, w: Wid, p: Pid)
  {
    w < |s.lists| && p in s.lists[w] ==>
      p < |s.ps| && s.ps[p].waiter == Some(w) && s.ps[p].owner.Some? && !Done(s, p)
  }

  /** Whatever a waker is yet to swap is out of the pool and of the era the waker met. */
  ghost predicate TodoOk(s: State, k: nat, e: Entry)
  {
    k < |s.wakers| && e in s.wakers[k].todo ==>
      && e in s.wakers[k].held
      && e.p < |s.ps| && e == Now(s, e.p) && !s.ps[e.p].pooled && !Done(s, e.p)
      && (s.wakers[k].bcast ==> !Listed(s, e.p))
      && (!s.wakers[k].bcast && s.ps[e.p].owner.Some? ==> GorOf(s, s.ps[e.p].owner.value).watch == Fired)
  }

  /** Whoever is about to be made ready is blocked on that parker, in the same era. */
  ghost predicate ReadyOk(s: State, k: nat)
  {
    k < |s.wakers| && s.wakers[k].ready.Some? ==>
      var e := s.wakers[k].ready.value;
      var x := ParkerOf(s, e.p);
      && e.p < |s.ps| && e == Now(s, e.p) && x.state == Woken
      && x.owner.Some? && x.owner.value < |s.gs| && GorOf(s, x.owner.value).pc == Blocked(e.p)
  }

  /** What a waker has dealt with is woken, or has gone through the pool since. */
  ghost predicate HeldOk(s: State, k: nat, e: Entry)
  {
    k < |s.wakers| && e in s.wakers[k].held && e !in s.wakers[k].todo ==>
      var x := ParkerOf(s, e.p);
      e.p < |s.ps| && (x.era > e.era || (x.era == e.era && x.state == Woken))
  }

  /** Two Broadcasts never hold the same parker, and no two wakers are about to make the same one ready. */
  ghost predicate PairOk(s: State, j: nat, k: nat, e: Entry)
  {
    j < |s.wakers| && k < |s.wakers| && j != k ==>
      && (s.wakers[j].bcast && s.wakers[k].bcast && e in s.wakers[j].todo ==> e !in s.wakers[k].todo)
      && (s.wakers[j].ready == Some(e) ==> s.wakers[k].ready != Some(e))
  }

  ghost predicate Inv(s: State)
  {
    && (forall g :: GorOk(s, g))
    && (forall p :: ParkerOk(s, p))
    && (forall w, p :: ListOk(s, w, p))
    && (forall k, e :: TodoOk(s, k, e))
    && (forall k :: ReadyOk(s, k))
    && (forall k, e :: HeldOk(s, k, e))
    && (forall j, k, e :: PairOk(s, j, k, e))
  }

  /** The goroutine and the parker a step is about. */
  function Who(s: State, a: Action): Gid
    requires Enabled(s, a)
  {
    match a
    case Swap(_, e) => ParkerOf(s, e.p).owner.GetOr(0)
    case Ready(k) => ParkerOf(s, s.wakers[k].ready.value.p).owner.GetOr(0)
    case New => 0
    case Broadcast(_) => 0
    case _ => a.g
  }

  function Which(s: State, a: Action): Pid
    requires Enabled(s, a)
  {
    match a
    case Register(_, _, p) => p
    case Swap(_, e) => e.p
    case New => |s.ps|
    case Broadcast(_) => 0
    case _ => OwnParker(s, Who(s, a))
  }

  // The invariant, an instance at a time.

  lemma GorHolds(s: State, g: Gid)
    requires Inv(s)
    ensures GorOk(s, g)
  {
  }

  lemma ParkerHolds(s: State, p: Pid)
    requires Inv(s)
    ensures ParkerOk(s, p)
  {
  }

  lemma ListHolds(s: State, w: Wid, p: Pid)
    requires Inv(s)
    ensures ListOk(s, w, p)
  {
  }

  lemma TodoHolds(s: State, k: nat, e: Entry)
    requires Inv(s)
    ensures TodoOk(s, k, e)
  {
  }

  lemma ReadyHolds(s: State, k: nat)
    requires Inv(s)
    ensures ReadyOk(s, k)
  {
  }

  lemma HeldHolds(s: State, k: nat, e: Entry)
    requires Inv(s)
    ensures HeldOk(s, k, e)
  {
  }

  lemma PairHolds(s: State, j: nat, k: nat, e: Entry)
    requires Inv(s)
    ensures PairOk(s, j, k, e)
  {
  }

  // Each part of the invariant survives every step; the steps of wakers and those of waiting goroutines apart.

  predicate ByWaker(a: Action)
  {
    a.Broadcast? || a.Swap? || a.Ready? || a.Fire? || a.New?
  }

  /** The steps of a Wait up to the Park; the rest of its own steps leave. */
  predicate Entering(a: Action)
  {
    a.Register? || a.Enter? || a.StoreG? || a.Cas?
  }

  lemma RousedKept(s: State, a: Action, p: Pid)
    requires Enabled(s, a) && Roused(s, p) && p < |s.ps| && Now(Next(s, a), p) == Now(s, p)
    requires a.Ready? ==> s.wakers[a.k].ready != Some(Now(s, p))
    ensures Roused(Next(s, a), p)
  {
    var k :| 0 <= k < |s.wakers| && s.wakers[k].ready == Some(Now(s, p));
    assert Next(s, a).wakers[k].ready == Some(Now(s, p));
  }

  lemma DueKept(s: State, a: Action, p: Pid)
    requires Enabled(s, a) && Due(s, p) && p < |s.ps| && Now(Next(s, a), p) == Now(s, p)
    requires a.Swap? ==> a.e != Now(s, p)
    ensures Due(Next(s, a), p)
  {
    var k :| 0 <= k < |s.wakers| && s.wakers[k].bcast && Now(s, p) in s.wakers[k].todo;
    assert Now(s, p) in Next(s, a).wakers[k].todo;
  }

  lemma GorKeptBySwap(s: State, a: Action, g: Gid)
    requires Inv(s) && Enabled(s, a) && a.Swap?
    ensures GorOk(Next(s, a), g)
  {
    hide Inv, Roused, Due, Listed, Done;
    var h, q, p := Who(s, a), Which(s, a), OwnParker(s, g);
    GorHolds(s, g);
    GorHolds(s, h);
    ParkerHolds(s, q);
    ParkerHolds(s, p);
    TodoHolds(s, a.k, a.e);
    if ParkerOf(s, a.e.p).state == Parked { SwapRouses(s, a.k, a.e); }
    if Roused(s, p) && g < |s.gs| && GorOf(s, g).pc.Blocked? {
      RousedKept(s, a, p);
    }
  }

  lemma GorKeptByReady(s: State, a: Action, g: Gid)
    requires Inv(s) && Enabled(s, a) && a.Ready?
    ensures GorOk(Next(s, a), g)
  {
    hide Inv, Roused, Due, Listed, Done;
    var h, q, p := Who(s, a), Which(s, a), OwnParker(s, g);
    GorHolds(s, g);
    GorHolds(s, h);
    ParkerHolds(s, q);
    ParkerHolds(s, p);
    ReadyHolds(s, a.k);
    if Roused(s, p) && g < |s.gs| && GorOf(s, g).pc.Blocked? && s.wakers[a.k].ready != Some(Now(s, p)) {
      RousedKept(s, a, p);
    }
  }

  lemma GorKeptByNewcomer(s: State, a: Action, g: Gid)
    requires Inv(s) && Enabled(s, a) && (a.Broadcast? || a.Fire? || a.New?)
    ensures GorOk(Next(s, a), g)
  {
    hide Inv, Roused, Due, Listed, Done;
    var h, q, p := Who(s, a), Which(s, a), OwnParker(s, g);
    GorHolds(s, g);
    GorHolds(s, h);
    ParkerHolds(s, q);
    ParkerHolds(s, p);
    if Roused(s, p) && g < |s.gs| && GorOf(s, g).pc.Blocked? {
      RousedKept(s, a, p);
    }
  }

  lemma GorKeptByWaker(s: State, a: Action, g: Gid)
    requires Inv(s) && Enabled(s, a) && ByWaker(a)
    ensures GorOk(Next(s, a), g)
  {
    hide Inv, Next;
    if a.Swap? {
      GorKeptBySwap(s, a, g);
    } else if a.Ready? {
      GorKeptByReady(s, a, g);
    } else {
      GorKeptByNewcomer(s, a, g);
    }
  }

  lemma GorKeptByOwn(s: State, a: Action, g: Gid)
    requires Inv(s) && Enabled(s, a) && !ByWaker(a)
    ensures GorOk(Next(s, a), g)
  {
    hide Inv;
    if g == Who(s, a) { GorKeptByItself(s, a); } else { GorKeptByOther(s, a, g); }
  }

  lemma GorKeptByItself(s: State, a: Action)
    requires Inv(s) && Enabled(s, a) && !ByWaker(a)
    ensures GorOk(Next(s, a), Who(s, a))
  {
    hide Inv, Roused, Due, Listed, Done;
    var h, q := Who(s, a), Which(s, a);
    GorHolds(s, h);
    ParkerHolds(s, q);
    ParkerHolds(s, OwnParker(s, h));
  }

  lemma OtherGorKeptByRegister(s: State, a: Action, g: Gid)
    requires Inv(s) && Enabled(s, a) && a.Register? && g != Who(s, a)
    ensures GorOk(Next(s, a), g)
  {
    hide Inv, Roused, Due, Listed, Done;
    var h, q, p := Who(s, a), Which(s, a), OwnParker(s, g);
    GorHolds(s, g);
    GorHolds(s, h);
    ParkerHolds(s, q);
    ParkerHolds(s, p);
    if Roused(s, p) && g < |s.gs| && GorOf(s, g).pc.Blocked? { RousedKept(s, a, p); }
  }

  lemma OtherGorKeptByParking(s: State, a: Action, g: Gid)
    requires Inv(s) && Enabled(s, a) && Entering(a) && !a.Register? && g != Who(s, a)
    ensures GorOk(Next(s, a), g)
  {
    hide Inv, Roused, Due, Listed, Done;
    var h, q, p := Who(s, a), Which(s, a), OwnParker(s, g);
    GorHolds(s, g);
    GorHolds(s, h);
    ParkerHolds(s, q);
    ParkerHolds(s, p);
    if Roused(s, p) && g < |s.gs| && GorOf(s, g).pc.Blocked? { RousedKept(s, a, p); }
  }

  lemma OtherGorKeptByEntering(s: State, a: Action, g: Gid)
    requires Inv(s) && Enabled(s, a) && Entering(a) && g != Who(s, a)
    ensures GorOk(Next(s, a), g)
  {
    hide Inv, Next;
    if a.Register? {
      OtherGorKeptByRegister(s, a, g);
    } else {
      OtherGorKeptByParking(s, a, g);
    }
  }

  lemma OtherGorKeptByLeaving(s: State, a: Action, g: Gid)
    requires Inv(s) && Enabled(s, a) && !ByWaker(a) && !Entering(a) && g != Who(s, a)
    ensures GorOk(Next(s, a), g)
  {
    hide Inv, Roused, Due, Listed, Done;
    var h, q, p := Who(s, a), Which(s, a), OwnParker(s, g);
    GorHolds(s, g);
    GorHolds(s, h);
    ParkerHolds(s, q);
    ParkerHolds(s, p);
    if Roused(s, p) && g < |s.gs| && GorOf(s, g).pc.Blocked? { RousedKept(s, a, p); }
  }

  lemma GorKeptByOther(s: State, a: Action, g: Gid)
    requires Inv(s) && Enabled(s, a) && !ByWaker(a) && g != Who(s, a)
    ensures GorOk(Next(s, a), g)
  {
    hide Inv, Next;
    if Entering(a) {
      OtherGorKeptByEntering(s, a, g);
    } else {
      OtherGorKeptByLeaving(s, a, g);
    }
  }

  lemma SwapRouses(s: State, k: nat, e: Entry)
    requires Enabled(s, Swap(k, e)) && ParkerOf(s, e.p).state == Parked && e == Now(s, e.p)
    ensures Roused(Next(s, Swap(k, e)), e.p)
  {
    assert Next(s, Swap(k, e)).wakers[k].ready == Some(Now(Next(s, Swap(k, e)), e.p));
  }

  lemma BroadcastDue(s: State, w: Wid, p: Pid)
    requires Enabled(s, Broadcast(w)) && p in ListOf(s, w)
    ensures Due(Next(s, Broadcast(w)), p)
  {
    var k := |s.wakers|;
    assert Now(Next(s, Broadcast(w)), p) in Next(s, Broadcast(w)).wakers[k].todo;
  }

  lemma ParkerKeptBySwap(s: State, a: Action, p: Pid)
    requires Inv(s) && Enabled(s, a) && a.Swap?
    ensures ParkerOk(Next(s, a), p)
  {
    hide Inv, Roused, Due, Done;
    var h, q := Who(s, a), Which(s, a);
    GorHolds(s, h);
    ParkerHolds(s, q);
    ParkerHolds(s, p);
    if p < |s.ps| {
      if ParkerOf(s, p).owner.Some? { GorHolds(s, ParkerOf(s, p).owner.value); }
      TodoHolds(s, a.k, a.e);
      if Due(s, p) && p != a.e.p { DueKept(s, a, p); }
    }
  }

  lemma ParkerKeptByReady(s: State, a: Action, p: Pid)
    requires Inv(s) && Enabled(s, a) && a.Ready?
    ensures ParkerOk(Next(s, a), p)
  {
    hide Inv, Roused, Due, Done;
    var h, q := Who(s, a), Which(s, a);
    GorHolds(s, h);
    ParkerHolds(s, q);
    ParkerHolds(s, p);
    if p < |s.ps| {
      if ParkerOf(s, p).owner.Some? { GorHolds(s, ParkerOf(s, p).owner.value); }
      ReadyHolds(s, a.k);
      if Due(s, p) { DueKept(s, a, p); }
    }
  }

  lemma ParkerKeptByNewcomer(s: State, a: Action, p: Pid)
    requires Inv(s) && Enabled(s, a) && (a.Broadcast? || a.Fire? || a.New?)
    ensures ParkerOk(Next(s, a), p)
  {
    hide Inv, Roused, Due, Done;
    var h, q := Who(s, a), Which(s, a);
    GorHolds(s, h);
    ParkerHolds(s, q);
    ParkerHolds(s, p);
    if p < |s.ps| {
      if ParkerOf(s, p).owner.Some? { GorHolds(s, ParkerOf(s, p).owner.value); }
      if a.Broadcast? && p in ListOf(s, a.w) { BroadcastDue(s, a.w, p); }
      if Due(s, p) { DueKept(s, a, p); }
    }
  }

  lemma ParkerKeptByWaker(s: State, a: Action, p: Pid)
    requires Inv(s) && Enabled(s, a) && ByWaker(a)
    ensures ParkerOk(Next(s, a), p)
  {
    hide Inv, Next;
    if a.Swap? {
      ParkerKeptBySwap(s, a, p);
    } else if a.Ready? {
      ParkerKeptByReady(s, a, p);
    } else {
      ParkerKeptByNewcomer(s, a, p);
    }
  }

  lemma ParkerKeptByRegister(s: State, a: Action, p: Pid)
    requires Inv(s) && Enabled(s, a) && a.Register?
    ensures ParkerOk(Next(s, a), p)
  {
    hide Inv, Roused, Due, Done;
    var h, q := Who(s, a), Which(s, a);
    GorHolds(s, h);
    ParkerHolds(s, q);
    ParkerHolds(s, p);
    if p < |s.ps| {
      if ParkerOf(s, p).owner.Some? { GorHolds(s, ParkerOf(s, p).owner.value); }
      if Due(s, p) { DueKept(s, a, p); }
    }
  }

  lemma ParkerKeptByParking(s: State, a: Action, p: Pid)
    requires Inv(s) && Enabled(s, a) && Entering(a) && !a.Register?
    ensures ParkerOk(Next(s, a), p)
  {
    hide Inv, Roused, Due, Done;
    var h, q := Who(s, a), Which(s, a);
    GorHolds(s, h);
    ParkerHolds(s, q);
    ParkerHolds(s, p);
    if p < |s.ps| {
      if ParkerOf(s, p).owner.Some? { GorHolds(s, ParkerOf(s, p).owner.value); }
      if Due(s, p) { DueKept(s, a, p); }
    }
  }

  lemma ParkerKeptByEntering(s: State, a: Action, p: Pid)
    requires Inv(s) && Enabled(s, a) && Entering(a)
    ensures ParkerOk(Next(s, a), p)
  {
    hide Inv, Next;
    if a.Register? {
      ParkerKeptByRegister(s, a, p);
    } else {
      ParkerKeptByParking(s, a, p);
    }
  }

  lemma ParkerKeptByLeaving(s: State, a: Action, p: Pid)
    requires Inv(s) && Enabled(s, a) && !ByWaker(a) && !Entering(a)
    ensures ParkerOk(Next(s, a), p)
  {
    hide Inv, Roused, Due, Done;
    var h, q := Who(s, a), Which(s, a);
    GorHolds(s, h);
    ParkerHolds(s, q);
    ParkerHolds(s, p);
    if p < |s.ps| {
      if ParkerOf(s, p).owner.Some? { GorHolds(s, ParkerOf(s, p).owner.value); }
      if Due(s, p) && (a.Put? ==> p != q) { DueKept(s, a, p); }
    }
  }

  lemma ParkerKeptByOwn(s: State, a: Action, p: Pid)
    requires Inv(s) && Enabled(s, a) && !ByWaker(a)
    ensures ParkerOk(Next(s, a), p)
  {
    hide Inv, Next;
    if Entering(a) {
      ParkerKeptByEntering(s, a, p);
    } else {
      ParkerKeptByLeaving(s, a, p);
    }
  }

  lemma ListKeptByWaker(s: State, a: Action, w: Wid, p: Pid)
    requires Inv(s) && Enabled(s, a) && ByWaker(a)
    ensures ListOk(Next(s, a), w, p)
  {
    hide Inv, Roused, Due;
    var h, q := Who(s, a), Which(s, a);
    GorHolds(s, h);
    ParkerHolds(s, q);
    ParkerHolds(s, p);
    ListHolds(s, w, p);
    if a.Swap? { TodoHolds(s, a.k, a.e); }
    if a.Ready? { ReadyHolds(s, a.k); }
  }

  lemma ListKeptByEntering(s: State, a: Action, w: Wid, p: Pid)
    requires Inv(s) && Enabled(s, a) && Entering(a)
    ensures ListOk(Next(s, a), w, p)
  {
    hide Inv, Roused, Due;
    var h, q := Who(s, a), Which(s, a);
    GorHolds(s, h);
    ParkerHolds(s, q);
    ParkerHolds(s, p);
    ListHolds(s, w, p);
  }

  lemma ListKeptByLeaving(s: State, a: Action, w: Wid, p: Pid)
    requires Inv(s) && Enabled(s, a) && !ByWaker(a) && !Entering(a)
    ensures ListOk(Next(s, a), w, p)
  {
    hide Inv, Roused, Due;
    var h, q := Who(s, a), Which(s, a);
    GorHolds(s, h);
    ParkerHolds(s, q);
    ParkerHolds(s, p);
    ListHolds(s, w, p);
  }

  lemma ListKept(s: State, a: Action, w: Wid, p: Pid)
    requires Inv(s) && Enabled(s, a)
    ensures ListOk(Next(s, a), w, p)
  {
    hide Inv, Next;
    if ByWaker(a) {
      ListKeptByWaker(s, a, w, p);
    } else if Entering(a) {
      ListKeptByEntering(s, a, w, p);
    } else {
      ListKeptByLeaving(s, a, w, p);
    }
  }

  lemma TodoKeptBySwap(s: State, a: Action, k: nat, e: Entry)
    requires Inv(s) && Enabled(s, a) && a.Swap?
    ensures TodoOk(Next(s, a), k, e)
  {
    hide Inv, Roused, Due;
    var h, q := Who(s, a), Which(s, a);
    GorHolds(s, h);
    ParkerHolds(s, q);
    ParkerHolds(s, e.p);
    TodoHolds(s, k, e);
    TodoHolds(s, a.k, a.e); PairHolds(s, a.k, k, a.e);
  }

  lemma TodoKeptByReady(s: State, a: Action, k: nat, e: Entry)
    requires Inv(s) && Enabled(s, a) && a.Ready?
    ensures TodoOk(Next(s, a), k, e)
  {
    hide Inv, Roused, Due;
    var h, q := Who(s, a), Which(s, a);
    GorHolds(s, h);
    ParkerHolds(s, q);
    ParkerHolds(s, e.p);
    TodoHolds(s, k, e);
    ReadyHolds(s, a.k);
  }

  lemma TodoKeptByNewcomer(s: State, a: Action, k: nat, e: Entry)
    requires Inv(s) && Enabled(s, a) && (a.Broadcast? || a.Fire? || a.New?)
    ensures TodoOk(Next(s, a), k, e)
  {
    hide Inv, Roused, Due;
    var h, q := Who(s, a), Which(s, a);
    GorHolds(s, h);
    ParkerHolds(s, q);
    ParkerHolds(s, e.p);
    TodoHolds(s, k, e);
    if a.Broadcast? { ListHolds(s, a.w, e.p); }
  }

  lemma TodoKeptByWaker(s: State, a: Action, k: nat, e: Entry)
    requires Inv(s) && Enabled(s, a) && ByWaker(a)
    ensures TodoOk(Next(s, a), k, e)
  {
    hide Inv, Next;
    if a.Swap? {
      TodoKeptBySwap(s, a, k, e);
    } else if a.Ready? {
      TodoKeptByReady(s, a, k, e);
    } else {
      TodoKeptByNewcomer(s, a, k, e);
    }
  }

  lemma TodoKeptByEntering(s: State, a: Action, k: nat, e: Entry)
    requires Inv(s) && Enabled(s, a) && Entering(a)
    ensures TodoOk(Next(s, a), k, e)
  {
    hide Inv, Roused, Due;
    var h, q := Who(s, a), Which(s, a);
    GorHolds(s, h);
    ParkerHolds(s, q);
    ParkerHolds(s, e.p);
    TodoHolds(s, k, e);
  }

  lemma TodoKeptByLeaving(s: State, a: Action, k: nat, e: Entry)
    requires Inv(s) && Enabled(s, a) && !ByWaker(a) && !Entering(a)
    ensures TodoOk(Next(s, a), k, e)
  {
    hide Inv, Roused, Due;
    var h, q := Who(s, a), Which(s, a);
    GorHolds(s, h);
    ParkerHolds(s, q);
    ParkerHolds(s, e.p);
    TodoHolds(s, k, e);
  }

  lemma TodoKeptByOwn(s: State, a: Action, k: nat, e: Entry)
    requires Inv(s) && Enabled(s, a) && !ByWaker(a)
    ensures TodoOk(Next(s, a), k, e)
  {
    hide Inv, Next;
    if Entering(a) {
      TodoKeptByEntering(s, a, k, e);
    } else {
      TodoKeptByLeaving(s, a, k, e);
    }
  }

  lemma ReadyKeptByWaker(s: State, a: Action, k: nat)
    requires Inv(s) && Enabled(s, a) && ByWaker(a)
    ensures ReadyOk(Next(s, a), k)
  {
    hide Inv, Roused, Due, Done, Listed;
    var h, q := Who(s, a), Which(s, a);
    GorHolds(s, h);
    ParkerHolds(s, q);
    ReadyHolds(s, k);
    if a.Swap? { TodoHolds(s, a.k, a.e); }
    if a.Ready? { ReadyHolds(s, a.k); PairHolds(s, a.k, k, s.wakers[a.k].ready.value); }
  }

  lemma ReadyKeptByEntering(s: State, a: Action, k: nat)
    requires Inv(s) && Enabled(s, a) && Entering(a)
    ensures ReadyOk(Next(s, a), k)
  {
    hide Inv, Roused, Due, Done, Listed;
    var h, q := Who(s, a), Which(s, a);
    GorHolds(s, h);
    ParkerHolds(s, q);
    ReadyHolds(s, k);
    if k < |s.wakers| && s.wakers[k].ready.Some? {
      var p := s.wakers[k].ready.value.p;
      ParkerHolds(s, p);
      GorHolds(s, ParkerOf(s, p).owner.value);
    }
  }

  lemma ReadyKeptByLeaving(s: State, a: Action, k: nat)
    requires Inv(s) && Enabled(s, a) && !ByWaker(a) && !Entering(a)
    ensures ReadyOk(Next(s, a), k)
  {
    hide Inv, Roused, Due, Done, Listed;
    var h, q := Who(s, a), Which(s, a);
    GorHolds(s, h);
    ParkerHolds(s, q);
    ReadyHolds(s, k);
    if k < |s.wakers| && s.wakers[k].ready.Some? {
      var p := s.wakers[k].ready.value.p;
      ParkerHolds(s, p);
      GorHolds(s, ParkerOf(s, p).owner.value);
    }
  }

  lemma ReadyKeptByOwn(s: State, a: Action, k: nat)
    requires Inv(s) && Enabled(s, a) && !ByWaker(a)
    ensures ReadyOk(Next(s, a), k)
  {
    hide Inv, Next;
    if Entering(a) {
      ReadyKeptByEntering(s, a, k);
    } else {
      ReadyKeptByLeaving(s, a, k);
    }
  }

  lemma HeldKeptByWaker(s: State, a: Action, k: nat, e: Entry)
    requires Inv(s) && Enabled(s, a) && ByWaker(a)
    ensures HeldOk(Next(s, a), k, e)
  {
    hide Inv, Roused, Due;
    var h, q := Who(s, a), Which(s, a);
    GorHolds(s, h);
    ParkerHolds(s, q);
    HeldHolds(s, k, e);
    TodoHolds(s, k, e);
    if a.Swap? { TodoHolds(s, a.k, a.e); }
  }

  lemma HeldKeptByEntering(s: State, a: Action, k: nat, e: Entry)
    requires Inv(s) && Enabled(s, a) && Entering(a)
    ensures HeldOk(Next(s, a), k, e)
  {
    hide Inv, Roused, Due;
    var h, q := Who(s, a), Which(s, a);
    GorHolds(s, h);
    ParkerHolds(s, q);
    HeldHolds(s, k, e);
    TodoHolds(s, k, e);
  }

  lemma HeldKeptByLeaving(s: State, a: Action, k: nat, e: Entry)
    requires Inv(s) && Enabled(s, a) && !ByWaker(a) && !Entering(a)
    ensures HeldOk(Next(s, a), k, e)
  {
    hide Inv, Roused, Due;
    var h, q := Who(s, a), Which(s, a);
    GorHolds(s, h);
    ParkerHolds(s, q);
    HeldHolds(s, k, e);
    TodoHolds(s, k, e);
  }

  lemma HeldKept(s: State, a: Action, k: nat, e: Entry)
    requires Inv(s) && Enabled(s, a)
    ensures HeldOk(Next(s, a), k, e)
  {
    hide Inv, Next;
    if ByWaker(a) {
      HeldKeptByWaker(s, a, k, e);
    } else if Entering(a) {
      HeldKeptByEntering(s, a, k, e);
    } else {
      HeldKeptByLeaving(s, a, k, e);
    }
  }

  lemma PairKeptBySwap(s: State, a: Action, j: nat, k: nat, e: Entry)
    requires Inv(s) && Enabled(s, a) && a.Swap?
    ensures PairOk(Next(s, a), j, k, e)
  {
    hide Inv, Roused, Due;
    var h, q := Who(s, a), Which(s, a);
    PairHolds(s, j, k, e);
    TodoHolds(s, j, e);
    TodoHolds(s, k, e);
    ReadyHolds(s, j);
    ReadyHolds(s, k);
    TodoHolds(s, a.k, a.e);
  }

  lemma PairKeptByNewcomer(s: State, a: Action, j: nat, k: nat, e: Entry)
    requires Inv(s) && Enabled(s, a) && (a.Broadcast? || a.Fire?)
    ensures PairOk(Next(s, a), j, k, e)
  {
    hide Inv, Roused, Due;
    var h, q := Who(s, a), Which(s, a);
    PairHolds(s, j, k, e);
    TodoHolds(s, j, e);
    TodoHolds(s, k, e);
    ReadyHolds(s, j);
    ReadyHolds(s, k);
    if a.Broadcast? { ListHolds(s, a.w, e.p); }
  }

  lemma PairKeptByRest(s: State, a: Action, j: nat, k: nat, e: Entry)
    requires Inv(s) && Enabled(s, a) && !a.Swap? && !a.Broadcast? && !a.Fire?
    ensures PairOk(Next(s, a), j, k, e)
  {
    hide Inv, Roused, Due;
    var h, q := Who(s, a), Which(s, a);
    PairHolds(s, j, k, e);
    TodoHolds(s, j, e);
    TodoHolds(s, k, e);
    ReadyHolds(s, j);
    ReadyHolds(s, k);
  }

  lemma PairKept(s: State, a: Action, j: nat, k: nat, e: Entry)
    requires Inv(s) && Enabled(s, a)
    ensures PairOk(Next(s, a), j, k, e)
  {
    hide Inv, Next;
    if a.Swap? {
      PairKeptBySwap(s, a, j, k, e);
    } else if a.Broadcast? || a.Fire? {
      PairKeptByNewcomer(s, a, j, k, e);
    } else {
      PairKeptByRest(s, a, j, k, e);
    }
  }

  lemma StepKeeps(s: State, a: Action)
    requires Inv(s) && Enabled(s, a)
    ensures Inv(Next(s, a))
  {
    hide GorOk, ParkerOk, ListOk, TodoOk, ReadyOk, HeldOk, PairOk, Next;
    forall g ensures GorOk(Next(s, a), g) { if ByWaker(a) { GorKeptByWaker(s, a, g); } else { GorKeptByOwn(s, a, g); } }
    forall p ensures ParkerOk(Next(s, a), p) {
      if ByWaker(a) { ParkerKeptByWaker(s, a, p); } else { ParkerKeptByOwn(s, a, p); }
    }
    forall w, p ensures ListOk(Next(s, a), w, p) { ListKept(s, a, w, p); }
    forall k, e ensures TodoOk(Next(s, a), k, e) {
      if ByWaker(a) { TodoKeptByWaker(s, a, k, e); } else { TodoKeptByOwn(s, a, k, e); }
    }
    forall k ensures ReadyOk(Next(s, a), k) {
      if ByWaker(a) { ReadyKeptByWaker(s, a, k); } else { ReadyKeptByOwn(s, a, k); }
    }
    forall k, e ensures HeldOk(Next(s, a), k, e) { HeldKept(s, a, k, e); }
    forall j, k, e ensures PairOk(Next(s, a), j, k, e) { PairKept(s, a, j, k, e); }
  }

  // ---- runs

  predicate Allowed(s: State, run: seq<Action>)
    decreases |run|
  {
    run == [] || (Enabled(s, run[0]) && Allowed(Next(s, run[0]), run[1..]))
  }

  function End(s: State, run: seq<Action>): State
    requires Allowed(s, run)
    decreases |run|
  {
    if run == [] then s else End(Next(s, run[0]), run[1..])
  }

  /** No goroutine in Wait, no parker ever made, no Broadcast under way. */
  function Start(goroutines: nat, waiters: nat): State
  {
    State(seq(goroutines, _ => Gor(Idle, Off)), [], seq(waiters, _ => {}), [])
  }

  lemma StartHolds(goroutines: nat, waiters: nat)
    ensures Inv(Start(goroutines, waiters))
  {
  }

  lemma {:induction false} RunKeeps(s: State, run: seq<Action>)
    requires Inv(s) && Allowed(s, run)
    ensures Inv(End(s, run))
    decreases |run|
  {
    hide Inv, Next;
    if run != [] {
      StepKeeps(s, run[0]);
      RunKeeps(Next(s, run[0]), run[1..]);
    }
  }

  /** A state some run of some number of goroutines and Waiters leads to. */
  ghost predicate Reachable(s: State)
  {
    exists n: nat, m: nat, run: seq<Action> :: Allowed(Start(n, m), run) && End(Start(n, m), run) == s
  }

  lemma ReachableHolds(s: State)
    requires Reachable(s)
    ensures Inv(s)
  {
    hide Inv, Next;
    var n: nat, m: nat, run: seq<Action> :| Allowed(Start(n, m), run) && End(Start(n, m), run) == s;
    StartHolds(n, m);
    RunKeeps(Start(n, m), run);
  }

  // ---- what holds in every reachable state

  /** goready is only ever handed the goroutine that Park captured, while it is blocked in that very Park, and
      it is out of the Park afterwards with no other waker about to make it ready again. */
  lemma GoreadyHitsTheParkedGoroutine(s: State, k: nat)
    requires Reachable(s) && Enabled(s, Ready(k))
    ensures var e := s.wakers[k].ready.value;
      && e.p < |s.ps| && e.era == s.ps[e.p].era
      && s.ps[e.p].g.Some? && s.ps[e.p].g.value < |s.gs|
      && s.gs[s.ps[e.p].g.value].pc == Blocked(e.p)
      && Next(s, Ready(k)).gs[s.ps[e.p].g.value].pc == Returned(e.p)
      && forall j :: 0 <= j < |s.wakers| ==> Next(s, Ready(k)).wakers[j].ready != Some(e)
  {
    ReachableHolds(s);
    var e := s.wakers[k].ready.value;
    assert ReadyOk(s, k) && GorOk(s, ParkerOf(s, e.p).owner.value);
    forall j | 0 <= j < |s.wakers| ensures Next(s, Ready(k)).wakers[j].ready != Some(e) {
      assert PairOk(s, k, j, e);
    }
  }

  /** A Wake or Broadcast never swaps the state of a parker that has been recycled since it got hold of it. */
  lemma WakersMeetTheirOwnEra(s: State, k: nat, e: Entry)
    requires Reachable(s) && Enabled(s, Swap(k, e))
    ensures e.p < |s.ps| && s.ps[e.p].era == e.era && !s.ps[e.p].pooled
  {
    ReachableHolds(s);
    assert TodoOk(s, k, e);
  }

  /** When Wait recycles a parker, no list and no waker refers to it: the choice between Release and Detach
      is right. */
  lemma RecycledParkersAreUnreferenced(s: State, g: Gid)
    requires Reachable(s) && Enabled(s, Put(g))
    ensures var p := s.gs[g].pc.p;
      && p < |s.ps| && s.ps[p].owner == Some(g)
      && (forall w :: 0 <= w < |s.lists| ==> p !in s.lists[w])
      && (forall k, e :: 0 <= k < |s.wakers| && e in s.wakers[k].todo ==> e.p != p)
      && (forall k :: 0 <= k < |s.wakers| && s.wakers[k].ready.Some? ==> s.wakers[k].ready.value.p != p)
  {
    ReachableHolds(s);
    var p := s.gs[g].pc.p;
    assert GorOk(s, g);
    assert Done(s, p);
    forall w | 0 <= w < |s.lists| ensures p !in s.lists[w] { assert ListOk(s, w, p); }
    forall k, e | 0 <= k < |s.wakers| && e in s.wakers[k].todo ensures e.p != p { assert TodoOk(s, k, e); }
    forall k | 0 <= k < |s.wakers| && s.wakers[k].ready.Some? ensures s.wakers[k].ready.value.p != p {
      assert ReadyOk(s, k);
    }
  }

  /** Nobody is lost: a goroutine blocked on a parker not yet woken is on its Waiter's list or in the hands of a
      Broadcast, and one blocked on a woken parker is about to be made ready. */
  lemma BlockedWillBeFound(s: State, g: Gid)
    requires Reachable(s) && g < |s.gs| && s.gs[g].pc.Blocked?
    ensures var p := s.gs[g].pc.p;
      && p < |s.ps|
      && (s.ps[p].state == Parked ==> Listed(s, p) || Due(s, p))
      && (s.ps[p].state == Woken ==> Roused(s, p))
      && s.ps[p].state != Init
  {
    ReachableHolds(s);
    assert GorOk(s, g) && ParkerOk(s, s.gs[g].pc.p);
  }

  /** Once a Broadcast (or Wake) has finished, each parker it took from the list is woken or has been recycled, and
      nobody is still blocked on the one it took, unless some other waker is about to make that goroutine ready. */
  lemma FinishedBroadcastFreedItsParkers(s: State, k: nat, e: Entry, g: Gid)
    requires Reachable(s) && k < |s.wakers| && s.wakers[k].todo == {} && s.wakers[k].ready == None
    requires e in s.wakers[k].held && g < |s.gs|
    ensures e.p < |s.ps| && (s.ps[e.p].era > e.era || (s.ps[e.p].era == e.era && s.ps[e.p].state == Woken))
    ensures s.gs[g].pc == Blocked(e.p) && s.ps[e.p].era == e.era ==>
              exists j :: 0 <= j < |s.wakers| && j != k && s.wakers[j].ready == Some(e)
  {
    ReachableHolds(s);
    assert HeldOk(s, k, e) && GorOk(s, g);
  }

  // ---- goready fires at most once per park

  /** How often goready is called for the park of e's era in a run. */
  function Goreadies(s: State, run: seq<Action>, e: Entry): nat
    requires Allowed(s, run)
    decreases |run|
  {
    if run == [] then 0
    else
      (if run[0].Ready? && s.wakers[run[0].k].ready == Some(e) then 1 else 0)
      + Goreadies(Next(s, run[0]), run[1..], e)
  }

  ghost predicate Over(s: State, e: Entry)
  {
    && e.p < |s.ps|
    && (s.ps[e.p].era > e.era || (s.ps[e.p].era == e.era && s.ps[e.p].state == Woken))
    && forall k :: 0 <= k < |s.wakers| ==> s.wakers[k].ready != Some(e)
  }

  lemma OverKept(s: State, a: Action, e: Entry)
    requires Inv(s) && Enabled(s, a) && Over(s, e)
    ensures Over(Next(s, a), e)
  {
    hide Inv, Roused, Due, Done, Listed;
    GorHolds(s, Who(s, a));
    ParkerHolds(s, Which(s, a));
    if a.Swap? { TodoHolds(s, a.k, a.e); }
  }

  lemma ReadyIsOver(s: State, k: nat)
    requires Inv(s) && Enabled(s, Ready(k))
    ensures Over(Next(s, Ready(k)), s.wakers[k].ready.value)
  {
    var e := s.wakers[k].ready.value;
    assert ReadyOk(s, k);
    forall j | 0 <= j < |s.wakers| ensures Next(s, Ready(k)).wakers[j].ready != Some(e) {
      assert PairOk(s, k, j, e);
    }
  }

  lemma {:induction false} NoGoreadyOnceOver(s: State, run: seq<Action>, e: Entry)
    requires Inv(s) && Allowed(s, run) && Over(s, e)
    ensures Goreadies(s, run, e) == 0
    decreases |run|
  {
    hide Inv, Next;
    if run != [] {
      StepKeeps(s, run[0]);
      OverKept(s, run[0], e);
      NoGoreadyOnceOver(Next(s, run[0]), run[1..], e);
    }
  }

  lemma {:induction false} GoreadyAtMostOncePerPark(s: State, run: seq<Action>, e: Entry)
    requires Reachable(s) && Allowed(s, run)
    ensures Goreadies(s, run, e) <= 1
  {
    hide Inv, Next, Reachable;
    ReachableHolds(s);
    AtMostOnce(s, run, e);
  }

  lemma {:induction false} AtMostOnce(s: State, run: seq<Action>, e: Entry)
    requires Inv(s) && Allowed(s, run)
    ensures Goreadies(s, run, e) <= 1
    decreases |run|
  {
    hide Inv, Next, Over;
    if run != [] {
      StepKeeps(s, run[0]);
      if run[0].Ready? && s.wakers[run[0].k].ready == Some(e) {
        ReadyIsOver(s, run[0].k);
        NoGoreadyOnceOver(Next(s, run[0]), run[1..], e);
      } else {
        AtMostOnce(Next(s, run[0]), run[1..], e);
      }
    }
  }
}
