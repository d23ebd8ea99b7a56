/** The class-based scheduler over its class queues. Every method is one step: a critical section, or an insert into a
    class queue, which Push does before it takes the scheduler's lock. */
module Scheduler {
  import opened Basics
  import opened FairRing

  datatype Cls = Priority | Weighted(i: nat) | Nobody

  datatype Pulled<T> = Items(items: seq<T>, from: Cls) | Failed(from: Cls) | Parked | Closed

  function Lens<T>(qs: seq<seq<T>>): (l: seq<nat>)
    ensures |l| == |qs| && forall i :: 0 <= i < |l| ==> l[i] == |qs[i]|
  {
    seq(|qs|, i requires 0 <= i < |qs| => |qs[i]|)
  }

  // ---- runs of calls

  /** Steps of any number of goroutines; a step nobody is in a position to take does nothing. */
  datatype Call<T> =
    | DoInsert(c: Cls, item: T)
    | DoAccount
    | DoPull(n: nat, fails: bool)
    | DoCancel
    | DoDepart
    | DoClose

  /** There is such a class, of `classes` weighted ones. */
  predicate Known(c: Cls, hasPriority: bool, classes: nat)
  {
    (c == Priority && hasPriority) || (c.Weighted? && c.i < classes)
  }

  /** What the call does to the ring. */
  function ActOf<T>(call: Call<T>, closed: bool, hasPriority: bool, classes: nat): seq<Act>
  {
    match call
    case DoInsert(c, _) =>
      if !Known(c, hasPriority, classes) then []
      else [if c == Priority then InsertPriority else FairRing.Insert(c.i)]
    case DoPull(n, fails) => if closed || n == 0 then [] else [FairRing.Pull(n, fails)]
    case _ => []
  }

  function ActsOf<T>(calls: seq<Call<T>>, closed: bool, hasPriority: bool, classes: nat): seq<Act>
  {
    if calls == [] then []
    else
      ActOf(calls[0], closed, hasPriority, classes)
      + ActsOf(calls[1..], closed || calls[0].DoClose?, hasPriority, classes)
  }

  /** The items inserted into class c, in order. */
  function Put<T>(calls: seq<Call<T>>, c: Cls): seq<T>
  {
    if calls == [] then []
    else (if calls[0].DoInsert? && calls[0].c == c then [calls[0].item] else []) + Put(calls[1..], c)
  }

  /** The items Pulls returned from class c, in order. */
  function Got<T>(out: seq<Pulled<T>>, c: Cls): seq<T>
  {
    if out == [] then [] else (if out[0].Items? && out[0].from == c then out[0].items else []) + Got(out[1..], c)
  }

  /** How many items Pulls returned from the weighted classes together, and how many Pulls those were. */
  function GotInAll<T>(out: seq<Pulled<T>>): nat
  {
    if out == [] then 0
    else (if out[0].Items? && out[0].from.Weighted? then |out[0].items| else 0) + GotInAll(out[1..])
  }

  function WeightedAnswers<T>(out: seq<Pulled<T>>): nat
  {
    if out == [] then 0
    else (if out[0].Items? && out[0].from.Weighted? then 1 else 0) + WeightedAnswers(out[1..])
  }

  /** First in, first out: what was there and what came is what left and what is there. */
  ghost predicate Flows<T>(was: seq<T>, put: seq<T>, got: seq<T>, now: seq<T>)
  {
    was + put == got + now
  }

  /** ... in every weighted class. */
  ghost predicate AllFlow<T>(was: seq<seq<T>>, calls: seq<Call<T>>, out: seq<Pulled<T>>, now: seq<seq<T>>)
  {
    && |now| == |was|
    && forall k :: 0 <= k < |was| ==> Flows(was[k], Put(calls, Weighted(k)), Got(out, Weighted(k)), now[k])
  }

  lemma OneCall<T>(call: Call<T>, c: Cls)
    ensures Put([call], c) == if call.DoInsert? && call.c == c then [call.item] else []
  {
    assert Put([call][1..], c) == [];
  }

  lemma OneAnswer<T>(p: Pulled<T>, c: Cls)
    ensures Got([p], c) == (if p.Items? && p.from == c then p.items else []) && Got<T>([], c) == []
  {
    assert Got([p][1..], c) == [];
  }

  lemma InsertFlows<T>(call: Call<T>, was: seq<seq<T>>, now: seq<seq<T>>)
    requires call.DoInsert? && call.c.Weighted? && call.c.i < |was|
    requires now == was[call.c.i := was[call.c.i] + [call.item]]
    ensures AllFlow(was, [call], [], now)
  {
    forall k | 0 <= k < |was| ensures Flows(was[k], Put([call], Weighted(k)), [], now[k]) {
      OneCall(call, Weighted(k));
    }
  }

  lemma NothingFlows<T>(call: Call<T>, qs: seq<seq<T>>)
    ensures !(call.DoInsert? && call.c.Weighted? && call.c.i < |qs|) ==> AllFlow(qs, [call], [], qs)
  {
    if !(call.DoInsert? && call.c.Weighted? && call.c.i < |qs|) {
      forall k | 0 <= k < |qs| ensures Flows(qs[k], Put([call], Weighted(k)), [], qs[k]) { OneCall(call, Weighted(k)); }
    }
  }

  lemma PullFlows<T>(call: Call<T>, p: Pulled<T>, was: seq<seq<T>>, now: seq<seq<T>>)
    requires call.DoPull? && |now| == |was|
    requires forall k :: 0 <= k < |was| ==>
      was[k] == (if p.Items? && p.from == Weighted(k) then p.items else []) + now[k]
    ensures AllFlow(was, [call], [p], now)
  {
    forall k | 0 <= k < |was| ensures Flows(was[k], Put([call], Weighted(k)), Got([p], Weighted(k)), now[k]) {
      OneCall(call, Weighted(k));
      OneAnswer(p, Weighted(k));
    }
  }

  /** The ring after the step of one call, if it takes one. */
  ghost predicate OneStep(r: Ring, act: seq<Act>, s: Ring)
  {
    if act == [] then s == r else RingOk(r) && Fits(r, act[0]) && s == Next(r, act[0])
  }

  /** Pulls return something from classes there are. */
  predicate Proper<T>(out: seq<Pulled<T>>, classes: nat)
  {
    forall k :: 0 <= k < |out| && out[k].Items? ==>
      out[k].items != [] && (out[k].from.Weighted? ==> out[k].from.i < classes)
  }

  lemma ReadyParts(r: Ring)
    requires Ready(r)
    ensures r.weights != [] && r.cursor < |r.lens| == |r.deficit| == |r.weights|
    ensures 0 < r.lens[r.cursor] && 0 < r.deficit[r.cursor]
  {
  }

  lemma RingIgnoresPriority(r: Ring, p: nat)
    ensures RingOk(r.(prio := p)) <==> RingOk(r)
  {
  }

  lemma TakeIs(r: Ring, n: nat, k: nat)
    requires Ready(r) && k == Min(Min(n, r.lens[r.cursor]), r.deficit[r.cursor])
    ensures var u := r.(lens := r.lens[r.cursor := r.lens[r.cursor] - k]);
      RingOk(u) && k <= u.deficit[u.cursor] && Take(r, n) == Charge(u, k)
  {
    hide Charge;
  }

  lemma NoStep(r: Ring)
    ensures OneStep(r, [], r)
  {
  }

  lemma PullStep<T>(r: Ring, n: nat, fails: bool, closed: bool, hasPriority: bool, classes: nat, s: Ring)
    requires if closed || n == 0 then s == r else RingOk(r) && s == Next(r, FairRing.Pull(n, fails))
    ensures OneStep(r, ActOf<T>(DoPull(n, fails), closed, hasPriority, classes), s)
    ensures ActOf<T>(DoPull(n, fails), closed, hasPriority, classes) == [] <==> closed || n == 0
  {
    hide Next, RingOk;
  }

  lemma OneProper<T>(p: Pulled<T>, classes: nat)
    requires p.Items? ==> p.items != [] && (p.from.Weighted? ==> p.from.i < classes)
    ensures Proper([p], classes) && (!p.Items? ==> GotInAll([p]) == 0)
  {
  }

  lemma NoAnswer<T>(classes: nat, c: Cls)
    ensures Proper<T>([], classes) && GotInAll<T>([]) == 0 && Got<T>([], c) == []
  {
  }

  lemma {:induction false} AnswersAreItems<T>(out: seq<Pulled<T>>, classes: nat)
    requires Proper(out, classes)
    ensures WeightedAnswers(out) <= GotInAll(out)
  {
    if out != [] { AnswersAreItems(out[1..], classes); }
  }

  lemma FlowsOn<T>(was: seq<T>, put: seq<T>, got: seq<T>, now: seq<T>, put2: seq<T>, got2: seq<T>, then_: seq<T>)
    requires Flows(was, put, got, now) && Flows(now, put2, got2, then_)
    ensures Flows(was, put + put2, got + got2, then_)
  {
    assert was + (put + put2) == (was + put) + put2 == got + (now + put2) == got + (got2 + then_);
  }

  lemma AllFlowOn<T>(was: seq<seq<T>>, call: Call<T>, out1: seq<Pulled<T>>, now: seq<seq<T>>, rest: seq<Call<T>>,
                     out2: seq<Pulled<T>>, then_: seq<seq<T>>)
    requires AllFlow(was, [call], out1, now) && AllFlow(now, rest, out2, then_) && |out1| <= 1
    ensures AllFlow(was, [call] + rest, out1 + out2, then_)
  {
    hide Flows;
    forall k | 0 <= k < |was|
      ensures Flows(was[k], Put([call] + rest, Weighted(k)), Got(out1 + out2, Weighted(k)), then_[k])
    {
      CatOne(call, rest, out1, out2, Weighted(k));
      FlowsOn(was[k], Put([call], Weighted(k)), Got(out1, Weighted(k)), now[k], Put(rest, Weighted(k)),
              Got(out2, Weighted(k)), then_[k]);
    }
  }

  lemma CatOne<T>(call: Call<T>, rest: seq<Call<T>>, out1: seq<Pulled<T>>, out2: seq<Pulled<T>>, c: Cls)
    requires |out1| <= 1
    ensures Put([call] + rest, c) == Put([call], c) + Put(rest, c)
    ensures Got(out1 + out2, c) == Got(out1, c) + Got(out2, c)
  {
    OneCall(call, c);
    CatAnswers(out1, out2, c);
    assert ([call] + rest)[1..] == rest;
  }

  lemma CatAnswers<T>(out1: seq<Pulled<T>>, out2: seq<Pulled<T>>, c: Cls)
    requires |out1| <= 1
    ensures Got(out1 + out2, c) == Got(out1, c) + Got(out2, c)
    ensures GotInAll(out1 + out2) == GotInAll(out1) + GotInAll(out2)
  {
    if out1 == [] {
      assert out1 + out2 == out2;
    } else {
      assert (out1 + out2)[1..] == out2 && out1[1..] == [];
    }
  }

  /** A step takes from the ring what it returns. */
  lemma StepIsServed<T>(r: Ring, call: Call<T>, act: Act, was: seq<seq<T>>, out: seq<Pulled<T>>, now: seq<seq<T>>,
                        k: nat)
    requires RingOk(r) && Fits(r, act) && r.lens == Lens(was) && Next(r, act).lens == Lens(now) && k < |was|
    requires AllFlow(was, [call], out, now)
    requires (act.Pull? <==> call.DoPull?) && (!act.Pull? ==> out == [])
    ensures Taken(r, act, k) == |Got(out, Weighted(k))|
  {
    hide Next;
    OneCall(call, Weighted(k));
    assert Flows(was[k], Put([call], Weighted(k)), Got(out, Weighted(k)), now[k]);
  }

  lemma SumFalls<T>(was: seq<seq<T>>, now: seq<seq<T>>, i: nat, n: nat)
    requires i < |was| == |now|
    requires forall k :: 0 <= k < |was| ==> |now[k]| == |was[k]| - if k == i then n else 0
    ensures Sum(Lens(was)) - Sum(Lens(now)) == n
  {
    SumUpdate(Lens(was), i, |now[i]|);
    assert Lens(now) == Lens(was)[i := |now[i]|];
  }

  lemma GivenByOne<T>(call: Call<T>, was: seq<seq<T>>, p: Pulled<T>, now: seq<seq<T>>, k: nat)
    requires AllFlow(was, [call], [p], now) && call.DoPull? && k < |was|
    ensures |now[k]| == |was[k]| - if p.Items? && p.from == Weighted(k) then |p.items| else 0
  {
    OneCall(call, Weighted(k));
    OneAnswer(p, Weighted(k));
    assert Flows(was[k], Put([call], Weighted(k)), Got([p], Weighted(k)), now[k]);
  }

  lemma StepIsServedInAll<T>(r: Ring, call: Call<T>, act: Act, was: seq<seq<T>>, out: seq<Pulled<T>>, now: seq<seq<T>>)
    requires RingOk(r) && Fits(r, act) && r.lens == Lens(was) && Next(r, act).lens == Lens(now)
    requires AllFlow(was, [call], out, now) && |now| == |was| && |out| <= 1
    requires (act.Pull? <==> call.DoPull? && out != []) && (!act.Pull? ==> out == [])
    requires Proper(out, |was|)
    ensures TakenInAll(r, act) == GotInAll(out)
  {
    hide Next, Sum, AllFlow, RingOk;
    if act.Pull? {
      var p := out[0];
      assert out == [p] && GotInAll(out[1..]) == 0 && |now| == |was|;
      forall k | 0 <= k < |was|
        ensures |now[k]| == |was[k]| - if p.Items? && p.from == Weighted(k) then |p.items| else 0
      {
        GivenByOne(call, was, p, now, k);
      }
      if p.Items? && p.from.Weighted? {
        SumFalls(was, now, p.from.i, |p.items|);
      } else {
        assert Lens(now) == Lens(was);
      }
    }
  }

  lemma ProperOn<T>(out1: seq<Pulled<T>>, out2: seq<Pulled<T>>, classes: nat)
    requires Proper(out1, classes) && Proper(out2, classes)
    ensures Proper(out1 + out2, classes)
  {
  }

  /** The ring goes through acts, and each class gives what that takes from it. */
  ghost predicate FollowsRing<T>(r: Ring, acts: seq<Act>, out: seq<Pulled<T>>, s: Ring)
  {
    && RingOk(r) && Allowed(r, acts) && s == End(r, acts)
    && (forall k :: 0 <= k < |r.weights| ==> |Got(out, Weighted(k))| == Served(r, acts, k))
    && GotInAll(out) == ServedInAll(r, acts)
  }

  lemma NothingRuns<T>(r: Ring, qs: seq<seq<T>>, ps: seq<T>)
    requires RingOk(r)
    ensures AllFlow(qs, [], [], qs) && Flows(ps, Put([], Priority), Got([], Priority), ps)
    ensures FollowsRing<T>(r, [], [], r) && Proper<T>([], |r.weights|)
  {
    hide RingOk;
  }

  lemma FollowsIdle<T>(r: Ring, acts: seq<Act>, out1: seq<Pulled<T>>, out2: seq<Pulled<T>>, s: Ring)
    requires FollowsRing(r, acts, out2, s) && |out1| <= 1 && Proper(out1, |r.weights|) && GotInAll(out1) == 0
    ensures FollowsRing(r, acts, out1 + out2, s)
  {
    hide RingOk, Allowed, Got, GotInAll;
    CatAnswers(out1, out2, Priority);
    forall k | 0 <= k < |r.weights| ensures Got(out1 + out2, Weighted(k)) == Got(out2, Weighted(k)) {
      CatAnswers(out1, out2, Weighted(k));
      NothingGot(out1, |r.weights|, k);
      assert [] + Got(out2, Weighted(k)) == Got(out2, Weighted(k));
    }
  }

  lemma FollowsStep<T>(r: Ring, act: Act, rest: seq<Act>, out1: seq<Pulled<T>>, out2: seq<Pulled<T>>, s: Ring)
    requires RingOk(r) && |r.lens| == |r.weights| && Fits(r, act) && |out1| <= 1
    requires forall k :: 0 <= k < |r.weights| ==> Taken(r, act, k) == |Got(out1, Weighted(k))|
    requires TakenInAll(r, act) == GotInAll(out1)
    requires FollowsRing(Next(r, act), rest, out2, s)
    ensures FollowsRing(r, [act] + rest, out1 + out2, s)
  {
    hide Next, Taken, TakenInAll, RingOk, Got, GotInAll;
    assert ([act] + rest)[1..] == rest && ([act] + rest)[0] == act;
    CatAnswers(out1, out2, Priority);
    forall k | 0 <= k < |r.weights| ensures |Got(out1 + out2, Weighted(k))| == Served(r, [act] + rest, k) {
      CatAnswers(out1, out2, Weighted(k));
    }
  }

  lemma FollowsOn<T>(r: Ring, calls: seq<Call<T>>, closed: bool, has: bool, m: nat, was: seq<seq<T>>,
                     out1: seq<Pulled<T>>, r1: Ring, now: seq<seq<T>>, out2: seq<Pulled<T>>, s: Ring)
    requires calls != [] && RingOk(r) && |r.weights| == m && r.lens == Lens(was) && r1.lens == Lens(now)
    requires OneStep(r, ActOf(calls[0], closed, has, m), r1)
    requires ActOf(calls[0], closed, has, m) == [] ==> GotInAll(out1) == 0
    requires AllFlow(was, [calls[0]], out1, now) && |now| == |was| && |out1| <= 1 && Proper(out1, m)
    requires !calls[0].DoPull? ==> out1 == []
    requires calls[0].DoPull? && ActOf(calls[0], closed, has, m) != [] ==> out1 != []
    requires FollowsRing(r1, ActsOf(calls[1..], closed || calls[0].DoClose?, has, m), out2, s)
    ensures FollowsRing(r, ActsOf(calls, closed, has, m), out1 + out2, s)
  {
    hide Next, AllFlow, Taken, TakenInAll, FollowsRing, Got, GotInAll, Proper, RingOk;
    var act, rest := ActOf(calls[0], closed, has, m), ActsOf(calls[1..], closed || calls[0].DoClose?, has, m);
    RingShape(r);
    if act == [] {
      assert act + rest == rest;
      FollowsIdle(r, rest, out1, out2, s);
    } else {
      assert act == [act[0]];
      StepIsServedInAll(r, calls[0], act[0], was, out1, now);
      forall k | 0 <= k < m ensures Taken(r, act[0], k) == |Got(out1, Weighted(k))| {
        StepIsServed(r, calls[0], act[0], was, out1, now, k);
      }
      FollowsStep(r, act[0], rest, out1, out2, s);
    }
  }

  lemma NothingGot<T>(out: seq<Pulled<T>>, m: nat, k: nat)
    requires |out| <= 1 && Proper(out, m) && GotInAll(out) == 0
    ensures Got(out, Weighted(k)) == []
  {
    if out != [] { OneAnswer(out[0], Weighted(k)); assert out == [out[0]]; }
  }

  /** What classes i and j gave is in the proportion of their weights to within one quantum. */
  predicate Fair<T>(weights: seq<nat>, out: seq<Pulled<T>>, i: nat, j: nat)
    requires i < |weights| && j < |weights|
  {
    var lead := |Got(out, Weighted(i))| * weights[j] - |Got(out, Weighted(j))| * weights[i];
    -(weights[i] * weights[j]) <= lead <= weights[i] * weights[j]
  }

  class Cbwfq<T> {
    const weights: seq<nat>
    const hasPriority: bool
    var queues: seq<seq<T>>    // the weighted classes
    var prio: seq<T>           // the priority class
    var deficit: seq<nat>
    var cursor: nat
    var pending: int
    var closed: bool
    var waiters: nat           // Pulls in Wait, woken or not
    var asleep: nat            // no field: the Pulls registered and not woken
    var inserting: nat         // no field: the Pushes between their insert and the lock

    ghost function TheRing(): Ring
      reads this
    {
      Ring(weights, Lens(queues), deficit, cursor, |prio|)
    }

    ghost function Total(): nat
      reads `queues, `prio
    {
      |prio| + Sum(Lens(queues))
    }

    ghost predicate NothingQueued()
      reads `queues, `prio
    {
      prio == [] && forall i :: 0 <= i < |queues| ==> queues[i] == []
    }

    /** A class that has emptied keeps nothing of its quantum. The count is what the queues hold, less the Pushes not
        yet accounted for; and no Pull sleeps while something is queued, unless a Push is about to signal. */
    ghost predicate Valid()
      reads this
    {
      && RingOk(TheRing()) && NoneIdles(TheRing()) && (!hasPriority ==> prio == [])
      && pending + inserting == Total()
      && asleep <= waiters
      && (asleep > 0 ==> !closed && (NothingQueued() || inserting > 0))
    }

    constructor (ws: seq<nat>, hasPrio: bool, qs: seq<seq<T>>, ps: seq<T>)
      requires |qs| == |ws| && (forall k :: 0 <= k < |ws| ==> 1 <= ws[k]) && (!hasPrio ==> ps == [])
      ensures Valid() && queues == qs && prio == ps && weights == ws && pending == Total() && asleep == 0
    {
      weights, hasPriority, queues, prio := ws, hasPrio, qs, ps;
      deficit := seq(|ws|, _ => 0);
      cursor, closed, waiters, asleep, inserting := 0, false, 0, 0, 0;
      new;
      pending := |prio|;
      var i := 0;
      assert Lens(queues)[..0] == [];
      while i < |queues|
        invariant 0 <= i <= |queues| && queues == qs && prio == ps && deficit == seq(|ws|, _ => 0)
        invariant cursor == waiters == asleep == inserting == 0
        invariant pending == |prio| + Sum(Lens(queues)[..i])
      {
        SumGrows(Lens(queues), i);
        pending := pending + |queues[i]|;
        i := i + 1;
      }
      assert Lens(queues)[..i] == Lens(queues);
    }

    /** Leaves the class at the cursor, dropping its deficit. */
    method Advance()
      requires RingOk(TheRing()) && weights != []
      modifies `deficit, `cursor
      ensures TheRing() == Leave(old(TheRing()))
    {
      deficit := deficit[cursor := 0];
      cursor := (cursor + 1) % |weights|;
    }

    /** Grants the class at the cursor a fresh quantum if it has none left. */
    method Refill()
      requires RingOk(TheRing()) && weights != []
      modifies `deficit
      ensures TheRing() == Grant(old(TheRing()))
    {
      if deficit[cursor] == 0 { deficit := deficit[cursor := weights[cursor]]; }
    }

    /** The scan of serveable: the weighted class to serve, with a fresh quantum if it has just been reached. */
    method ScanWeighted() returns (c: Cls)
      requires RingOk(TheRing())
      modifies `deficit, `cursor
      ensures TheRing() == Scan(old(TheRing()), |weights|)
      ensures if Ready(TheRing()) then c == Weighted(cursor) else c == Nobody
    {
      hide Scan, Leave, Grant, RingOk;
      ghost var r := TheRing();
      var scanned := 0;
      while scanned < |weights|
        invariant 0 <= scanned <= |weights| && RingOk(TheRing()) && TheRing().lens == r.lens
        invariant scanned > 0 ==> cursor < |deficit| && deficit[cursor] == 0
        invariant Scan(r, |weights|) == Scan(TheRing(), |weights| - scanned)
      {
        RingShape(TheRing());
        ScanUnfolds(TheRing(), |weights| - scanned);
        if |queues[cursor]| == 0 {
          Advance();
          RingShape(TheRing());
        } else {
          Refill();
          return Weighted(cursor);
        }
        scanned := scanned + 1;
      }
      RingShape(TheRing());
      ScanUnfolds(TheRing(), 0);
      return Nobody;
    }

    /** The class Pull serves next. */
    method Serveable() returns (c: Cls)
      requires Valid()
      modifies `deficit, `cursor
      ensures Valid()
      ensures c == Priority <==> prio != []
      ensures prio == [] ==> TheRing() == Scan(old(TheRing()), |weights|)
      ensures prio != [] ==> TheRing() == old(TheRing())
      ensures c == Nobody <==> NothingQueued()
      ensures c.Weighted? ==> c.i == cursor && Ready(TheRing())
    {
      hide Total, Scan;
      if hasPriority && |prio| > 0 { return Priority; }
      FullScanFindsAll(TheRing());
      ScanKeepsTurns(TheRing(), |weights|);
      c := ScanWeighted();
    }

    /** The class queue's Pop. */
    method PopFrom(c: Cls, take: nat) returns (items: seq<T>)
      requires c == Priority || (c.Weighted? && c.i < |queues|)
      requires take <= if c.Weighted? then |queues[c.i]| else |prio|
      modifies `queues, `prio
      ensures |items| == take && Total() == old(Total()) - take && |queues| == old(|queues|)
      ensures c == Priority ==> old(prio) == items + prio && queues == old(queues)
      ensures c.Weighted? ==> prio == old(prio) && old(queues[c.i]) == items + queues[c.i]
      ensures c.Weighted? ==> forall k :: 0 <= k < |queues| && k != c.i ==> queues[k] == old(queues[k])
      ensures c.Weighted? ==> Lens(queues) == old(Lens(queues))[c.i := |queues[c.i]|]
    {
      if c.Weighted? {
        var i := c.i;
        items := queues[i][..take];
        SumUpdate(Lens(queues), i, |queues[i]| - take);
        ghost var l := Lens(queues);
        queues := queues[i := queues[i][take..]];
        assert Lens(queues) == l[i := l[i] - take];
      } else {
        items := prio[..take];
        prio := prio[take..];
      }
    }

    /** The deficit and the cursor after k items have left the class at the cursor. */
    method ChargeFor(k: nat)
      requires RingOk(TheRing()) && weights != [] && k <= deficit[cursor]
      modifies `deficit, `cursor
      ensures TheRing() == Charge(old(TheRing()), k)
    {
      deficit := deficit[cursor := deficit[cursor] - k];
      if deficit[cursor] == 0 || |queues[cursor]| == 0 { Advance(); }
    }

    /** serve on the class at the cursor. */
    method ServeWeighted(n: nat) returns (items: seq<T>)
      requires Valid() && 1 <= n && Ready(TheRing())
      modifies `queues, `prio, `deficit, `cursor, `pending
      ensures Valid() && prio == old(prio) && |queues| == old(|queues|)
      ensures 1 <= |items| <= n && old(queues[cursor]) == items + queues[old(cursor)]
      ensures TheRing() == Take(old(TheRing()), n)
      ensures forall k :: 0 <= k < |queues| && k != old(cursor) ==> queues[k] == old(queues[k])
    {
      ValidParts();
      ReadyParts(TheRing());
      hide Total, Charge, Take, NoneIdles, RingOk, NothingQueued, Ready, Lens, Sum;
      ghost var r := TheRing();
      var take := Min(Min(n, |queues[cursor]|), deficit[cursor]);
      items := PopFrom(Weighted(cursor), take);
      assert TheRing() == r.(lens := r.lens[r.cursor := r.lens[r.cursor] - take]);
      pending := pending - |items|;
      TakeIs(r, n, take);
      TakeKeepsTurns(r, n);
      ChargeFor(|items|);
    }

    /** serve on the priority class. */
    method ServePriority(n: nat) returns (items: seq<T>)
      requires Valid() && 1 <= n && prio != []
      modifies `queues, `prio, `pending
      ensures Valid() && queues == old(queues) && TheRing() == old(TheRing()).(prio := |prio|)
      ensures old(prio) == items + prio && |items| == Min(n, old(|prio|))
    {
      hide Total, RingOk, NoneIdles;
      var take := Min(n, |prio|);
      PriorityApart(TheRing(), |prio| - take);
      RingIgnoresPriority(TheRing(), |prio| - take);
      items := PopFrom(Priority, take);
      pending := pending - |items|;
    }

    /** Pops up to n items from the class Serveable chose. The class queue's Pop may fail, taking nothing. */
    method Serve(c: Cls, n: nat, fails: bool) returns (items: seq<T>)
      requires Valid() && 1 <= n
      requires c == Priority || (c == Weighted(cursor) && Ready(TheRing()))
      requires c == Priority ==> prio != []
      modifies `queues, `prio, `deficit, `cursor, `pending
      ensures Valid()
      ensures fails ==> items == [] && queues == old(queues) && prio == old(prio) && TheRing() == old(TheRing())
      ensures !fails && c == Priority ==>
        old(prio) == items + prio && queues == old(queues) && TheRing() == old(TheRing()).(prio := |prio|)
        && |items| == Min(n, old(|prio|))
      ensures !fails && c.Weighted? ==>
        1 <= |items| <= n && prio == old(prio) && old(queues[c.i]) == items + queues[c.i]
      ensures !fails && c.Weighted? ==> TheRing() == Take(old(TheRing()), n)
      ensures |queues| == old(|queues|)
      ensures forall k :: 0 <= k < |queues| && c != Weighted(k) ==> queues[k] == old(queues[k])
    {
      hide Cbwfq.Valid, Take, RingOk;
      if fails { return []; }
      if c == Priority { items := ServePriority(n); } else { items := ServeWeighted(n); }
    }

    lemma ValidParts()
      requires Valid()
      ensures RingOk(TheRing()) && |queues| == |weights| == |deficit| && (weights != [] ==> cursor < |weights|)
      ensures Ready(TheRing()) ==> cursor < |queues| && !NothingQueued()
      ensures NothingQueued() ==> prio == []
    {
    }

    /** One more Pull waits. */
    method Park()
      requires Valid() && NothingQueued() && !closed
      modifies `waiters, `asleep
      ensures Valid() && asleep == old(asleep) + 1
    {
      hide RingOk, Total;
      waiters := waiters + 1;
      asleep := asleep + 1;
    }

    /** One pass of Pull's loop. The items are the front of one class's queue: the priority class's if it has any,
        otherwise those the ring's rule gives; nothing else moves. It parks only when every class is empty. */
    method Pull(n: nat, fails: bool) returns (p: Pulled<T>)
      requires Valid() && 1 <= n
      modifies this
      ensures Valid()
      ensures old(closed) ==> p == Closed && TheRing() == old(TheRing()) && asleep == old(asleep)
      ensures !old(closed) ==> p != Closed && TheRing() == Next(old(TheRing()), FairRing.Pull(n, fails))
      ensures p == Parked ==> NothingQueued() && asleep == old(asleep) + 1
      ensures !old(closed) && old(NothingQueued()) ==> p == Parked
      ensures p != Parked ==> asleep == old(asleep)
      ensures p.Items? ==> 1 <= |p.items| <= n && (old(prio) != [] ==> p.from == Priority)
      ensures p.Items? && p.from == Priority ==> old(prio) == p.items + prio
      ensures |queues| == |old(queues)|
      ensures p.Items? && p.from.Weighted? ==> old(prio) == [] && p.from.i < |queues|
      ensures p.Items? && p.from.Weighted? ==> old(queues)[p.from.i] == p.items + queues[p.from.i]
      ensures p.Items? ==> p.from != Nobody
      ensures closed == old(closed) && inserting == old(inserting)
      ensures forall k :: 0 <= k < |queues| && !(p.Items? && p.from == Weighted(k)) ==> queues[k] == old(queues)[k]
      ensures !(p.Items? && p.from == Priority) ==> prio == old(prio)
    {
      hide Cbwfq.Valid, RingOk, Scan, Take, Total;
      ValidParts();
      if closed { return Closed; }
      var c := Serveable();
      ValidParts();
      if c == Nobody {
        Park();
        return Parked;
      }
      var items := Serve(c, n, fails);
      return if fails then Failed(c) else Items(items, c);
    }

    /** Push's insert into the class queue the classifier names. */
    method Insert(c: Cls, item: T)
      requires Valid() && ((c == Priority && hasPriority) || (c.Weighted? && c.i < |queues|))
      modifies `queues, `prio, `inserting
      ensures Valid() && inserting == old(inserting) + 1
      ensures c == Priority ==> prio == old(prio) + [item] && queues == old(queues)
      ensures c.Weighted? ==> prio == old(prio) && queues == old(queues)[c.i := old(queues)[c.i] + [item]]
      ensures TheRing() == Next(old(TheRing()), if c == Priority then InsertPriority else FairRing.Insert(c.i))
    {
      hide RingOk, NothingQueued, NoneIdles;
      ValidParts();
      ghost var r0 := TheRing();
      NextKeepsTurns(r0, if c == Priority then InsertPriority else FairRing.Insert(c.i));
      inserting := inserting + 1;
      if c.Weighted? {
        SumUpdate(Lens(queues), c.i, |queues[c.i]| + 1);
        ghost var l := Lens(queues);
        queues := queues[c.i := queues[c.i] + [item]];
        assert Lens(queues) == l[c.i := l[c.i] + 1];
        assert TheRing() == Next(r0, FairRing.Insert(c.i));
      } else {
        prio := prio + [item];
        assert TheRing() == Next(r0, InsertPriority);
      }
    }

    /** Push's critical section: account for the item and wake the Pulls. */
    method Account()
      requires Valid() && inserting > 0
      modifies `pending, `asleep, `inserting
      ensures Valid() && inserting == old(inserting) - 1 && pending == old(pending) + 1
      ensures asleep == 0
    {
      pending := pending + 1;
      inserting := inserting - 1;
      if waiters > 0 { asleep := 0; }
    }

    /** A Pull's context is cancelled. */
    method Cancel()
      requires Valid() && asleep > 0
      modifies `asleep
      ensures Valid() && asleep == old(asleep) - 1
    {
      asleep := asleep - 1;
    }

    /** A woken Pull returns from Wait. */
    method Depart()
      requires Valid() && waiters > asleep
      modifies `waiters
      ensures Valid() && waiters == old(waiters) - 1
    {
      waiters := waiters - 1;
    }

    method Close() returns (ok: bool)
      requires Valid()
      modifies `closed, `asleep
      ensures Valid() && closed && asleep == 0 && ok == !old(closed)
    {
      if closed { return false; }
      closed := true;
      asleep := 0;
      return true;
    }

    /** One step of a run. */
    method Do(call: Call<T>) returns (out: seq<Pulled<T>>)
      requires Valid()
      modifies this
      ensures Valid() && closed == (old(closed) || call.DoClose?) && |queues| == |old(queues)|
      ensures OneStep(old(TheRing()), ActOf(call, old(closed), hasPriority, |weights|), TheRing())
      ensures AllFlow(old(queues), [call], out, queues)
      ensures hasPriority ==> Flows(old(prio), Put([call], Priority), Got(out, Priority), prio)
      ensures |out| <= 1 && (!call.DoPull? ==> out == []) && Proper(out, |weights|)
      ensures if ActOf(call, old(closed), hasPriority, |weights|) == [] then GotInAll(out) == 0
              else call.DoPull? ==> out != []
    {
      hide Cbwfq.Valid, Next, Total, RingOk, NothingQueued, AllFlow, Got, GotInAll, Put, Proper, Lens, OneStep;
      NoStep(TheRing());
      OneCall(call, Priority);
      NoAnswer<T>(|weights|, Priority);
      NothingFlows(call, queues);
      out := [];
      match call
      case DoInsert(c, item) => DoInserts(c, item);
      case DoAccount => if inserting > 0 { Account(); }
      case DoPull(n, fails) => out := DoPulls(n, fails);
      case DoCancel => if asleep > 0 { Cancel(); }
      case DoDepart => if waiters > asleep { Depart(); }
      case DoClose => var _ := Close();
    }

    /** A whole run, from any state on: what the Pulls return from a class is, in order, what was in it and what was
        inserted; the ring goes through the steps of the calls; and what the rule of the ring has it take from each
        class is how much the Pulls return from it. */
    method Run(calls: seq<Call<T>>) returns (out: seq<Pulled<T>>)
      requires Valid()
      modifies this
      ensures Valid() && Proper(out, |weights|)
      ensures AllFlow(old(queues), calls, out, queues)
      ensures hasPriority ==> Flows(old(prio), Put(calls, Priority), Got(out, Priority), prio)
      ensures FollowsRing(old(TheRing()), ActsOf(calls, old(closed), hasPriority, |weights|), out, TheRing())
      decreases |calls|
    {
      hide Next, Total, RingOk, NothingQueued, AllFlow, Flows, FollowsRing, Proper;
      ghost var r, qs, ps, c := TheRing(), queues, prio, closed;
      if calls == [] {
        NothingRuns(r, qs, ps);
        return [];
      }
      var out1 := Do(calls[0]);
      ghost var r1, qs1, ps1 := TheRing(), queues, prio;
      var out2 := Run(calls[1..]);
      out := out1 + out2;
      assert calls == [calls[0]] + calls[1..];
      AllFlowOn(qs, calls[0], out1, qs1, calls[1..], out2, queues);
      CatOne(calls[0], calls[1..], out1, out2, Priority);
      if hasPriority {
        FlowsOn(ps, Put([calls[0]], Priority), Got(out1, Priority), ps1, Put(calls[1..], Priority), Got(out2, Priority),
                prio);
      }
      ProperOn(out1, out2, |weights|);
      FollowsOn(r, calls, c, hasPriority, |weights|, qs, out1, r1, qs1, out2, TheRing());
    }

    /** Fairness of what the Pulls of a whole run return: between two weighted classes that stay non-empty, in the
        proportion of the weights to within one quantum; and while a class that stays non-empty is passed over, no more
        items, and so no more answers, from the others than the sum of their weights. */
    method FairRun(calls: seq<Call<T>>) returns (out: seq<Pulled<T>>)
      requires Valid()
      modifies this
      ensures Valid() && AllFlow(old(queues), calls, out, queues)
      ensures var r, acts := old(TheRing()), ActsOf(calls, old(closed), hasPriority, |weights|);
        && RingOk(r) && Allowed(r, acts) && TheRing() == End(r, acts)
        && (forall i, j ::
              0 <= i < |weights| && 0 <= j < |weights| && i != j && Busy(r, acts, i) && Busy(r, acts, j) ==>
              Fair(weights, out, i, j))
        && (forall i :: 0 <= i < |weights| && Busy(r, acts, i) && Got(out, Weighted(i)) == [] ==>
              WeightedAnswers(out) <= GotInAll(out) <= Sum(weights) - weights[i])
    {
      hide Next, Total, RingOk, NothingQueued, AllFlow, Flows, Proper, Busy, Served, Allowed, End, Sum, Got;
      ghost var r, acts := TheRing(), ActsOf(calls, closed, hasPriority, |weights|);
      out := Run(calls);
      AnswersAreItems(out, |weights|);
      forall i, j | 0 <= i < |weights| && 0 <= j < |weights| && i != j && Busy(r, acts, i) && Busy(r, acts, j)
        ensures Fair(weights, out, i, j)
      {
        ProportionalFairness(r, acts, i, j);
      }
      forall i | 0 <= i < |weights| && Busy(r, acts, i) && Got(out, Weighted(i)) == []
        ensures GotInAll(out) <= Sum(weights) - weights[i]
      {
        NoStarvation(r, acts, i);
      }
    }

    method DoInserts(c: Cls, item: T)
      requires Valid()
      modifies this
      ensures Valid() && closed == old(closed) && |queues| == |old(queues)|
      ensures OneStep(old(TheRing()), ActOf(DoInsert(c, item), closed, hasPriority, |weights|), TheRing())
      ensures AllFlow(old(queues), [DoInsert(c, item)], [], queues)
      ensures hasPriority ==> prio == old(prio) + Put([DoInsert(c, item)], Priority)
    {
      hide Cbwfq.Valid, Next, Total, RingOk, NothingQueued, AllFlow, Put, Lens;
      ValidParts();
      OneCall(DoInsert(c, item), Priority);
      ghost var qs := queues;
      if Known(c, hasPriority, |queues|) { Insert(c, item); }
      if c.Weighted? && c.i < |qs| {
        InsertFlows(DoInsert(c, item), qs, queues);
      } else {
        NothingFlows(DoInsert(c, item), qs);
      }
    }

    method DoPulls(n: nat, fails: bool) returns (out: seq<Pulled<T>>)
      requires Valid()
      modifies this
      ensures Valid() && closed == old(closed) && |out| <= 1 && |queues| == |old(queues)|
      ensures OneStep(old(TheRing()), ActOf<T>(DoPull(n, fails), old(closed), hasPriority, |weights|), TheRing())
      ensures AllFlow(old(queues), [DoPull(n, fails)], out, queues)
      ensures old(prio) == Got(out, Priority) + prio
      ensures Proper(out, |weights|) && if old(closed) || n == 0 then GotInAll(out) == 0 else out != []
    {
      hide Cbwfq.Valid, Next, Total, RingOk, NothingQueued, AllFlow, Got, GotInAll, Put, Proper, Lens, OneStep, ActOf;
      ghost var r0 := TheRing();
      ValidParts();
      NoAnswer<T>(|weights|, Priority);
      if n == 0 {
        PullStep<T>(r0, n, fails, closed, hasPriority, |weights|, r0);
        NothingFlows(DoPull(n, fails), queues);
        return [];
      }
      ghost var qs := queues;
      var p := Pull(n, fails);
      PullStep<T>(r0, n, fails, closed, hasPriority, |weights|, TheRing());
      ValidParts();
      OneAnswer(p, Priority);
      OneProper(p, |weights|);
      PullFlows(DoPull(n, fails), p, qs, queues);
      return [p];
    }
  }

  lemma RingShape(r: Ring)
    requires RingOk(r)
    ensures |r.lens| == |r.deficit| == |r.weights| && (r.weights != [] ==> r.cursor < |r.weights|)
  {
  }

  lemma ScanUnfolds(r: Ring, m: nat)
    requires RingOk(r) && m <= |r.weights|
    ensures m == 0 ==> Scan(r, m) == r
    ensures m > 0 && r.lens[r.cursor] == 0 ==> Scan(r, m) == Scan(Leave(r), m - 1)
    ensures m > 0 && r.lens[r.cursor] > 0 ==> Scan(r, m) == Grant(r)
  {
  }

  lemma SumGrows(s: seq<nat>, i: nat)
    requires i < |s|
    ensures Sum(s[..i + 1]) == Sum(s[..i]) + s[i]
  {
    SumSplits(s[..i + 1], i);
    assert s[..i + 1][..i] == s[..i] && s[..i + 1][i..] == [s[i]];
  }
}
