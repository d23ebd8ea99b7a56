/** Deficit Weighted Round Robin on class lengths: what one Pull does to the ring, and how fair every window of
    Pulls is. A Pull's critical section and each insert into a class queue are one step. */
module FairRing {
  import opened Basics

  /** The weighted classes in ring order, and how many items the priority class holds (none if there is no such
      class). */
  datatype Ring = Ring(weights: seq<nat>, lens: seq<nat>, deficit: seq<nat>, cursor: nat, prio: nat)

  ghost predicate RingOk(r: Ring)
  {
    && |r.lens| == |r.deficit| == |r.weights|
    && (forall k :: 0 <= k < |r.weights| ==> 1 <= r.weights[k])
    && (if |r.weights| == 0 then r.cursor == 0 else r.cursor < |r.weights|)
    && (forall k :: 0 <= k < |r.weights| ==> r.deficit[k] <= r.weights[k])
    && (forall k :: 0 <= k < |r.weights| && k != r.cursor ==> r.deficit[k] == 0)
  }

  function Succ(c: nat, n: nat): nat
    requires c < n
  {
    (c + 1) % n
  }

  lemma SuccIs(c: nat, n: nat)
    requires c < n
    ensures Succ(c, n) == if c + 1 == n then 0 else c + 1
  {
  }

  /** The cursor leaves a class: its deficit is gone. */
  ghost function Leave(r: Ring): (s: Ring)
    requires RingOk(r) && r.weights != []
    ensures RingOk(s) && s.lens == r.lens && s.weights == r.weights && s.deficit[s.cursor] == 0
  {
    r.(deficit := r.deficit[r.cursor := 0], cursor := Succ(r.cursor, |r.weights|))
  }

  ghost predicate Ready(r: Ring)
  {
    RingOk(r) && r.weights != [] && 0 < r.lens[r.cursor] && 0 < r.deficit[r.cursor]
  }

  /** A class just reached is granted a fresh quantum. */
  ghost function Grant(r: Ring): (s: Ring)
    requires RingOk(r) && r.weights != []
    ensures RingOk(s) && s.lens == r.lens && s.weights == r.weights && s.cursor == r.cursor && s.prio == r.prio
    ensures s.deficit[s.cursor] > 0
  {
    if r.deficit[r.cursor] == 0 then r.(deficit := r.deficit[r.cursor := r.weights[r.cursor]]) else r
  }

  /** The scan of serveable from the cursor, over at most m classes. */
  ghost function Scan(r: Ring, m: nat): (s: Ring)
    requires RingOk(r) && m <= |r.weights|
    ensures RingOk(s) && s.weights == r.weights && s.lens == r.lens && s.prio == r.prio
    decreases m
  {
    if m == 0 then r
    else if r.lens[r.cursor] == 0 then Scan(Leave(r), m - 1)
    else Grant(r)
  }

  /** serve's bookkeeping once k items have left the class at the cursor. */
  ghost function Charge(r: Ring, k: nat): (s: Ring)
    requires RingOk(r) && r.weights != [] && k <= r.deficit[r.cursor]
    ensures RingOk(s) && s.weights == r.weights && s.lens == r.lens
  {
    var s := r.(deficit := r.deficit[r.cursor := r.deficit[r.cursor] - k]);
    if s.deficit[s.cursor] == 0 || s.lens[s.cursor] == 0 then Leave(s) else s
  }

  /** serve on the class at the cursor, n items asked for. */
  ghost function Take(r: Ring, n: nat): (s: Ring)
    requires Ready(r)
    ensures RingOk(s) && s.weights == r.weights
  {
    var k := Min(n, Min(r.lens[r.cursor], r.deficit[r.cursor]));
    Charge(r.(lens := r.lens[r.cursor := r.lens[r.cursor] - k]), k)
  }

  /** Inserts into a weighted class and into the priority class, and Pulls, of which some fail in the class
      queue's Pop and take nothing. */
  datatype Act = Insert(i: nat) | InsertPriority | Pull(n: nat, fails: bool)

  predicate Fits(r: Ring, a: Act)
  {
    match a
    case Insert(i) => i < |r.lens|
    case InsertPriority => true
    case Pull(n, _) => 1 <= n
  }

  ghost function Next(r: Ring, a: Act): (s: Ring)
    requires RingOk(r) && Fits(r, a)
    ensures RingOk(s) && s.weights == r.weights
  {
    match a
    case Insert(i) => r.(lens := r.lens[i := r.lens[i] + 1])
    case InsertPriority => r.(prio := r.prio + 1)
    case Pull(n, fails) =>
      if r.prio > 0 then (if fails then r else r.(prio := r.prio - Min(n, r.prio)))
      else
        var s := Scan(r, |r.weights|);
        if Ready(s) && !fails then Take(s, n) else s
  }

  /** What a step takes from weighted class i. */
  ghost function Taken(r: Ring, a: Act, i: nat): int
    requires RingOk(r) && Fits(r, a) && i < |r.lens|
  {
    if a.Pull? then r.lens[i] - Next(r, a).lens[i] else 0
  }

  /** How far the cursor has to go from c to reach k. */
  function Dist(c: nat, k: nat, n: nat): nat
    requires c < n && k < n
  {
    if c <= k then k - c else k - c + n
  }

  lemma {:induction false} ScanReaches(r: Ring, m: nat, k: nat)
    requires RingOk(r) && m <= |r.weights| && k < |r.weights| && r.lens[k] > 0
    requires Dist(r.cursor, k, |r.weights|) < m
    ensures Ready(Scan(r, m))
    decreases m
  {
    SuccIs(r.cursor, |r.weights|);
    if r.lens[r.cursor] == 0 { ScanReaches(Leave(r), m - 1, k); }
  }

  /** A revolution of the cursor finds a class to serve exactly when some weighted class holds an item. */
  lemma FullScanFindsAll(r: Ring)
    requires RingOk(r)
    ensures Ready(Scan(r, |r.weights|)) <==> exists k :: 0 <= k < |r.lens| && r.lens[k] > 0
  {
    if k :| 0 <= k < |r.lens| && r.lens[k] > 0 {
      ScanReaches(r, |r.weights|, k);
    }
  }

  // ---- turns

  /** Only a class that holds something has anything left of its quantum: one that empties gives up its turn. */
  ghost predicate NoneIdles(r: Ring)
  {
    forall k :: 0 <= k < |r.lens| && k < |r.deficit| && r.deficit[k] > 0 ==> r.lens[k] > 0
  }

  lemma {:induction false} ScanKeepsTurns(r: Ring, m: nat)
    requires RingOk(r) && NoneIdles(r) && m <= |r.weights|
    ensures NoneIdles(Scan(r, m))
    decreases m
  {
    if m > 0 && r.lens[r.cursor] == 0 { ScanKeepsTurns(Leave(r), m - 1); }
  }

  lemma TakeKeepsTurns(r: Ring, n: nat)
    requires Ready(r) && NoneIdles(r)
    ensures NoneIdles(Take(r, n))
  {
  }

  lemma PriorityApart(r: Ring, p: nat)
    ensures NoneIdles(r.(prio := p)) <==> NoneIdles(r)
  {
  }

  /** No step brings about another ring, so in every run a class that has emptied starts its next turn afresh. */
  lemma NextKeepsTurns(r: Ring, a: Act)
    requires RingOk(r) && NoneIdles(r) && Fits(r, a)
    ensures NoneIdles(Next(r, a))
  {
    hide Scan, Take;
    ScanKeepsTurns(r, |r.weights|);
    if a.Pull? && Ready(Scan(r, |r.weights|)) { TakeKeepsTurns(Scan(r, |r.weights|), a.n); }
  }

  /** The class that holds something and is reached first from the cursor. */
  ghost predicate Nearest(r: Ring, k: nat)
  {
    && RingOk(r) && k < |r.weights| && r.lens[k] > 0
    && forall j :: 0 <= j < |r.weights| && r.lens[j] > 0 ==>
         Dist(r.cursor, k, |r.weights|) <= Dist(r.cursor, j, |r.weights|)
  }

  /** What class k may give when the cursor reaches it: what is left of its turn, or a fresh quantum. */
  ghost function Allowance(r: Ring, k: nat): nat
    requires RingOk(r) && k < |r.weights|
  {
    if r.deficit[k] > 0 then r.deficit[k] else r.weights[k]
  }

  lemma PassingKeepsNearest(r: Ring, k: nat)
    requires Nearest(r, k) && r.lens[r.cursor] == 0
    ensures var s := Leave(r);
      && Nearest(s, k) && Dist(s.cursor, k, |s.weights|) == Dist(r.cursor, k, |r.weights|) - 1
      && Allowance(s, k) == Allowance(r, k)
  {
    SuccIs(r.cursor, |r.weights|);
  }

  lemma {:induction false} ScanStopsAtNearest(r: Ring, m: nat, k: nat)
    requires Nearest(r, k) && m <= |r.weights| && Dist(r.cursor, k, |r.weights|) < m
    ensures var s := Scan(r, m); s.cursor == k && s.deficit[k] == Allowance(r, k)
    decreases m
  {
    if r.lens[r.cursor] == 0 {
      hide Nearest, Leave;
      PassingKeepsNearest(r, k);
      ScanStopsAtNearest(Leave(r), m - 1, k);
    }
  }

  /** A Pull that finds nothing in the priority class takes from the nearest class that holds something, as much as is
      asked for, there and allowed; the turn passes on exactly when the class has emptied or spent its allowance, and
      nobody else keeps any. */
  lemma PullServesNearest(r: Ring, n: nat, k: nat)
    requires Nearest(r, k) && r.prio == 0 && 1 <= n
    ensures var q := Allowance(r, k);
      var take := Min(n, Min(r.lens[k], q));
      var s, stays := Next(r, Pull(n, false)), take < q && take < r.lens[k];
      && s.lens == r.lens[k := r.lens[k] - take]
      && s.cursor == (if stays then k else Succ(k, |r.weights|))
      && forall j :: 0 <= j < |r.weights| ==> s.deficit[j] == if stays && j == k then q - take else 0
  {
    ScanStopsAtNearest(r, |r.weights|, k);
    assert Ready(Scan(r, |r.weights|));
  }

  // ---- proportional fairness

  function Times(x: int, y: int): int
  {
    x * y
  }

  lemma TimesFacts(u: nat, k: nat, w: nat, v: nat)
    ensures Times(0, v) == 0 && Times(w, v) == Times(v, w) && Times(u + k, v) == Times(u, v) + Times(k, v)
    ensures u <= w ==> 0 <= Times(u, v) <= Times(w, v)
  {
  }

  /** How far class i is ahead of class j in a revolution that has come to class c and used u of its quantum, in
      items of i times w_j less items of j times w_i. It rises while i is served, stays at w_i * w_j until j's turn,
      and falls while j is served. */
  ghost function LeadAt(w: seq<nat>, c: nat, u: int, i: nat, j: nat): int
    requires c < |w| && i < |w| && j < |w|
  {
    var a, b := Dist(i, c, |w|), Dist(i, j, |w|);
    if a == 0 then Times(u, w[j])
    else if a < b then Times(w[i], w[j])
    else if a == b then Times(w[i], w[j]) - Times(u, w[i])
    else 0
  }

  /** Going on from a class whose quantum is used up, or from a class that is neither of the two. */
  lemma LeadPasses(w: seq<nat>, c: nat, u: int, i: nat, j: nat)
    requires c < |w| && i < |w| && j < |w| && i != j
    requires u == w[c] || (c != i && c != j)
    ensures LeadAt(w, Succ(c, |w|), 0, i, j) == LeadAt(w, c, u, i, j)
  {
    hide Times;
    SuccIs(c, |w|);
    TimesFacts(0, 0, w[i], w[j]);
    TimesFacts(0, 0, w[j], w[i]);
  }

  /** How much of its quantum the class at the cursor has used. */
  ghost function Used(r: Ring): int
    requires RingOk(r) && r.weights != []
  {
    if r.deficit[r.cursor] == 0 then 0 else r.weights[r.cursor] - r.deficit[r.cursor]
  }

  ghost function Lead(r: Ring, i: nat, j: nat): int
    requires RingOk(r) && i < |r.weights| && j < |r.weights|
  {
    LeadAt(r.weights, r.cursor, Used(r), i, j)
  }

  lemma LeadIsBounded(r: Ring, i: nat, j: nat)
    requires RingOk(r) && i < |r.weights| && j < |r.weights| && i != j
    ensures 0 <= Lead(r, i, j) <= Times(r.weights[i], r.weights[j])
  {
    hide Times;
    TimesFacts(Used(r), 0, r.weights[r.cursor], r.weights[i]);
    TimesFacts(Used(r), 0, r.weights[r.cursor], r.weights[j]);
    TimesFacts(0, 0, r.weights[i], r.weights[j]);
    TimesFacts(r.weights[i], 0, r.weights[i], r.weights[j]);
  }

  /** Passing an empty class changes no lead between others. */
  lemma {:induction false} ScanKeepsLead(r: Ring, m: nat, i: nat, j: nat)
    requires RingOk(r) && m <= |r.weights| && i < |r.weights| && j < |r.weights| && i != j
    requires r.lens[i] > 0 && r.lens[j] > 0
    ensures Lead(Scan(r, m), i, j) == Lead(r, i, j)
    decreases m
  {
    hide LeadAt;
    if m > 0 && r.lens[r.cursor] == 0 {
      LeadPasses(r.weights, r.cursor, Used(r), i, j);
      ScanKeepsLead(Leave(r), m - 1, i, j);
    }
  }

  lemma TakeMovesLead(r: Ring, n: nat, i: nat, j: nat)
    requires Ready(r) && i < |r.weights| && j < |r.weights| && i != j
    requires Take(r, n).lens[i] > 0 && Take(r, n).lens[j] > 0
    ensures Lead(Take(r, n), i, j) - Lead(r, i, j)
         == Times(r.lens[i] - Take(r, n).lens[i], r.weights[j]) - Times(r.lens[j] - Take(r, n).lens[j], r.weights[i])
  {
    hide LeadAt, Times;
    var c := r.cursor;
    var k := Min(n, Min(r.lens[c], r.deficit[c]));
    var s := Take(r, n);
    assert s.lens == r.lens[c := r.lens[c] - k];
    if k == r.deficit[c] || (c != i && c != j) { LeadPasses(r.weights, c, Used(r) + k, i, j); }
    TimesFacts(0, 0, 0, r.weights[i]);
    TimesFacts(0, 0, 0, r.weights[j]);
    LeadGrows(r.weights, c, Used(r), k, i, j);
  }

  lemma LeadGrows(w: seq<nat>, c: nat, u: nat, k: nat, i: nat, j: nat)
    requires c < |w| && i < |w| && j < |w| && i != j
    ensures LeadAt(w, c, u + k, i, j) - LeadAt(w, c, u, i, j)
         == (if c == i then Times(k, w[j]) else 0) - (if c == j then Times(k, w[i]) else 0)
  {
    hide Times;
    TimesFacts(u, k, 0, w[j]);
    TimesFacts(u, k, 0, w[i]);
  }

  // ---- windows of steps

  ghost predicate Allowed(r: Ring, run: seq<Act>)
    requires RingOk(r)
    decreases |run|
  {
    run == [] || (Fits(r, run[0]) && Allowed(Next(r, run[0]), run[1..]))
  }

  ghost function End(r: Ring, run: seq<Act>): (s: Ring)
    requires RingOk(r) && Allowed(r, run)
    ensures RingOk(s) && s.weights == r.weights
    decreases |run|
  {
    if run == [] then r else End(Next(r, run[0]), run[1..])
  }

  /** Class i holds an item in every state of the window. */
  ghost predicate Busy(r: Ring, run: seq<Act>, i: nat)
    requires RingOk(r) && Allowed(r, run) && i < |r.weights|
    decreases |run|
  {
    r.lens[i] > 0 && (run != [] ==> Busy(Next(r, run[0]), run[1..], i))
  }

  /** The items Pulls take from weighted class i in the window. */
  ghost function Served(r: Ring, run: seq<Act>, i: nat): int
    requires RingOk(r) && Allowed(r, run) && i < |r.weights|
    decreases |run|
  {
    if run == [] then 0 else Taken(r, run[0], i) + Served(Next(r, run[0]), run[1..], i)
  }

  lemma StepMovesLead(r: Ring, a: Act, i: nat, j: nat)
    requires RingOk(r) && Fits(r, a) && i < |r.weights| && j < |r.weights| && i != j
    requires r.lens[i] > 0 && r.lens[j] > 0 && Next(r, a).lens[i] > 0 && Next(r, a).lens[j] > 0
    ensures Lead(Next(r, a), i, j) - Lead(r, i, j)
         == Times(Taken(r, a, i), r.weights[j]) - Times(Taken(r, a, j), r.weights[i])
  {
    hide LeadAt, Times, Scan, Take, Leave;
    TimesFacts(0, 0, 0, r.weights[i]);
    TimesFacts(0, 0, 0, r.weights[j]);
    if a.Pull? && r.prio == 0 {
      var s := Scan(r, |r.weights|);
      ScanKeepsLead(r, |r.weights|, i, j);
      if Ready(s) && !a.fails { TakeMovesLead(s, a.n, i, j); }
    }
  }

  lemma {:induction false} WindowMovesLead(r: Ring, run: seq<Act>, i: nat, j: nat)
    requires RingOk(r) && Allowed(r, run) && i < |r.weights| && j < |r.weights| && i != j
    requires Busy(r, run, i) && Busy(r, run, j)
    ensures Lead(End(r, run), i, j) - Lead(r, i, j)
         == Served(r, run, i) * r.weights[j] - Served(r, run, j) * r.weights[i]
    decreases |run|
  {
    hide Lead, Next;
    if run != [] {
      var s := Next(r, run[0]);
      StepMovesLead(r, run[0], i, j);
      WindowMovesLead(s, run[1..], i, j);
      assert (Taken(r, run[0], i) + Served(s, run[1..], i)) * r.weights[j]
          == Taken(r, run[0], i) * r.weights[j] + Served(s, run[1..], i) * r.weights[j];
      assert (Taken(r, run[0], j) + Served(s, run[1..], j)) * r.weights[i]
          == Taken(r, run[0], j) * r.weights[i] + Served(s, run[1..], j) * r.weights[i];
    }
  }

  /** Over any window in which two weighted classes stay non-empty, whatever the sizes of the Pulls, however many of
      them the priority class answers and whatever other classes do, the items taken are in the proportion of the
      weights to within one quantum. */
  lemma ProportionalFairness(r: Ring, run: seq<Act>, i: nat, j: nat)
    requires RingOk(r) && Allowed(r, run) && i < |r.weights| && j < |r.weights| && i != j
    requires Busy(r, run, i) && Busy(r, run, j)
    ensures var lead := Served(r, run, i) * r.weights[j] - Served(r, run, j) * r.weights[i];
      -(r.weights[i] * r.weights[j]) <= lead <= r.weights[i] * r.weights[j]
  {
    WindowMovesLead(r, run, i, j);
    LeadIsBounded(r, i, j);
    LeadIsBounded(End(r, run), i, j);
  }

  // ---- no starvation

  function Sum(s: seq<nat>): nat
  {
    if s == [] then 0 else s[0] + Sum(s[1..])
  }

  lemma {:induction false} SumSplits(s: seq<nat>, k: nat)
    requires k <= |s|
    ensures Sum(s) == Sum(s[..k]) + Sum(s[k..])
  {
    if k > 0 {
      SumSplits(s[1..], k - 1);
      assert s[..k][1..] == s[1..][..k - 1] && s[1..][k - 1..] == s[k..];
    } else {
      assert s[0..] == s;
    }
  }

  lemma {:induction false} SumUpdate(s: seq<nat>, k: nat, x: nat)
    requires k < |s|
    ensures Sum(s[k := x]) == Sum(s) - s[k] + x
  {
    SumSplits(s, k);
    SumSplits(s[k := x], k);
    assert s[k := x][..k] == s[..k] && s[k := x][k..][1..] == s[k..][1..];
  }

  /** The weights from class k on round to just before class i. */
  function Arc(w: seq<nat>, k: nat, i: nat): nat
    requires k < |w| && i < |w|
  {
    if k <= i then Sum(w[k..i]) else Sum(w[k..]) + Sum(w[..i])
  }

  lemma SumFirst(w: seq<nat>, k: nat, i: nat)
    requires k < i <= |w|
    ensures Sum(w[k..i]) == w[k] + Sum(w[k + 1..i])
  {
    assert w[k..i][1..] == w[k + 1..i];
  }

  lemma SumPart(w: seq<nat>, i: nat, k: nat, j: nat)
    requires i <= k <= j <= |w|
    ensures Sum(w[k..j]) <= Sum(w[i..j])
  {
    SumSplits(w[i..j], k - i);
    assert w[i..j][k - i..] == w[k..j];
  }

  lemma ArcStep(w: seq<nat>, k: nat, i: nat)
    requires k < |w| && i < |w| && k != i
    ensures Arc(w, k, i) == w[k] + Arc(w, Succ(k, |w|), i)
  {
    hide Sum;
    SuccIs(k, |w|);
    if k < i {
      SumFirst(w, k, i);
    } else {
      SumFirst(w, k, |w|);
      NothingSums(w, |w|);
      assert w[k..] == w[k..|w|] && w[k + 1..] == w[k + 1..|w|] && w[0..i] == w[..i];
    }
  }

  lemma NothingSums(w: seq<nat>, k: nat)
    requires k <= |w|
    ensures Sum(w[k..k]) == 0
  {
  }

  lemma NoArc(w: seq<nat>, i: nat)
    requires i < |w|
    ensures Arc(w, i, i) == 0
  {
    NothingSums(w, i);
  }

  lemma ArcIsBounded(w: seq<nat>, k: nat, i: nat)
    requires k < |w| && i < |w|
    ensures Arc(w, k, i) <= Sum(w) - w[i]
  {
    hide Sum;
    SumSplits(w, i);
    SumFirst(w, i, |w|);
    assert w[i..] == w[i..|w|] && w[..i] == w[0..i];
    if k <= i {
      SumPart(w, 0, k, i);
    } else {
      SumPart(w, i + 1, k, |w|);
      assert w[k..] == w[k..|w|];
    }
  }

  ghost function Remaining(r: Ring): nat
    requires RingOk(r) && r.weights != []
  {
    if r.deficit[r.cursor] == 0 then r.weights[r.cursor] else r.deficit[r.cursor]
  }

  /** What the classes ahead of class i may still take before its turn. */
  ghost function Ahead(r: Ring, i: nat): nat
    requires RingOk(r) && i < |r.weights|
  {
    if r.cursor == i then 0
    else Remaining(r) + Arc(r.weights, Succ(r.cursor, |r.weights|), i)
  }

  lemma AheadIsBounded(r: Ring, i: nat)
    requires RingOk(r) && i < |r.weights|
    ensures Ahead(r, i) <= Sum(r.weights) - r.weights[i]
  {
    hide Arc, Sum;
    ArcIsBounded(r.weights, r.cursor, i);
    if r.cursor != i { ArcStep(r.weights, r.cursor, i); }
  }

  lemma LeaveShortensAhead(r: Ring, i: nat)
    requires RingOk(r) && i < |r.weights| && r.cursor != i
    ensures Ahead(Leave(r), i) + Remaining(r) == Ahead(r, i)
  {
    hide Arc, Sum;
    if Succ(r.cursor, |r.weights|) == i {
      NoArc(r.weights, i);
    } else {
      ArcStep(r.weights, Succ(r.cursor, |r.weights|), i);
    }
  }

  lemma {:induction false} ScanKeepsAhead(r: Ring, m: nat, i: nat)
    requires RingOk(r) && m <= |r.weights| && i < |r.weights| && r.lens[i] > 0
    ensures Ahead(Scan(r, m), i) <= Ahead(r, i)
    decreases m
  {
    hide Arc;
    if m > 0 && r.lens[r.cursor] == 0 {
      LeaveShortensAhead(r, i);
      ScanKeepsAhead(Leave(r), m - 1, i);
    }
  }

  /** Items a step takes from the weighted classes together. */
  ghost function TakenInAll(r: Ring, a: Act): int
    requires RingOk(r) && Fits(r, a)
  {
    if a.Pull? then Sum(r.lens) - Sum(Next(r, a).lens) else 0
  }

  lemma TakeShortensAhead(r: Ring, n: nat, i: nat)
    requires Ready(r) && i < |r.weights| && r.cursor != i && 1 <= n
    ensures 1 <= Sum(r.lens) - Sum(Take(r, n).lens)
    ensures Sum(r.lens) - Sum(Take(r, n).lens) + Ahead(Take(r, n), i) <= Ahead(r, i)
  {
    hide Arc;
    var c := r.cursor;
    var k := Min(n, Min(r.lens[c], r.deficit[c]));
    SumUpdate(r.lens, c, r.lens[c] - k);
    LeaveShortensAhead(r, i);
  }

  ghost function ServedInAll(r: Ring, run: seq<Act>): int
    requires RingOk(r) && Allowed(r, run)
    decreases |run|
  {
    if run == [] then 0 else TakenInAll(r, run[0]) + ServedInAll(Next(r, run[0]), run[1..])
  }

  /** The Pulls of the window that succeed and that the priority class does not answer. */
  ghost function WeightedPulls(r: Ring, run: seq<Act>): nat
    requires RingOk(r) && Allowed(r, run)
    decreases |run|
  {
    if run == [] then 0
    else (if run[0].Pull? && r.prio == 0 && !run[0].fails then 1 else 0) + WeightedPulls(Next(r, run[0]), run[1..])
  }

  lemma StepShortensAhead(r: Ring, a: Act, i: nat)
    requires RingOk(r) && Fits(r, a) && i < |r.weights| && r.lens[i] > 0 && Taken(r, a, i) == 0
    ensures 0 <= TakenInAll(r, a) && TakenInAll(r, a) + Ahead(Next(r, a), i) <= Ahead(r, i)
    ensures a.Pull? && r.prio == 0 && !a.fails ==> 1 <= TakenInAll(r, a)
  {
    hide Arc;
    if a.Pull? && r.prio == 0 {
      var s := Scan(r, |r.weights|);
      ScanKeepsAhead(r, |r.weights|, i);
      FullScanFindsAll(r);
      if !a.fails {
        assert Ready(s) && s.cursor != i;
        TakeShortensAhead(s, a.n, i);
      }
    }
  }

  lemma {:induction false} WindowShortensAhead(r: Ring, run: seq<Act>, i: nat)
    requires RingOk(r) && Allowed(r, run) && i < |r.weights| && Busy(r, run, i) && Served(r, run, i) == 0
    ensures WeightedPulls(r, run) <= ServedInAll(r, run) <= Ahead(r, i)
    decreases |run|
  {
    hide Ahead, Next, Sum;
    if run != [] {
      NeverNegative(r, run[0], i);
      RestNeverNegative(Next(r, run[0]), run[1..], i);
      StepShortensAhead(r, run[0], i);
      WindowShortensAhead(Next(r, run[0]), run[1..], i);
    }
  }

  lemma NeverNegative(r: Ring, a: Act, i: nat)
    requires RingOk(r) && Fits(r, a) && i < |r.weights|
    ensures 0 <= Taken(r, a, i)
  {
  }

  lemma {:induction false} RestNeverNegative(r: Ring, run: seq<Act>, i: nat)
    requires RingOk(r) && Allowed(r, run) && i < |r.weights|
    ensures 0 <= Served(r, run, i)
    decreases |run|
  {
    hide Next;
    if run != [] {
      NeverNegative(r, run[0], i);
      RestNeverNegative(Next(r, run[0]), run[1..], i);
    }
  }

  /** While class i holds an item and is not served, the other weighted classes give at most the sum of their weights,
      and no more Pulls than that get past the priority class: one more, and i is served. */
  lemma NoStarvation(r: Ring, run: seq<Act>, i: nat)
    requires RingOk(r) && Allowed(r, run) && i < |r.weights| && Busy(r, run, i) && Served(r, run, i) == 0
    ensures WeightedPulls(r, run) <= ServedInAll(r, run) <= Sum(r.weights) - r.weights[i]
  {
    WindowShortensAhead(r, run, i);
    AheadIsBounded(r, i);
  }
}
