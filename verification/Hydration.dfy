/** The exemption of restored entries from the bound: how it is charged, by position or by arrival number, and that
    either way it is the number of restored entries still present. Contents are arrival numbers; those below `end` came
    from Hydrate. */
module Hydration {
  import opened Basics

  /** How many of c are below end. */
  function Below(c: seq<nat>, end: nat): (n: nat)
    ensures n <= |c|
  {
    if c == [] then 0 else Below(c[..|c| - 1], end) + if c[|c| - 1] < end then 1 else 0
  }

  /** c without the positions in gone, and what was there. */
  function Kept(c: seq<nat>, gone: set<nat>): seq<nat>
  {
    if c == [] then [] else Kept(c[..|c| - 1], gone) + if |c| - 1 in gone then [] else [c[|c| - 1]]
  }

  function Picked(c: seq<nat>, gone: set<nat>): seq<nat>
  {
    if c == [] then [] else Picked(c[..|c| - 1], gone) + if |c| - 1 in gone then [c[|c| - 1]] else []
  }

  /** Positions below h that go. */
  function GoneBelow(n: nat, gone: set<nat>, h: int): nat
  {
    if n == 0 then 0 else GoneBelow(n - 1, gone, h) + if n - 1 in gone && n - 1 < h then 1 else 0
  }

  /** dropHydrated of the positional backings. */
  function DropCount(hydrated: int, n: int): int
  {
    if n >= hydrated then 0 else hydrated - n
  }

  /** dropHydrated of the backings that number their entries. */
  function DropSeqs(hydrated: int, seqs: seq<nat>, end: nat): int
  {
    if seqs == [] then hydrated
    else
      var h := DropSeqs(hydrated, seqs[..|seqs| - 1], end);
      if seqs[|seqs| - 1] < end && h > 0 then h - 1 else h
  }

  predicate Ascending(c: seq<nat>)
  {
    forall i, j :: 0 <= i < j < |c| ==> c[i] < c[j]
  }

  /** In arrival order, the first Below(c, end) positions are exactly the restored ones. */
  lemma {:induction false} RestoredComeFirst(c: seq<nat>, end: nat, i: nat)
    requires Ascending(c) && i < |c|
    ensures c[i] < end <==> i < Below(c, end)
  {
    var n := |c| - 1;
    if i < n {
      RestoredComeFirst(c[..n], end, i);
      assert c[i] < c[n];
    } else if n > 0 {
      RestoredComeFirst(c[..n], end, n - 1);
    }
  }

  lemma AppendAscends(c: seq<nat>, x: nat)
    requires Ascending(c) && forall y :: y in c ==> y < x
    ensures Ascending(c + [x]) && forall y :: y in c + [x] ==> y <= x
  {
    assert forall i :: 0 <= i < |c| ==> c[i] in c;
  }

  lemma {:induction false} KeptAscends(c: seq<nat>, gone: set<nat>)
    requires Ascending(c)
    ensures Ascending(Kept(c, gone)) && forall x :: x in Kept(c, gone) ==> x in c
  {
    if c != [] {
      var n := |c| - 1;
      var k := Kept(c[..n], gone);
      KeptAscends(c[..n], gone);
      assert forall x :: x in c[..n] ==> x in c && x < c[n];
      if n !in gone { AppendAscends(k, c[n]); } else { assert k + [] == k; }
    }
  }

  lemma OneMoreBelow(c: seq<nat>, x: nat, end: nat)
    ensures Below(c + [x], end) == Below(c, end) + if x < end then 1 else 0
  {
    assert (c + [x])[..|c|] == c;
  }

  lemma {:induction false} KeptCounts(c: seq<nat>, gone: set<nat>, end: nat)
    ensures |Kept(c, gone)| + |Picked(c, gone)| == |c|
    ensures Below(Kept(c, gone), end) + Below(Picked(c, gone), end) == Below(c, end)
  {
    if c != [] {
      var n := |c| - 1;
      var k, r := Kept(c[..n], gone), Picked(c[..n], gone);
      KeptCounts(c[..n], gone, end);
      OneMoreBelow(k, c[n], end);
      OneMoreBelow(r, c[n], end);
      assert k + [] == k && r + [] == r;
      assert Below(c, end) == Below(c[..n], end) + if c[n] < end then 1 else 0;
      hide Below;
    }
  }

  /** Charging removals by arrival number leaves the number of restored entries that remain. */
  lemma {:induction false} DropSeqsIsExact(hydrated: nat, seqs: seq<nat>, end: nat)
    requires Below(seqs, end) <= hydrated
    ensures DropSeqs(hydrated, seqs, end) == hydrated - Below(seqs, end)
  {
    if seqs != [] {
      DropSeqsIsExact(hydrated, seqs[..|seqs| - 1], end);
    }
  }

  lemma {:induction false} GoneBelowIsRemoved(c: seq<nat>, gone: set<nat>, end: nat, h: nat)
    requires forall i :: 0 <= i < |c| ==> (c[i] < end <==> i < h)
    ensures GoneBelow(|c|, gone, h) == Below(Picked(c, gone), end)
  {
    if c != [] {
      var n := |c| - 1;
      var r := Picked(c[..n], gone);
      GoneBelowIsRemoved(c[..n], gone, end, h);
      assert (r + [c[n]])[..|r|] == r && r + [] == r;
    }
  }

  /** Charging a prefix is charging its restored positions. */
  lemma {:induction false} PrefixGone(n: nat, k: nat, gone: set<nat>, h: nat)
    requires forall i: nat :: i < n ==> (i in gone <==> i < k)
    requires k <= n && h <= n
    ensures GoneBelow(n, gone, h) == if k < h then k else h
    decreases n
  {
    PrefixGoneUpTo(n, k, gone, h);
  }

  lemma {:induction false} PrefixGoneUpTo(n: nat, k: nat, gone: set<nat>, h: nat)
    requires forall i: nat :: i < n ==> (i in gone <==> i < k)
    ensures GoneBelow(n, gone, h) == Min(n, Min(k, h))
  {
    if n > 0 {
      PrefixGoneUpTo(n - 1, k, gone, h);
    }
  }

  /** c followed by the m arrivals numbered from next. */
  function Appended(c: seq<nat>, next: nat, m: nat): (d: seq<nat>)
    ensures |d| == |c| + m
  {
    if m == 0 then c else Appended(c, next, m - 1) + [next + m - 1]
  }

  /** New arrivals keep the order and are not restored entries. */
  lemma {:induction false} Arrivals(c: seq<nat>, next: nat, m: nat, end: nat)
    requires end <= next && Ascending(c) && forall x :: x in c ==> x < next
    ensures var d := Appended(c, next, m);
      && Ascending(d) && (forall x :: x in d ==> x < next + m)
      && Below(d, end) == Below(c, end)
  {
    hide Ascending;
    if m > 0 {
      Arrivals(c, next, m - 1, end);
      var e := Appended(c, next, m - 1);
      AppendAscends(e, next + m - 1);
      assert Appended(c, next, m) == e + [next + m - 1];
      assert (e + [next + m - 1])[..|e|] == e;
    }
  }
}
