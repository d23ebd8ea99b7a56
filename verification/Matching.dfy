/** When an item is one of those a caller asks for, and what is left of a collection without those. */
module Matching {
  /** Item.Equal against each of v. */
  predicate Matches<T>(equal: (T, T) -> bool, x: T, v: seq<T>)
  {
    exists j :: 0 <= j < |v| && equal(x, v[j])
  }

  method MatchesAny<T>(equal: (T, T) -> bool, x: T, v: seq<T>) returns (yes: bool)
    ensures yes == Matches(equal, x, v)
  {
    for i := 0 to |v|
      invariant forall j :: 0 <= j < i ==> !equal(x, v[j])
    {
      if equal(x, v[i]) { return true; }
    }
    return false;
  }

  /** s without what is hit, and how much is. */
  function Without<X>(hit: X -> bool, s: seq<X>): seq<X>
  {
    if s == [] then [] else Without(hit, s[..|s| - 1]) + if hit(s[|s| - 1]) then [] else [s[|s| - 1]]
  }

  function Hits<X>(hit: X -> bool, s: seq<X>): (n: nat)
    ensures n <= |s|
  {
    if s == [] then 0 else Hits(hit, s[..|s| - 1]) + if hit(s[|s| - 1]) then 1 else 0
  }

  lemma NothingYet<X>(hit: X -> bool)
    ensures Without(hit, []) == [] && Hits(hit, []) == 0
  {
  }

  lemma OneMore<X>(hit: X -> bool, s: seq<X>, x: X)
    ensures Without(hit, s + [x]) == Without(hit, s) + if hit(x) then [] else [x]
    ensures Hits(hit, s + [x]) == Hits(hit, s) + if hit(x) then 1 else 0
  {
    assert (s + [x])[..|s|] == s;
  }

  lemma {:induction false} HitsSplit<X>(hit: X -> bool, s: seq<X>, k: nat)
    requires k <= |s|
    ensures Hits(hit, s[..k]) <= Hits(hit, s) <= Hits(hit, s[..k]) + |s| - k
  {
    if k == |s| {
      assert s[..k] == s;
    } else {
      var n := |s| - 1;
      HitsSplit(hit, s[..n], k);
      assert s[..n][..k] == s[..k];
    }
  }

  lemma {:induction false} NothingHit<X>(hit: X -> bool, s: seq<X>, h: nat)
    requires Hits(hit, s) == 0 && h <= |s|
    ensures Without(hit, s) == s && Hits(hit, s[..h]) == 0
  {
    HitsSplit(hit, s, h);
    if s != [] { NothingHit(hit, s[..|s| - 1], 0); }
  }

  lemma {:induction false} WithoutHas<X>(hit: X -> bool, s: seq<X>, x: X)
    ensures x in Without(hit, s) <==> x in s && !hit(x)
  {
    if s != [] {
      WithoutHas(hit, s[..|s| - 1], x);
      assert s == s[..|s| - 1] + [s[|s| - 1]];
    }
  }

  lemma {:induction false} WithoutNone<X>(s: seq<X>, hit: X -> bool)
    requires forall x :: x in s ==> !hit(x)
    ensures Without(hit, s) == s
  {
    if s != [] {
      assert s == s[..|s| - 1] + [s[|s| - 1]];
      WithoutNone(s[..|s| - 1], hit);
    }
  }

  lemma {:induction false} WithoutCat<X>(hit: X -> bool, a: seq<X>, b: seq<X>)
    ensures Without(hit, a + b) == Without(hit, a) + Without(hit, b)
  {
    if b == [] {
      assert a + b == a && Without(hit, a) + [] == Without(hit, a);
    } else {
      hide Without;
      var n := |b| - 1;
      WithoutCat(hit, a, b[..n]);
      OneMore(hit, a + b[..n], b[n]);
      OneMore(hit, b[..n], b[n]);
      assert a + b == a + b[..n] + [b[n]] && b == b[..n] + [b[n]];
    }
  }

  /** What Del removes when asked for v. */
  function Hit<T>(equal: (T, T) -> bool, v: seq<T>): T -> bool
  {
    x => Matches(equal, x, v)
  }
}
