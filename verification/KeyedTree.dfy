/** The keyed backing: an ordered tree of entries and an index from hashes to the tree's entries. The caller's Hash may
    unwind at any call out of Push and Pop. The tree library is a sorted sequence of entries. */
module KeyedTree {
  import opened Basics
  import opened Orders
  import opened Matching
  import opened Accounting

  type Buckets<T> = map<int, seq<Entry<T>>>

  /** Each bucket holds exactly the tree's entries with that hash, each once. */
  ghost predicate Agrees<T>(hash: T -> int, m: Buckets<T>, tree: seq<Entry<T>>)
  {
    && (forall h :: h in m ==> m[h] != [] && Distinct(m[h]))
    && (forall h, e :: h in m && e in m[h] ==> e in tree && hash(e.item) == h)
    && (forall e :: e in tree ==> hash(e.item) in m && e in m[hash(e.item)])
  }

  function Bucket<T>(m: Buckets<T>, h: int): seq<Entry<T>>
  {
    if h in m then m[h] else []
  }

  /** The FIFO order is the priority order of items that are all alike. */
  lemma FifoIsPriority<T>(a: Entry<T>, b: Entry<T>)
    ensures FifoSeqLess(a, b) == PrioritySeqLess((x, y) => false, a, b)
  {
  }

  // ---- the index

  /** btreeIndex.add. */
  function Added<T>(m: Buckets<T>, h: int, e: Entry<T>): Buckets<T>
  {
    m[h := Bucket(m, h) + [e]]
  }

  /** r is m, each entry of a bucket once, without the entry numbered seqNo in bucket h. */
  ghost predicate IsWithout<T(!new)>(m: Buckets<T>, h: int, seqNo: nat, r: Buckets<T>)
  {
    && (forall k :: k != h ==> (k in r <==> k in m)) && (forall k :: k != h && k in m ==> r[k] == m[k])
    && (h in r ==> r[h] != []) && Distinct(Bucket(r, h))
    && forall x :: x in Bucket(r, h) <==> x in Bucket(m, h) && x.seqNo != seqNo
  }

  /** btreeIndex.remove: the entry's slot takes the last one, and a bucket left empty goes. */
  method RemoveFrom<T(!new)>(m: Buckets<T>, h: int, seqNo: nat) returns (r: Buckets<T>)
    requires Distinct(Bucket(m, h))
    ensures IsWithout(m, h, seqNo, r)
  {
    r := m;
    var s := Bucket(m, h);
    var i := 0;
    while i < |s|
      invariant 0 <= i <= |s| && forall k :: 0 <= k < i ==> s[k].seqNo != seqNo
    {
      if s[i].seqNo == seqNo {
        var last := |s| - 1;
        r := m[h := s[i := s[last]][..last]];
        SwapWithLast(s, i);
        break;
      }
      i := i + 1;
    }
    if Bucket(r, h) == [] { r := r - {h}; }
  }

  lemma SwapWithLast<T>(s: seq<Entry<T>>, i: nat)
    requires i < |s| && Distinct(s)
    ensures var t := s[i := s[|s| - 1]][..|s| - 1];
      Distinct(t) && forall e :: e in t <==> e in s && e.seqNo != s[i].seqNo
  {
    var last := |s| - 1;
    var t := s[i := s[last]][..last];
    forall e | e in s && e.seqNo != s[i].seqNo ensures e in t {
      var k :| 0 <= k < |s| && s[k] == e;
      if k == last { assert t[i] == e; } else { assert t[k] == e; }
    }
  }

  /** An entry with a new number joins tree and index alike. */
  lemma AddAgrees<T>(hash: T -> int, m: Buckets<T>, tree: seq<Entry<T>>, e: Entry<T>, now: seq<Entry<T>>)
    requires Agrees(hash, m, tree) && forall x :: x in tree ==> x.seqNo != e.seqNo
    requires forall x :: x in now <==> x in tree || x == e
    ensures Agrees(hash, Added(m, hash(e.item), e), now)
  {
    var h := hash(e.item);
    var b := Bucket(m, h);
    assert forall k :: 0 <= k < |b| ==> b[k] in b;
    assert forall x :: x in b + [e] <==> x in b || x == e;
  }

  lemma RemoveAgrees<T(!new)>(hash: T -> int, m: Buckets<T>, tree: seq<Entry<T>>, e: Entry<T>, r: Buckets<T>,
                              now: seq<Entry<T>>)
    requires Agrees(hash, m, tree) && e in tree
    requires forall x, y :: x in tree && y in tree && x.seqNo == y.seqNo ==> x == y
    requires forall x :: x in now <==> x in tree && x != e
    requires IsWithout(m, hash(e.item), e.seqNo, r)
    ensures Agrees(hash, r, now)
  {
    var h := hash(e.item);
    forall k | k in r ensures r[k] != [] && Distinct(r[k]) { assert r[k] == Bucket(r, k); }
    forall k, x | k in r && x in r[k] ensures x in now && hash(x.item) == k {
      if k == h { assert x in Bucket(r, h); } else { assert x in m[k]; }
    }
    forall x | x in now ensures hash(x.item) in r && x in r[hash(x.item)] {
      assert x in m[hash(x.item)];
      if hash(x.item) == h {
        assert x in Bucket(m, h);
        assert x in Bucket(r, h);
      }
    }
  }

  // ---- the backing

  ghost predicate InStep<T(!new)>(less: (T, T) -> bool, hash: T -> int, tree: seq<Entry<T>>, index: Buckets<T>,
                                  stale: seq<Entry<T>>, nextSeq: nat)
  {
    && Ascends(less, tree) && Distinct(tree + stale) && (forall e :: e in tree + stale ==> e.seqNo < nextSeq)
    && Agrees(hash, index, tree + stale)
  }

  class Backing<T(!new)> {
    const less: (T, T) -> bool
    const equal: (T, T) -> bool
    const hash: T -> int
    var tree: seq<Entry<T>>            // in Scan order
    var index: Buckets<T>
    var calls: nat                     // Hash calls that will return before one unwinds
    var searches: nat                  // Loads and Deletes that will return before Less unwinds out of one
    var nextSeq: nat
    var hydrateEnd: nat
    var hydrated: int
    ghost var stale: seq<Entry<T>>     // entries that have left the tree and not the index

    /** Tree in order, and index in step with it but for the stale entries. */
    ghost predicate Core()
      reads `tree, `index, `nextSeq, `stale
    {
      InStep(less, hash, tree, index, stale, nextSeq)
    }

    lemma CoreParts()
      requires Core()
      ensures Ascends(less, tree) && Distinct(tree + stale) && forall e :: e in tree + stale ==> e.seqNo < nextSeq
    {
    }

    /** How much of the exemption is for restored entries that have left both. */
    ghost function Uncharged(): int
      reads `tree, `stale, `hydrated, `hydrateEnd
    {
      hydrated - Restored(tree + stale, hydrateEnd)
    }

    /** What every operation keeps, however it ends. */
    ghost predicate Sound()
      reads this
    {
      Core() && Uncharged() >= 0 && hydrateEnd <= nextSeq
    }

    /** The backing as the queue sees it between operations, unless a Del has unwound. */
    ghost predicate Valid()
      reads this
    {
      Sound() && stale == [] && Uncharged() == 0
    }

    constructor (less: (T, T) -> bool, equal: (T, T) -> bool, hash: T -> int, calls: nat, searches: nat)
      ensures Valid() && tree == [] && index == map[] && nextSeq == hydrateEnd == hydrated == 0
      ensures this.less == less && this.equal == equal && this.hash == hash
      ensures this.calls == calls && this.searches == searches
    {
      this.less, this.equal, this.hash, this.calls, this.searches := less, equal, hash, calls, searches;
      tree, index, nextSeq, hydrateEnd, hydrated, stale := [], map[], 0, 0, 0, [];
    }

    method Hash(x: T) returns (done: bool, h: int)
      modifies `calls
      ensures done ==> h == hash(x)
      ensures done == (old(calls) > 0) && calls == if done then old(calls) - 1 else 0
    {
      if calls == 0 { return false, 0; }
      calls := calls - 1;
      return true, hash(x);
    }

    /** The comparisons of one Load or Delete, which the tree makes before it changes anything. */
    method Search() returns (done: bool)
      modifies `searches
      ensures done == (old(searches) > 0) && searches == if done then old(searches) - 1 else 0
    {
      if searches == 0 { return false; }
      searches := searches - 1;
      return true;
    }

    /** The hashes of a batch, before anything is touched. */
    method Hashes(vs: seq<T>) returns (done: bool, hs: seq<int>)
      modifies `calls
      ensures done ==> |hs| == |vs| && forall i :: 0 <= i < |vs| ==> hs[i] == hash(vs[i])
      ensures !done ==> calls == 0
      ensures old(calls) >= |vs| ==> done && calls == old(calls) - |vs|
    {
      hs := [];
      for i := 0 to |vs|
        invariant old(calls) >= |vs| ==> calls == old(calls) - i
        invariant |hs| == i && forall k :: 0 <= k < i ==> hs[k] == hash(vs[k])
      {
        var ok, h := Hash(vs[i]);
        if !ok { return false, hs; }
        hs := hs + [h];
      }
      return true, hs;
    }

    /** One Load and its index entry. */
    method Load(x: T, h: int) returns (done: bool)
      requires Core() && StrictWeak(less) && h == hash(x)
      modifies `tree, `index, `nextSeq, `searches
      ensures Core()
      ensures !done ==> tree == old(tree) && index == old(index) && nextSeq == old(nextSeq)
      ensures !done ==> searches == 0 == old(searches)
      ensures done ==> nextSeq == old(nextSeq) + 1 && searches == old(searches) - 1
      ensures done ==> multiset(tree) == multiset(old(tree)) + multiset{Entry(old(nextSeq), x)}
    {
      hide StrictWeak, PrioritySeqLess, Agrees, Distinct, Insert, Ascends;
      done := Search();
      if !done { return; }
      var e := Entry(nextSeq, x);
      ghost var was := tree;
      FrontIsDistinct(tree, stale);
      InsertAscends(less, e, tree);
      tree := Insert(less, e, tree);
      InsertIsNew(less, e, was, stale);
      AddAgrees(hash, index, was + stale, e, tree + stale);
      index := Added(index, h, e);
      nextSeq := nextSeq + 1;
    }

    /** The Loads of a batch: as many as return. */
    method LoadAll(vs: seq<T>, hs: seq<int>) returns (landed: nat)
      requires Core() && StrictWeak(less) && |hs| == |vs| && forall i :: 0 <= i < |vs| ==> hs[i] == hash(vs[i])
      modifies `tree, `index, `nextSeq, `searches
      ensures Core() && landed <= |vs| && nextSeq == old(nextSeq) + landed
      ensures if landed < |vs| then searches == 0 && landed == old(searches) else searches == old(searches) - |vs|
      ensures tree == Sorted(less, old(tree) + Arrivals(vs[..landed], old(nextSeq)))
    {
      hide Backing.Core, StrictWeak, PrioritySeqLess, Agrees, Distinct, Ascends, Sorted, Arrived;
      ghost var first := nextSeq;
      landed := 0;
      var done := true;
      ghost var was := tree;
      NoneArrived(was, vs, first);
      while landed < |vs| && done
        invariant landed <= |vs| && Core() && nextSeq == first + landed && searches == old(searches) - landed
        invariant !done ==> landed < |vs| && searches == 0
        invariant Arrived(was, vs, landed, first, tree)
        decreases |vs| - landed, if done then 1 else 0
      {
        ghost var before := tree;
        done := Load(vs[landed], hs[landed]);
        if done {
          OneMoreArrived(was, vs, landed, first, before, tree);
          landed := landed + 1;
        }
      }
      ghost var all := old(tree) + Arrivals(vs[..landed], first);
      CoreParts();
      AllArrived(was, vs, landed, first, tree);
      FrontIsDistinct(tree, stale);
      SortedIs(less, tree, all);
    }

    /** The insert of Push: the batch goes to its places in the order. If Hash unwinds, neither tree nor index has
        changed; if Less does, what came before it is in both. */
    method PushBatch(vs: seq<T>) returns (landed: nat)
      requires Sound() && StrictWeak(less)
      modifies `tree, `index, `nextSeq, `calls, `searches
      ensures Sound() && Uncharged() == old(Uncharged())
      ensures landed <= |vs| && nextSeq == old(nextSeq) + landed
      ensures tree == Sorted(less, old(tree) + Arrivals(vs[..landed], old(nextSeq)))
      ensures landed < |vs| ==> searches == 0 || (calls == 0 && tree == old(tree) && index == old(index))
      ensures old(calls) >= |vs| ==> landed == if |vs| < old(searches) then |vs| else old(searches)
    {
      hide Core, StrictWeak, Sorted, Restored, Arrivals;
      ghost var was := tree;
      CoreOrder();
      var done, hs := Hashes(vs);
      landed := 0;
      if done {
        landed := LoadAll(vs, hs);
        ArrivalsKeepRestored(less, was, Arrivals(vs[..landed], old(nextSeq)), stale, hydrateEnd);
      } else {
        SortedNothing(less, was, vs, nextSeq);
      }
    }

    /** The items are hashed and loaded one at a time, each counted as exempt, until Hash or Less unwinds. */
    method HydrateLoop(vs: seq<T>) returns (landed: nat)
      requires Core() && StrictWeak(less) && tree == [] && nextSeq == 0
      modifies `tree, `index, `nextSeq, `calls, `searches, `hydrated
      ensures Core() && hydrated == nextSeq == landed <= |vs|
      ensures landed < |vs| ==> calls == 0 || searches == 0
      ensures multiset(tree) == multiset(Arrivals(vs[..landed], 0))
    {
      hide Backing.Core, StrictWeak, Arrived;
      landed := 0;
      hydrated := 0;
      var done := true;
      NoneArrived([], vs, 0);
      while landed < |vs| && done
        invariant landed <= |vs| && Core() && hydrated == nextSeq == landed
        invariant !done ==> landed < |vs| && (calls == 0 || searches == 0)
        invariant Arrived([], vs, landed, 0, tree)
        decreases |vs| - landed, if done then 1 else 0
      {
        var h;
        ghost var before := tree;
        done, h := Hash(vs[landed]);
        if done {
          done := Load(vs[landed], h);
          if done {
            OneMoreArrived([], vs, landed, 0, before, tree);
            hydrated := hydrated + 1;
            landed := landed + 1;
          }
        }
      }
      AllArrived([], vs, landed, 0, tree);
    }

    /** Hydrate's loop, the Backup's items in its order. */
    method Hydrate(vs: seq<T>) returns (landed: nat)
      requires Valid() && StrictWeak(less) && tree == [] && nextSeq == 0
      modifies `tree, `index, `nextSeq, `calls, `searches, `hydrated, `hydrateEnd
      ensures Valid() && hydrateEnd == nextSeq == hydrated == landed <= |vs|
      ensures landed < |vs| ==> calls == 0 || searches == 0
      ensures tree == Sorted(less, Arrivals(vs[..landed], 0))
    {
      hide Backing.Core, StrictWeak, PrioritySeqLess, Agrees, Ascends, Sorted, Distinct;
      landed := HydrateLoop(vs);
      hydrateEnd := nextSeq;
      CoreParts();
      assert tree + stale == tree;
      AllRestored(tree, hydrateEnd);
      SortedIs(less, tree, Arrivals(vs[..landed], 0));
      assert |multiset(tree)| == |tree|;
    }

    /** PopMin and the index entry that goes with it; no caller code runs. */
    method PopMin(h: int) returns (e: Entry<T>)
      requires Core() && tree != [] && h == hash(tree[0].item)
      modifies `tree, `index
      ensures Core() && e == old(tree[0]) && tree == old(tree[1..])
    {
      hide PrioritySeqLess;
      e := tree[0];
      var r := RemoveFrom(index, h, e.seqNo);
      ghost var was := tree;
      TailMembers(was + stale);
      assert (was + stale)[1..] == was[1..] + stale;
      RemoveAgrees(hash, index, was + stale, e, r, was[1..] + stale);
      index, tree := r, tree[1..];
    }

    /** Pop, once the side effect has run: the first entries of the order. If Hash unwinds, or the Backup does not take
        the mirror, neither tree nor index has changed. */
    method PopBatch(n: nat, backup: bool) returns (done: bool, out: seq<T>)
      requires Sound()
      modifies `tree, `index, `calls, `hydrated
      ensures Sound() && Uncharged() == old(Uncharged())
      ensures !done ==> tree == old(tree) && index == old(index) && hydrated == old(hydrated) && (calls == 0 || !backup)
      ensures done ==> backup && |out| == (if n < |old(tree)| then n else |old(tree)|) && tree == old(tree)[|out|..]
      ensures done ==> forall i :: 0 <= i < |out| ==> out[i] == old(tree)[i].item
    {
      hide Core, Restored;
      var k := if n < |tree| then n else |tree|;
      ghost var was := tree;
      var entries := tree;
      out := seq(k, i requires 0 <= i < k <= |entries| => entries[i].item);
      var hs;
      done, hs := Hashes(out);
      if !done || !backup { return false, []; }
      for i := 0 to k
        invariant Core() && tree == was[i..]
        invariant Uncharged() == old(Uncharged())
      {
        assert tree + stale == [tree[0]] + (tree[1..] + stale);
        RestoredSplits([tree[0]], tree[1..] + stale, hydrateEnd);
        var e := PopMin(hs[i]);
        OneRestored(e, hydrateEnd);
        if e.seqNo < hydrateEnd && hydrated > 0 { hydrated := hydrated - 1; }
      }
    }

    /** Exists through the index: it finds v exactly when a scan of the tree, or of the stale entries, would. Equal
        items hash alike. */
    method Exists(v: T) returns (done: bool, found: bool)
      requires Core() && EqualsHashAlike(equal, hash)
      modifies `calls
      ensures done ==> (found <==> exists e :: e in tree + stale && equal(e.item, v))
      ensures done == (old(calls) > 0)
    {
      var h;
      done, h := Hash(v);
      if !done { return false, false; }
      var b := Bucket(index, h);
      assert forall e :: e in tree + stale && equal(e.item, v) ==> e in b;
      for i := 0 to |b|
        invariant forall j :: 0 <= j < i ==> !equal(b[j].item, v)
      {
        if equal(b[i].item, v) {
          assert b[i] in tree + stale;
          return true, true;
        }
      }
      return true, false;
    }

    /** The entries Del is to remove, from the buckets of the distinct hashes in v. */
    method Collect(v: seq<T>) returns (done: bool, toDel: seq<Entry<T>>)
      requires Core() && EqualsHashAlike(equal, hash)
      modifies `calls
      ensures !done ==> calls == 0
      ensures old(calls) >= |v| ==> done && calls == old(calls) - |v|
      ensures done ==> Distinct(toDel) && forall x :: x in toDel <==> x in tree + stale && Matches(equal, x.item, v)
    {
      hide StrictWeak, Ascends, Matches;
      toDel := [];
      var seenHash: set<int>, seenSeq: set<nat> := {}, {};
      for e := 0 to |v|
        invariant old(calls) >= |v| ==> calls == old(calls) - e
        invariant seenHash == set j | 0 <= j < e :: hash(v[j])
        invariant seenSeq == set x | x in toDel :: x.seqNo
        invariant Distinct(toDel)
        invariant forall x :: x in toDel <==> x in tree + stale && Matches(equal, x.item, v) && hash(x.item) in seenHash
      {
        var h;
        done, h := Hash(v[e]);
        if !done { return; }
        if h !in seenHash {
          ghost var before := seenHash;
          seenHash := seenHash + {h};
          toDel, seenSeq := CollectBucket(v, h, before, toDel, seenSeq);
        }
      }
      forall x | x in tree + stale && Matches(equal, x.item, v) ensures hash(x.item) in seenHash {
        MatchHashes(equal, hash, x.item, v);
      }
      done := true;
    }

    method CollectBucket(v: seq<T>, h: int, ghost seenHash: set<int>, toDel0: seq<Entry<T>>, seenSeq0: set<nat>)
      returns (toDel: seq<Entry<T>>, seenSeq: set<nat>)
      requires Core() && h !in seenHash && Distinct(toDel0) && seenSeq0 == set x | x in toDel0 :: x.seqNo
      requires forall x :: x in toDel0 <==> x in tree + stale && Matches(equal, x.item, v) && hash(x.item) in seenHash
      ensures Distinct(toDel) && seenSeq == set x | x in toDel :: x.seqNo
      ensures forall x :: x in toDel <==>
        x in tree + stale && Matches(equal, x.item, v) && hash(x.item) in seenHash + {h}
    {
      hide StrictWeak, Ascends, Matches;
      toDel, seenSeq := toDel0, seenSeq0;
      var b := Bucket(index, h);
      for i := 0 to |b|
        invariant seenSeq == set x | x in toDel :: x.seqNo
        invariant Distinct(toDel)
        invariant forall x :: x in toDel <==> x in toDel0 || (x in b[..i] && Matches(equal, x.item, v))
      {
        var si := b[i];
        assert b[..i + 1] == b[..i] + [si];
        OnlyOnce(tree + stale, b, i, toDel);
        var yes := MatchesAny(equal, si.item, v);
        if si.seqNo !in seenSeq && yes {
          seenSeq := seenSeq + {si.seqNo};
          toDel := toDel + [si];
        }
      }
      assert b[..|b|] == b;
      assert forall x :: x in b <==> x in tree + stale && hash(x.item) == h;
    }

    lemma CoreOrder()
      requires Core()
      ensures Ascends(less, tree) && Distinct(tree) && Distinct(tree + stale)
      ensures forall e :: e in tree + stale ==> e.seqNo < nextSeq
    {
      FrontIsDistinct(tree, stale);
    }

    /** tree.Delete and the index entry that goes with it. If Less unwinds, neither; if Hash does, the entry has left
        the tree and the index still lists it. */
    method Delete(e: Entry<T>) returns (done: bool, ghost stuck: Option<Entry<T>>)
      requires Core() && e in tree + stale
      modifies `tree, `index, `calls, `searches, `stale
      ensures Core() && (done ==> stuck == None)
      ensures done ==> tree == Without(Keyed(e), old(tree)) && stale == Without(Keyed(e), old(stale))
      ensures done ==> multiset(tree + stale) + multiset{e} == multiset(old(tree + stale))
      ensures !done ==> index == old(index) && (calls == 0 || searches == 0)
      ensures !done ==> multiset(tree + stale) == multiset(old(tree + stale))
      ensures !done ==> stale == if stuck.Some? then old(stale) + [e] else old(stale)
      ensures !done ==> tree == if stuck.Some? then Without(Keyed(e), old(tree)) else old(tree)
      ensures stuck.Some? <==> old(searches) > 0 && old(calls) == 0 && e in old(tree)
      ensures stuck.Some? ==> stuck.value == e && calls == 0
    {
      hide InStep, Without, Agrees, IsWithout, Distinct;
      stuck := None;
      done := Search();
      if !done { return; }
      EntryGoes(less, hash, tree, index, stale, nextSeq, e);
      ghost var inTree, left := e in tree, Without(Keyed(e), stale);
      tree := Without(Keyed(e), tree);
      var h;
      done, h := Hash(e.item);
      if !done {
        if inTree { stuck, stale := Some(e), stale + [e]; }
        return;
      }
      index := RemoveFrom(index, h, e.seqNo);
      stale := left;
    }

    method DropHydrated(gone: seq<Entry<T>>)
      requires Restored(gone, hydrateEnd) <= hydrated
      modifies `hydrated
      ensures hydrated == old(hydrated) - Restored(gone, hydrateEnd)
    {
      for i := 0 to |gone|
        invariant hydrated == old(hydrated) - Restored(gone[..i], hydrateEnd)
      {
        RestoredGrows(gone, i, hydrateEnd);
        if gone[i].seqNo < hydrateEnd && hydrated > 0 { hydrated := hydrated - 1; }
      }
      assert gone[..|gone|] == gone;
    }

    /** The removals of Del, as far as they come. */
    method DeleteAll(toDel: seq<Entry<T>>)
      returns (done: bool, ghost reached: seq<Entry<T>>, ghost stuck: Option<Entry<T>>)
      requires Core() && Distinct(toDel) && forall x :: x in toDel ==> x in tree + stale
      modifies `tree, `index, `calls, `searches, `stale
      ensures Core() && reached <= toDel
      ensures if done then reached == toDel && stuck == None else |reached| < |toDel| && (calls == 0 || searches == 0)
      ensures stuck.Some? ==> stuck.value == toDel[|reached|] && stuck.value in old(tree) && calls == 0
      ensures toDel != [] && toDel[0] in old(tree) && old(calls) == 0 && old(searches) > 0 ==> stuck.Some?
      ensures Gone(old(tree), old(stale), tree, stale, reached, stuck)
      ensures multiset(tree + stale) + multiset(reached) == multiset(old(tree + stale))
    {
      hide *;
      ghost var was, wasStale := tree, stale;
      ghost var first := toDel != [] && toDel[0] in tree && calls == 0 < searches;
      NoneGone(was, wasStale);
      done, reached, stuck := true, [], None;
      var i := 0;
      while i < |toDel|
        invariant i <= |toDel| && reached == toDel[..i] && done && stuck == None
        invariant first ==> i == 0 && tree == was && calls == 0 < searches
        invariant Core() && Gone(was, wasStale, tree, stale, reached, None)
        invariant multiset(tree + stale) + multiset(reached) == multiset(was + wasStale)
      {
        var e := toDel[i];
        ghost var all := tree + stale;
        EarlierDiffer(toDel, i);
        StillThere(was, wasStale, tree, stale, reached, e);
        OneMoreGone(was, wasStale, tree, stale, reached, e);
        done, stuck := Delete(e);
        if !done { return; }
        OneMoreCounted(multiset(was + wasStale), all, tree + stale, reached, e);
        reached := reached + [e];
        i := i + 1;
      }
    }

    /** The removals and what is charged for them: nothing, if Hash or Less unwinds. */
    method RemoveAll(toDel: seq<Entry<T>>)
      returns (done: bool, ghost reached: seq<Entry<T>>, ghost stuck: Option<Entry<T>>)
      requires Sound() && Distinct(toDel) && forall x :: x in toDel ==> x in tree + stale
      modifies `tree, `index, `hydrated, `calls, `searches, `stale
      ensures Sound() && reached <= toDel
      ensures if done then reached == toDel && stuck == None else |reached| < |toDel| && (calls == 0 || searches == 0)
      ensures stuck.Some? ==> stuck.value == toDel[|reached|] && stuck.value in old(tree) && calls == 0
      ensures toDel != [] && toDel[0] in old(tree) && old(calls) == 0 && old(searches) > 0 ==> stuck.Some?
      ensures Gone(old(tree), old(stale), tree, stale, reached, stuck)
      ensures multiset(tree + stale) + multiset(reached) == multiset(old(tree + stale))
      ensures Uncharged() == old(Uncharged()) + if done then 0 else Restored(reached, hydrateEnd)
    {
      hide Core, Without, Restored, Among, Distinct;
      ghost var all := tree + stale;
      CoreOrder();
      done, reached, stuck := DeleteAll(toDel);
      RemovedAreCounted(all, tree + stale, reached, hydrateEnd);
      if done { DropHydrated(toDel); }
    }

    /** Del through the index: exactly what a scan of the tree would remove, and as many. Equal items hash alike. If
        Hash or Less unwinds out of the removals, those `reached` have left, uncharged, and with them, if it was Hash,
        the next, which the index still lists. */
    method Del(v: seq<T>, takes: bool)
      returns (done: bool, count: nat, ghost reached: seq<Entry<T>>, ghost stuck: Option<Entry<T>>)
      requires Sound() && EqualsHashAlike(equal, hash)
      modifies `tree, `index, `hydrated, `calls, `searches, `stale
      ensures Sound() && (!done ==> calls == 0 || searches == 0) && (done ==> stuck == None)
      ensures Gone(old(tree), old(stale), tree, stale, reached, stuck)
      ensures done && takes ==> tree == Without(HitEntry(equal, v), old(tree))
      ensures done && takes ==> stale == Without(HitEntry(equal, v), old(stale))
      ensures done ==> count == |old(tree + stale)| - |tree + stale| && Uncharged() == old(Uncharged())
      ensures !takes ==> reached == [] && stuck == None
      ensures forall x :: x in reached || stuck == Some(x) ==> x in old(tree + stale) && Matches(equal, x.item, v)
      ensures stuck.Some? ==> stuck.value in old(tree) && calls == 0 && !done
      ensures takes && old(stale) == [] && old(calls) == |v| && old(searches) > 0 ==>
        (stuck.Some? <==> exists x :: x in old(tree) && Matches(equal, x.item, v))
      ensures !done ==> Uncharged() == old(Uncharged()) + Restored(reached, hydrateEnd)
    {
      hide Core, EqualsHashAlike, Without, Restored, HitEntry, Matches, Among, Distinct;
      ghost var was, wasStale := tree, stale;
      reached, stuck, count := [], None, 0;
      NoneGone(was, wasStale);
      CoreOrder();
      var toDel;
      done, toDel := Collect(v);
      if !done || toDel == [] || !takes {
        if done && toDel == [] { NobodyHit(equal, was, wasStale, v); }
        NothingCharged<T>(hydrateEnd);
        return;
      }
      assert toDel[0] in was + wasStale && (wasStale == [] ==> toDel[0] in was);
      done, reached, stuck := RemoveAll(toDel);
      if !done { return; }
      AmongAreHit(equal, was, wasStale, toDel, v);
      SizesAdd(tree + stale, toDel, was + wasStale);
      count := |toDel|;
    }

    /** Clear, unless the side effect or the Backup refuses. On an empty tree it does nothing, and so does not put right
        what an unwound Del has left of index and exemption. */
    method Clear(takes: bool)
      requires Sound()
      modifies `tree, `index, `hydrated, `stale
      ensures Sound()
      ensures if takes && old(tree) != [] then Valid() && tree == [] && index == map[] && hydrated == 0
              else tree == old(tree) && index == old(index) && stale == old(stale) && hydrated == old(hydrated)
      ensures takes ==> (Valid() <==> old(tree != [] || (stale == [] && Uncharged() == 0)))
    {
      if |tree| == 0 || !takes { return; }
      tree, index, hydrated, stale := [], map[], 0, [];
    }
  }

  lemma OneSeven(less: (int, int) -> bool)
    ensures Sorted(less, [] + Arrivals([7][..1], 0)) == [Entry(0, 7)]
  {
    var s := [] + Arrivals([7][..1], 0);
    assert s == [Entry(0, 7)] && Sorted(less, s[1..]) == [];
  }

  lemma SevenIsStuck(tree: seq<Entry<int>>, stale: seq<Entry<int>>, reached: seq<Entry<int>>)
    requires Gone([Entry(0, 7)], [], tree, stale, reached, Some(Entry(0, 7)))
    ensures tree == [] && stale == [Entry(0, 7)]
  {
    var e := Entry(0, 7);
    assert [e][..0] == [] && Without(Among(reached), [e]) in {[], [e]};
  }

  method OnePushed() returns (b: Backing<int>)
    ensures fresh(b) && b.Valid() && b.tree == [Entry(0, 7)]
    ensures EqualsHashAlike(b.equal, b.hash) && b.equal(7, 7)
  {
    b := new Backing((x, y) => x < y, (x, y) => x == y, x => x, 1, 1);
    assert StrictWeak(b.less) && EqualsHashAlike(b.equal, b.hash);
    hide StrictWeak, Agrees, EqualsHashAlike, Ascends, Distinct, Restored;
    var landed := b.PushBatch([7]);
    OneSeven(b.less);
  }

  lemma SevenMatches(equal: (int, int) -> bool, tree: seq<Entry<int>>)
    requires equal(7, 7) && tree == [Entry(0, 7)]
    ensures exists x :: x in tree && Matches(equal, x.item, [7])
  {
    assert equal(7, [7][0]) && tree[0] in tree;
  }

  /** Hash returns for the 7 that Del is asked to remove, and unwinds for the 7 that it has found and taken out of the
      tree. The tree is empty, and Exists says that 7 is there. */
  method AfterAnUnwoundDel() returns (b: Backing<int>, found: bool)
    ensures fresh(b) && b.Sound() && b.tree == [] && b.stale == [Entry(0, 7)] && found
    ensures EqualsHashAlike(b.equal, b.hash) && b.equal(7, 7)
  {
    hide InStep, EqualsHashAlike, Matches, Restored, Gone;
    b := OnePushed();
    SevenMatches(b.equal, b.tree);
    b.calls, b.searches := 1, 1;
    var done, count, reached, stuck := b.Del([7], true);
    SevenIsStuck(b.tree, b.stale, reached);
    b.calls := 1;
    assert b.stale[0] in b.tree + b.stale;
    done, found := b.Exists(7);
  }

  /** ... and Clear does not put that right. */
  method ClearKeepsTheStale() returns (b: Backing<int>, found: bool)
    ensures fresh(b) && b.tree == [] && found
  {
    hide InStep, Restored;
    b, found := AfterAnUnwoundDel();
    b.Clear(true);
    b.calls := 1;
    assert b.stale[0] in b.tree + b.stale && b.equal(7, 7);
    var done;
    done, found := b.Exists(7);
  }

  ghost predicate EqualsHashAlike<T(!new)>(equal: (T, T) -> bool, hash: T -> int)
  {
    forall x, y :: equal(x, y) ==> hash(x) == hash(y)
  }

  /** A sequence in order is what sorting its entries gives. */
  lemma SortedIs<T(!new)>(less: (T, T) -> bool, s: seq<Entry<T>>, t: seq<Entry<T>>)
    requires StrictWeak(less) && Ascends(less, s) && Distinct(s) && multiset(s) == multiset(t)
    ensures s == Sorted(less, t)
  {
    DistinctPermutes(s, t);
    SortedAscends(less, t);
    AscendingIsUnique(less, s, Sorted(less, t));
  }

  lemma FrontIsDistinct<T>(s: seq<Entry<T>>, t: seq<Entry<T>>)
    requires Distinct(s + t)
    ensures Distinct(s) && Distinct(t)
  {
    assert forall i :: 0 <= i < |s| ==> (s + t)[i] == s[i];
    assert forall i :: 0 <= i < |t| ==> (s + t)[|s| + i] == t[i];
  }

  lemma ArrivalsKeepRestored<T(!new)>(less: (T, T) -> bool, s: seq<Entry<T>>, new_: seq<Entry<T>>, stale: seq<Entry<T>>,
                                      end: nat)
    requires forall i :: 0 <= i < |new_| ==> new_[i].seqNo >= end
    ensures Restored(Sorted(less, s + new_) + stale, end) == Restored(s + stale, end)
  {
    hide Restored;
    RestoredPermutes(s + new_, Sorted(less, s + new_), end);
    RestoredSplits(s, new_, end);
    NoneRestored(new_, end);
    RestoredSplits(Sorted(less, s + new_), stale, end);
    RestoredSplits(s, stale, end);
  }

  lemma SortedNothing<T(!new)>(less: (T, T) -> bool, s: seq<Entry<T>>, vs: seq<T>, next: nat)
    requires StrictWeak(less) && Ascends(less, s) && Distinct(s)
    ensures Sorted(less, s + Arrivals(vs[..0], next)) == s
  {
    assert s + Arrivals(vs[..0], next) == s;
    SortedIs(less, s, s);
  }

  lemma OneRestored<T>(e: Entry<T>, end: nat)
    ensures Restored([e], end) == if e.seqNo < end then 1 else 0
  {
  }

  lemma TailMembers<T>(s: seq<Entry<T>>)
    requires s != [] && Distinct(s)
    ensures forall x :: x in s[1..] <==> x in s && x != s[0]
    ensures forall x, y :: x in s && y in s && x.seqNo == y.seqNo ==> x == y
  {
    assert s == [s[0]] + s[1..];
    forall x | x in s[1..] ensures x != s[0] {
      var i :| 0 <= i < |s[1..]| && s[1..][i] == x;
      assert s[i + 1] == x;
    }
  }

  /** Numbers are the keys entries are found by. */
  function Keyed<T>(e: Entry<T>): Entry<T> -> bool
  {
    (x: Entry<T>) => x.seqNo == e.seqNo
  }

  function Among<T>(ds: seq<Entry<T>>): Entry<T> -> bool
  {
    (x: Entry<T>) => exists k :: 0 <= k < |ds| && ds[k].seqNo == x.seqNo
  }

  lemma {:induction false} WithoutTwice<X>(p: X -> bool, q: X -> bool, r: X -> bool, s: seq<X>)
    requires forall x :: x in s ==> (r(x) <==> p(x) || q(x))
    ensures Without(p, Without(q, s)) == Without(r, s)
  {
    hide Without;
    if s == [] {
      NothingYet(p);
      NothingYet(q);
      NothingYet(r);
    } else {
      var n := |s| - 1;
      assert s == s[..n] + [s[n]];
      WithoutTwice(p, q, r, s[..n]);
      OneMore(q, s[..n], s[n]);
      OneMore(r, s[..n], s[n]);
      OneMore(p, Without(q, s[..n]), s[n]);
      assert forall t: seq<X> :: t + [] == t;
    }
  }

  lemma WithoutOneMore<T>(s: seq<Entry<T>>, ds: seq<Entry<T>>, e: Entry<T>)
    ensures Without(Keyed(e), Without(Among(ds), s)) == Without(Among(ds + [e]), s)
  {
    forall x | x in s ensures Among(ds + [e])(x) <==> Keyed(e)(x) || Among(ds)(x) {
      assert (ds + [e])[|ds|] == e && forall k :: 0 <= k < |ds| ==> (ds + [e])[k] == ds[k];
    }
    WithoutTwice(Keyed(e), Among(ds), Among(ds + [e]), s);
  }

  /** What is left when the entries of `reached` have gone, and an entry `stuck` has gone from the tree alone. */
  ghost predicate Gone<T>(was: seq<Entry<T>>, wasStale: seq<Entry<T>>, tree: seq<Entry<T>>, stale: seq<Entry<T>>,
                          reached: seq<Entry<T>>, stuck: Option<Entry<T>>)
  {
    var now, left := Without(Among(reached), was), Without(Among(reached), wasStale);
    match stuck
    case None => tree == now && stale == left
    case Some(e) => tree == Without(Keyed(e), now) && stale == left + [e]
  }

  lemma NoneGone<T>(s: seq<Entry<T>>, t: seq<Entry<T>>)
    ensures Gone(s, t, s, t, [], None)
  {
    WithoutNone(s, Among<T>([]));
    WithoutNone(t, Among<T>([]));
  }

  lemma OneMoreGone<T>(was: seq<Entry<T>>, wasStale: seq<Entry<T>>, now: seq<Entry<T>>, left: seq<Entry<T>>,
                       reached: seq<Entry<T>>, e: Entry<T>)
    requires Gone(was, wasStale, now, left, reached, None)
    ensures Gone(was, wasStale, Without(Keyed(e), now), Without(Keyed(e), left), reached + [e], None)
    ensures Gone(was, wasStale, Without(Keyed(e), now), left + [e], reached, Some(e))
    ensures e in now ==> e in was
  {
    hide Without, Among, Keyed;
    WithoutOneMore(was, reached, e);
    WithoutOneMore(wasStale, reached, e);
    WithoutHas(Among(reached), was, e);
  }

  lemma OneMoreCounted<X>(all: multiset<X>, now: seq<X>, rest: seq<X>, reached: seq<X>, e: X)
    requires multiset(now) + multiset(reached) == all && multiset(rest) + multiset{e} == multiset(now)
    ensures multiset(rest) + multiset(reached + [e]) == all
  {
  }

  lemma SizesAdd<X>(s: seq<X>, t: seq<X>, all: seq<X>)
    requires multiset(s) + multiset(t) == multiset(all)
    ensures |s| + |t| == |all|
  {
    assert |multiset(s)| == |s| && |multiset(t)| == |t| && |multiset(all)| == |all|;
  }

  lemma NothingCharged<T>(end: nat)
    ensures Restored<T>([], end) == 0
  {
  }

  lemma NobodyHit<T>(equal: (T, T) -> bool, s: seq<Entry<T>>, t: seq<Entry<T>>, v: seq<T>)
    requires forall x :: x in s + t ==> !Matches(equal, x.item, v)
    ensures Without(HitEntry(equal, v), s) == s && Without(HitEntry(equal, v), t) == t
  {
    assert forall x :: x in s || x in t ==> x in s + t;
    WithoutNone(s, HitEntry(equal, v));
    WithoutNone(t, HitEntry(equal, v));
  }

  lemma EarlierDiffer<T>(ds: seq<Entry<T>>, i: nat)
    requires i < |ds| && Distinct(ds)
    ensures ds[..i + 1] == ds[..i] + [ds[i]] && forall x :: x in ds[..i] ==> x.seqNo != ds[i].seqNo
  {
  }

  /** A removal that has not been reached is still there. */
  lemma StillThere<T>(was: seq<Entry<T>>, wasStale: seq<Entry<T>>, tree: seq<Entry<T>>, stale: seq<Entry<T>>,
                      reached: seq<Entry<T>>, e: Entry<T>)
    requires e in was + wasStale && Gone(was, wasStale, tree, stale, reached, None)
    requires forall x :: x in reached ==> x.seqNo != e.seqNo
    ensures e in tree + stale
  {
    hide Without;
    WithoutHas(Among(reached), was, e);
    WithoutHas(Among(reached), wasStale, e);
  }

  /** One entry taken out of tree and stale entries alike. */
  lemma Parted<T(!new)>(less: (T, T) -> bool, tree: seq<Entry<T>>, stale: seq<Entry<T>>, e: Entry<T>)
    requires Ascends(less, tree) && Distinct(tree + stale) && e in tree + stale
    ensures var now, left, all := Without(Keyed(e), tree), Without(Keyed(e), stale), tree + stale;
      && Ascends(less, now) && Distinct(now + left) && multiset(now + left) + multiset{e} == multiset(all)
      && (forall x :: x in now + left <==> x in all && x != e)
      && (if e in tree then multiset(now + (stale + [e])) == multiset(all) else now == tree)
  {
    hide Without, Ascends;
    var now, left, all := Without(Keyed(e), tree), Without(Keyed(e), stale), tree + stale;
    FrontIsDistinct(tree, stale);
    WithoutKeeps(less, Keyed(e), tree);
    WithoutCat(Keyed(e), tree, stale);
    OneGone(all, e);
    assert multiset(now + left) + multiset([e]) == multiset(all);
    RemovedAreCounted(all, now + left, [e], 0);
    DistinctMembers(all);
    forall x ensures x in now + left <==> x in all && x != e { WithoutHas(Keyed(e), all, x); }
    if e in tree {
      WithoutNone(stale, Keyed(e)) by { ApartFrom(tree, stale, e); }
    } else {
      WithoutNone(tree, Keyed(e));
    }
  }

  /** ... and what that leaves, once the index entry has gone too, or if it stays. */
  lemma EntryGoes<T(!new)>(less: (T, T) -> bool, hash: T -> int, tree: seq<Entry<T>>, index: Buckets<T>,
                           stale: seq<Entry<T>>, nextSeq: nat, e: Entry<T>)
    requires InStep(less, hash, tree, index, stale, nextSeq) && e in tree + stale
    ensures var now, left := Without(Keyed(e), tree), Without(Keyed(e), stale);
      && multiset(now + left) + multiset{e} == multiset(tree + stale) && Distinct(Bucket(index, hash(e.item)))
      && (forall r :: IsWithout(index, hash(e.item), e.seqNo, r) ==> InStep(less, hash, now, r, left, nextSeq))
      && (if e in tree
          then InStep(less, hash, now, index, stale + [e], nextSeq)
               && multiset(now + (stale + [e])) == multiset(tree + stale)
          else now == tree)
  {
    hide PrioritySeqLess, Without, Agrees, Ascends, Distinct, IsWithout;
    var now, left, all := Without(Keyed(e), tree), Without(Keyed(e), stale), tree + stale;
    Parted(less, tree, stale, e);
    DistinctMembers(all);
    BucketIsDistinct(hash, index, all, hash(e.item));
    forall r | IsWithout(index, hash(e.item), e.seqNo, r) ensures InStep(less, hash, now, r, left, nextSeq) {
      RemoveAgrees(hash, index, all, e, r, now + left);
    }
    if e in tree {
      SameMembers(all, now + (stale + [e]));
      DistinctPermutes(all, now + (stale + [e]));
      AgreesMembers(hash, index, all, now + (stale + [e]));
    }
  }

  lemma ApartFrom<T>(s: seq<Entry<T>>, t: seq<Entry<T>>, e: Entry<T>)
    requires Distinct(s + t) && e in s
    ensures forall x :: x in t ==> x.seqNo != e.seqNo
  {
    var i :| 0 <= i < |s| && s[i] == e;
    assert (s + t)[i] == e;
    forall j | 0 <= j < |t| ensures t[j].seqNo != e.seqNo { assert (s + t)[|s| + j] == t[j]; }
  }

  lemma BucketIsDistinct<T>(hash: T -> int, m: Buckets<T>, s: seq<Entry<T>>, h: int)
    requires Agrees(hash, m, s)
    ensures Distinct(Bucket(m, h))
  {
  }

  lemma AgreesMembers<T>(hash: T -> int, m: Buckets<T>, s: seq<Entry<T>>, t: seq<Entry<T>>)
    requires Agrees(hash, m, s) && forall x :: x in s <==> x in t
    ensures Agrees(hash, m, t)
  {
  }

  lemma AmongAreHit<T>(equal: (T, T) -> bool, s: seq<Entry<T>>, t: seq<Entry<T>>, ds: seq<Entry<T>>, v: seq<T>)
    requires Distinct(s + t) && forall x :: x in ds <==> x in s + t && Matches(equal, x.item, v)
    ensures Without(Among(ds), s) == Without(HitEntry(equal, v), s)
    ensures Without(Among(ds), t) == Without(HitEntry(equal, v), t)
  {
    DistinctMembers(s + t);
    forall x | x in s + t ensures Among(ds)(x) <==> HitEntry(equal, v)(x) {
      if Among(ds)(x) {
        var k :| 0 <= k < |ds| && ds[k].seqNo == x.seqNo;
        assert ds[k] in s + t;
      }
    }
    assert forall x :: x in s || x in t ==> x in s + t;
    WithoutSame(Among(ds), HitEntry(equal, v), s);
    WithoutSame(Among(ds), HitEntry(equal, v), t);
  }

  lemma {:induction false} WithoutSame<X>(p: X -> bool, q: X -> bool, s: seq<X>)
    requires forall x :: x in s ==> (p(x) <==> q(x))
    ensures Without(p, s) == Without(q, s)
  {
    if s != [] {
      assert s == s[..|s| - 1] + [s[|s| - 1]];
      WithoutSame(p, q, s[..|s| - 1]);
    }
  }

  lemma {:induction false} OneGone<T>(s: seq<Entry<T>>, e: Entry<T>)
    requires Distinct(s) && e in s
    ensures multiset(Without(Keyed(e), s)) + multiset{e} == multiset(s)
  {
    var n := |s| - 1;
    assert s == s[..n] + [s[n]];
    if s[n] == e {
      WithoutNone(s[..n], Keyed(e));
    } else {
      OneGone(s[..n], e);
      assert s[n].seqNo != e.seqNo by { DistinctMembers(s); }
    }
  }

  lemma MatchHashes<T(!new)>(equal: (T, T) -> bool, hash: T -> int, x: T, v: seq<T>)
    requires EqualsHashAlike(equal, hash) && Matches(equal, x, v)
    ensures exists j :: 0 <= j < |v| && hash(v[j]) == hash(x)
  {
  }

  /** An entry of the bucket is not yet among those collected, unless an entry with its number is. */
  lemma OnlyOnce<T>(tree: seq<Entry<T>>, b: seq<Entry<T>>, i: nat, toDel: seq<Entry<T>>)
    requires Distinct(tree) && i < |b| && b[i] in tree && forall x :: x in toDel ==> x in tree
    ensures forall x :: x in toDel && x.seqNo == b[i].seqNo ==> x == b[i]
  {
    DistinctMembers(tree);
  }

  lemma DistinctMembers<T>(s: seq<Entry<T>>)
    requires Distinct(s)
    ensures forall x, y :: x in s && y in s && x.seqNo == y.seqNo ==> x == y
  {
  }

  lemma InsertIsNew<T(!new)>(less: (T, T) -> bool, e: Entry<T>, s: seq<Entry<T>>, stale: seq<Entry<T>>)
    requires Distinct(s + stale) && forall x :: x in s + stale ==> x.seqNo < e.seqNo
    ensures var r := Insert(less, e, s);
      Distinct(r + stale) && forall x :: x in r + stale <==> x in s + stale || x == e
  {
    hide Insert;
    var r := Insert(less, e, s);
    assert multiset(s + stale + [e]) == multiset(r + stale);
    assert Distinct(s + stale + [e]) by { assert forall i :: 0 <= i < |s + stale| ==> (s + stale)[i] in s + stale; }
    DistinctPermutes(s + stale + [e], r + stale);
    SameMembers(s + stale + [e], r + stale);
  }

  lemma SameMembers<X>(s: seq<X>, t: seq<X>)
    requires multiset(s) == multiset(t)
    ensures forall x :: x in s <==> x in t
  {
    forall x ensures x in s <==> x in t {
      assert x in multiset(s) <==> x in multiset(t);
    }
  }
}
