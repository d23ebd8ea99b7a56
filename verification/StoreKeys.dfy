/** The keys of the on-disk store: the byte order of keys is the order of the queue. */
module StoreKeys {

  const WORD := 0x1_0000_0000_0000_0000

  type Uint64 = n: nat | n < WORD

  function Pow256(k: nat): nat
  {
    if k == 0 then 1 else 256 * Pow256(k - 1)
  }

  /** k bytes of n, most significant first. */
  function BigEndian(n: nat, k: nat): (b: seq<nat>)
    ensures |b| == k && forall i :: 0 <= i < k ==> b[i] < 256
  {
    if k == 0 then [] else BigEndian(n / 256, k - 1) + [n % 256]
  }

  /** Byte-lexicographic order. */
  predicate KeyLess(a: seq<nat>, b: seq<nat>)
  {
    exists k :: 0 <= k <= |a| && k <= |b| && FirstDifference(a, b, k)
  }

  predicate FirstDifference(a: seq<nat>, b: seq<nat>, k: nat)
    requires k <= |a| && k <= |b|
  {
    a[..k] == b[..k] && k < |b| && (k == |a| || a[k] < b[k])
  }

  function FifoKey(seqNo: Uint64): seq<nat>
  {
    BigEndian(seqNo, 8)
  }

  /** The complement puts the highest priority first. */
  function PriorityKey(priority: Uint64, seqNo: Uint64): seq<nat>
  {
    BigEndian(WORD - 1 - priority, 8) + BigEndian(seqNo, 8)
  }

  lemma {:induction false} BigEndianOrder(m: nat, n: nat, k: nat)
    requires m < Pow256(k) && n < Pow256(k)
    ensures m == n <==> BigEndian(m, k) == BigEndian(n, k)
    ensures m < n <==> KeyLess(BigEndian(m, k), BigEndian(n, k))
  {
    if k > 0 {
      BigEndianOrder(m / 256, n / 256, k - 1);
      TwoParts(BigEndian(m / 256, k - 1), BigEndian(n / 256, k - 1), [m % 256], [n % 256]);
      OneByte(m % 256, n % 256);
      assert m == 256 * (m / 256) + m % 256 && n == 256 * (n / 256) + n % 256;
    }
  }

  lemma OneByte(x: nat, y: nat)
    ensures KeyLess([x], [y]) <==> x < y
  {
    if x < y { assert FirstDifference([x], [y], 0); }
  }

  lemma PartsBelow(a: seq<nat>, b: seq<nat>, c: seq<nat>, d: seq<nat>)
    requires |a| == |b| && |c| == |d| && KeyLess(a + c, b + d)
    ensures KeyLess(a, b) || (a == b && KeyLess(c, d))
  {
    var n := |a|;
    var k :| 0 <= k <= |a + c| && k <= |b + d| && FirstDifference(a + c, b + d, k);
    if k < n {
      assert a[..k] == (a + c)[..k] && b[..k] == (b + d)[..k];
      assert FirstDifference(a, b, k);
    } else {
      assert a == (a + c)[..k][..n] && b == (b + d)[..k][..n];
      assert c[..k - n] == (a + c)[..k][n..] && d[..k - n] == (b + d)[..k][n..];
      assert FirstDifference(c, d, k - n);
    }
  }

  lemma FirstBelow(a: seq<nat>, b: seq<nat>, c: seq<nat>, d: seq<nat>)
    requires |a| == |b| && |c| == |d| && KeyLess(a, b)
    ensures KeyLess(a + c, b + d)
  {
    var k :| 0 <= k <= |a| && k <= |b| && FirstDifference(a, b, k);
    assert (a + c)[..k] == a[..k] && (b + d)[..k] == b[..k];
    assert FirstDifference(a + c, b + d, k);
  }

  lemma SecondBelow(a: seq<nat>, c: seq<nat>, d: seq<nat>)
    requires |c| == |d| && KeyLess(c, d)
    ensures KeyLess(a + c, a + d)
  {
    var n := |a|;
    var k :| 0 <= k <= |c| && k <= |d| && FirstDifference(c, d, k);
    assert (a + c)[..n + k] == a + c[..k] && (a + d)[..n + k] == a + d[..k];
    assert FirstDifference(a + c, a + d, n + k);
  }

  /** Keys of two parts of fixed lengths compare by the first part, then by the second. */
  lemma TwoParts(a: seq<nat>, b: seq<nat>, c: seq<nat>, d: seq<nat>)
    requires |a| == |b| && |c| == |d|
    ensures KeyLess(a + c, b + d) <==> KeyLess(a, b) || (a == b && KeyLess(c, d))
    ensures a + c == b + d <==> a == b && c == d
  {
    hide KeyLess;
    if KeyLess(a + c, b + d) { PartsBelow(a, b, c, d); }
    if KeyLess(a, b) { FirstBelow(a, b, c, d); }
    if a == b && KeyLess(c, d) { SecondBelow(a, c, d); }
    if a + c == b + d {
      assert a == (a + c)[..|a|] && c == (a + c)[|a|..];
    }
  }

  lemma EightBytes()
    ensures Pow256(8) == WORD
  {
    assert Pow256(1) == 256;
    assert Pow256(2) == 0x1_0000;
    assert Pow256(3) == 0x100_0000;
    assert Pow256(4) == 0x1_0000_0000;
    assert Pow256(5) == 0x100_0000_0000;
    assert Pow256(6) == 0x1_0000_0000_0000;
    assert Pow256(7) == 0x100_0000_0000_0000;
  }

  /** The store walks a FIFO queue's keys in order of insertion. */
  lemma FifoKeysAscend(m: Uint64, n: Uint64)
    ensures KeyLess(FifoKey(m), FifoKey(n)) <==> m < n
  {
    EightBytes();
    BigEndianOrder(m, n, 8);
  }

  /** ... and a priority queue's by priority, highest first, then by insertion. */
  lemma PriorityKeysDescend(p: Uint64, m: Uint64, q: Uint64, n: Uint64)
    ensures KeyLess(PriorityKey(p, m), PriorityKey(q, n)) <==> p > q || (p == q && m < n)
    ensures PriorityKey(p, m) == PriorityKey(q, n) <==> p == q && m == n
  {
    EightBytes();
    BigEndianOrder(WORD - 1 - p, WORD - 1 - q, 8);
    BigEndianOrder(m, n, 8);
    TwoParts(BigEndian(WORD - 1 - p, 8), BigEndian(WORD - 1 - q, 8), BigEndian(m, 8), BigEndian(n, 8));
  }
}
