/** Keys of the block store: big-endian round numbers and the proposal key, in lexicographic order. */
module Keys {
  import opened Types

  type Key = seq<Byte>

  /** bytes.Compare(a, b) < 0 */
  predicate Less(a: Key, b: Key) {
    b != [] && (a == [] || a[0] < b[0] || (a[0] == b[0] && Less(a[1..], b[1..])))
  }

  lemma LessIrreflexive(a: Key)
    ensures !Less(a, a)
  {
  }

  lemma {:induction false} LessTotal(a: Key, b: Key)
    ensures Less(a, b) || Less(b, a) || a == b
    decreases |a|
  {
    if a != [] && b != [] && a[0] == b[0] {
      LessTotal(a[1..], b[1..]);
      assert a == [a[0]] + a[1..] && b == [b[0]] + b[1..];
    }
  }

  lemma {:induction false} LessTransitive(a: Key, b: Key, c: Key)
    requires Less(a, b) && Less(b, c)
    ensures Less(a, c)
    decreases |a|
  {
    if a != [] && a[0] == b[0] == c[0] {
      LessTransitive(a[1..], b[1..], c[1..]);
    }
  }

  function Pow256(width: nat): nat {
    if width == 0 then 1 else 256 * Pow256(width - 1)
  }

  /** The number in the given number of bytes, most significant first. */
  function BigEndian(n: nat, width: nat): (k: Key)
    ensures |k| == width
  {
    if width == 0 then [] else BigEndian(n / 256, width - 1) + [n % 256]
  }

  /** The number a key stands for. */
  function Value(k: Key): nat {
    if k == [] then 0 else 256 * Value(k[..|k| - 1]) + k[|k| - 1]
  }

  lemma {:induction false} ValueOfBigEndian(n: nat, width: nat)
    requires n < Pow256(width)
    ensures Value(BigEndian(n, width)) == n
    decreases width
  {
    if width > 0 {
      ValueOfBigEndian(n / 256, width - 1);
      var k := BigEndian(n, width);
      assert k[..|k| - 1] == BigEndian(n / 256, width - 1);
    }
  }

  lemma {:induction false} BigEndianOfValue(k: Key)
    ensures Value(k) < Pow256(|k|)
    ensures BigEndian(Value(k), |k|) == k
    decreases |k|
  {
    if k != [] {
      BigEndianOfValue(k[..|k| - 1]);
      var v, last := Value(k[..|k| - 1]), k[|k| - 1];
      assert (256 * v + last) / 256 == v && (256 * v + last) % 256 == last;
      assert k == k[..|k| - 1] + [last];
    }
  }

  lemma {:induction false} LessAppend(a: Key, x: Byte, b: Key, y: Byte)
    requires |a| == |b|
    ensures Less(a + [x], b + [y]) <==> Less(a, b) || (a == b && x < y)
    decreases |a|
  {
    if a != [] {
      assert (a + [x])[1..] == a[1..] + [x] && (b + [y])[1..] == b[1..] + [y];
      LessAppend(a[1..], x, b[1..], y);
      assert a == [a[0]] + a[1..] && b == [b[0]] + b[1..];
    }
  }

  /** Keys of one width sort as numbers. */
  lemma {:induction false} BigEndianOrder(m: nat, n: nat, width: nat)
    requires m < Pow256(width) && n < Pow256(width)
    ensures Less(BigEndian(m, width), BigEndian(n, width)) <==> m < n
    decreases width
  {
    if width > 0 {
      BigEndianOrder(m / 256, n / 256, width - 1);
      LessAppend(BigEndian(m / 256, width - 1), m % 256, BigEndian(n / 256, width - 1), n % 256);
      ValueOfBigEndian(m / 256, width - 1);
      ValueOfBigEndian(n / 256, width - 1);
    }
  }

  // ---- the keys in use ----

  /** util.Uint64ToBytes */
  function RoundKey(r: U64): (k: Key)
    ensures |k| == 8
  {
    BigEndian(r, 8)
  }

  /** util.BytesToUint64 */
  function KeyRound(k: Key): (r: U64)
    requires |k| == 8
  {
    RoundRange();
    BigEndianOfValue(k);
    Value(k)
  }

  const PROPOSAL_KEY: Key := [0, 0, 0, 0]

  lemma RoundRange()
    ensures Pow256(8) == U64_LIMIT
  {
    assert Pow256(4) == 0x1_0000_0000;
  }

  lemma RoundKeyRoundTrip(r: U64)
    ensures KeyRound(RoundKey(r)) == r
  {
    RoundRange();
    ValueOfBigEndian(r, 8);
  }

  lemma KeyRoundRoundTrip(k: Key)
    requires |k| == 8
    ensures RoundKey(KeyRound(k)) == k
  {
    BigEndianOfValue(k);
  }

  /** Round keys sort as round numbers. */
  lemma RoundKeyOrder(a: U64, b: U64)
    ensures Less(RoundKey(a), RoundKey(b)) <==> a < b
  {
    RoundRange();
    BigEndianOrder(a, b, 8);
  }

  /** The proposal key is the encoding of proposal number 0 and sorts below every round key, so a reverse iteration meets rounds first. */
  lemma ProposalKeySortsFirst(r: U64)
    ensures PROPOSAL_KEY == BigEndian(0, 4)
    ensures Less(PROPOSAL_KEY, RoundKey(r)) && PROPOSAL_KEY != RoundKey(r)
  {
    var k := RoundKey(r);
    assert BigEndian(0, 1) == [0];
    assert BigEndian(0, 2) == [0, 0];
    assert BigEndian(0, 3) == [0, 0, 0];
    ZerosSortFirst(4, k);
  }

  /** n zero bytes sort below any longer key. */
  lemma {:induction false} ZerosSortFirst(n: nat, k: Key)
    requires n < |k|
    ensures Less(seq(n, _ => 0), k)
    ensures n == 4 ==> seq(n, _ => 0) == PROPOSAL_KEY
    decreases n
  {
    var zeros: Key := seq(n, _ => 0);
    if n > 0 {
      ZerosSortFirst(n - 1, k[1..]);
      assert zeros[1..] == seq(n - 1, _ => 0);
    }
  }
}
