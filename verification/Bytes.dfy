/** Bytes, big-endian numbers and the Go slice operations the codec is built from. */
module Bytes {

  newtype byte = x: int | 0 <= x < 256

  datatype Option<+T> = None | Some(value: T)

  const TWO_96: nat := 0x1_0000_0000_0000_0000_0000_0000
  const TWO_256: nat :=
    0x1_0000_0000_0000_0000_0000_0000_0000_0000_0000_0000_0000_0000_0000_0000_0000_0000

  function Pow256(n: nat): (p: nat)
    ensures p >= 1
  {
    if n == 0 then 1 else 256 * Pow256(n - 1)
  }

  /** The number a big-endian byte string denotes. */
  function ToNat(bs: seq<byte>): (n: nat)
    ensures n < Pow256(|bs|)
  {
    if bs == [] then 0 else ToNat(bs[..|bs| - 1]) * 256 + bs[|bs| - 1] as int
  }

  /** The low `len` bytes of n, most significant first. */
  function FromNat(n: nat, len: nat): (bs: seq<byte>)
    ensures |bs| == len
    decreases len, n
  {
    if len == 0 then [] else FromNat(n / 256, len - 1) + [(n % 256) as byte]
  }

  function Zeros(n: nat): (bs: seq<byte>)
    ensures |bs| == n
    ensures forall i :: 0 <= i < n ==> bs[i] == 0
  {
    seq(n, _ => 0)
  }

  /** One 256-bit word of ABI data. */
  function Word(n: nat): (bs: seq<byte>)
    ensures |bs| == 32
  {
    FromNat(n, 32)
  }

  /** Go's copy(dst[at:], src): as much of src as fits, the rest of dst untouched. */
  function Copied(dst: seq<byte>, at: nat, src: seq<byte>): (r: seq<byte>)
    requires at <= |dst|
    ensures |r| == |dst|
    ensures forall k :: 0 <= k < |dst| ==> r[k] == if at <= k < at + |src| then src[k - at] else dst[k]
  {
    var n := if |src| < |dst| - at then |src| else |dst| - at;
    dst[..at] + src[..n] + dst[at + n..]
  }

  /** copy(dst[at:], src) on the buffer itself. */
  method Copy(dst: array<byte>, at: nat, src: seq<byte>)
    requires at <= dst.Length
    modifies dst
    ensures dst[..] == Copied(old(dst[..]), at, src)
  {
    var n := if |src| < dst.Length - at then |src| else dst.Length - at;
    ghost var was := dst[..];
    for i := 0 to n
      invariant forall k :: 0 <= k < dst.Length ==> dst[k] == if at <= k < at + i then src[k - at] else was[k]
    {
      dst[at + i] := src[i];
    }
    assert dst[..] == was[..at] + src[..n] + was[at + n..];
  }

  lemma {:induction false} NumberOfBytes(bs: seq<byte>)
    ensures FromNat(ToNat(bs), |bs|) == bs
  {
    if bs != [] {
      var front := bs[..|bs| - 1];
      NumberOfBytes(front);
      assert ToNat(bs) / 256 == ToNat(front);
      assert bs == front + [bs[|bs| - 1]];
    }
  }

  lemma {:induction false} SplitLowByte(n: nat, p: nat)
    requires p >= 1
    ensures (n / 256 % p) * 256 + n % 256 == n % (256 * p)
  {
    var q, r := n / 256, n % 256;
    var a, b := q / p, q % p;
    assert n == 256 * q + r && q == a * p + b;
    assert n == a * (256 * p) + (b * 256 + r) by {
      assert 256 * (a * p) == a * (256 * p);
    }
    ModUnique(n, 256 * p, a, b * 256 + r);
  }

  lemma {:induction false} ModUnique(n: nat, m: nat, q: nat, r: nat)
    requires m >= 1 && n == q * m + r && r < m
    ensures n % m == r && n / m == q
  {
    var d := n / m - q;
    assert n == (n / m) * m + n % m;
    assert d * m == r - n % m;
    assert d <= 0 || d * m >= m;
    assert d >= 0 || d * m <= 0 - m;
  }

  /** Writing n into len bytes keeps it modulo 256^len. */
  lemma {:induction false} BytesOfNumber(n: nat, len: nat)
    ensures ToNat(FromNat(n, len)) == n % Pow256(len)
  {
    if len != 0 {
      BytesOfNumber(n / 256, len - 1);
      SplitLowByte(n, Pow256(len - 1));
      assert FromNat(n, len)[..len - 1] == FromNat(n / 256, len - 1);
    }
  }

  lemma {:induction false} ShiftLeft(n: int, p: int, low: int, last: int)
    ensures (n * p + low) * 256 + last == n * (256 * p) + (low * 256 + last)
  {
  }

  lemma {:induction false} NumberOfConcat(a: seq<byte>, b: seq<byte>)
    ensures ToNat(a + b) == ToNat(a) * Pow256(|b|) + ToNat(b)
  {
    if b == [] {
      assert a + b == a;
    } else {
      var front, last := b[..|b| - 1], b[|b| - 1];
      NumberOfConcat(a, front);
      assert (a + b)[..|a + b| - 1] == a + front && (a + b)[|a + b| - 1] == last;
      assert ToNat(a + b) == ToNat(a + front) * 256 + last as int;
      assert ToNat(b) == ToNat(front) * 256 + last as int && Pow256(|b|) == 256 * Pow256(|front|);
      hide ToNat, Pow256;
      ShiftLeft(ToNat(a), Pow256(|front|), ToNat(front), last as int);
    }
  }

  lemma {:induction false} NumberOfZeros(n: nat)
    ensures ToNat(Zeros(n)) == 0
  {
    if n != 0 {
      assert Zeros(n)[..n - 1] == Zeros(n - 1);
      NumberOfZeros(n - 1);
    }
  }

  lemma {:induction false} Pow12()
    ensures Pow256(12) == TWO_96
  {
    assert Pow256(4) == 0x1_0000_0000;
    assert Pow256(8) == 0x1_0000_0000_0000_0000 by { assert Pow256(6) == 0x1_0000_0000_0000; }
    assert Pow256(10) == 0x1_0000_0000_0000_0000_0000;
  }

  lemma {:induction false} PowSum(a: nat, b: nat)
    ensures Pow256(a + b) == Pow256(a) * Pow256(b)
  {
    if a != 0 {
      PowSum(a - 1, b);
    }
  }

  lemma {:induction false} Pow32()
    ensures Pow256(32) == TWO_256
  {
    Pow12();
    PowSum(12, 12);
    PowSum(24, 8);
    assert Pow256(4) == 0x1_0000_0000;
    PowSum(4, 4);
  }

  lemma {:induction false} WordValue(n: nat)
    requires n < TWO_256
    ensures ToNat(Word(n)) == n
  {
    BytesOfNumber(n, 32);
    Pow32();
  }

  lemma {:induction false} Associative<T>(a: seq<T>, b: seq<T>, c: seq<T>)
    ensures (a + b) + c == a + (b + c)
  {
  }
}
