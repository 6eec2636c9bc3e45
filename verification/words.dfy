/** Machine words: bytes, 32- and 64-bit wrap-around, C++ truncating division
    and little-endian byte strings. */
module Words {
  type Byte = x: int | 0 <= x < 256

  const TWO_24: int := 0x100_0000
  const TWO_31: int := 0x8000_0000
  const TWO_32: int := 0x1_0000_0000
  const TWO_63: int := 0x8000_0000_0000_0000
  const TWO_64: int := 0x1_0000_0000_0000_0000

  function U8(x: int): Byte { x % 256 }

  function U32(x: int): int { x % TWO_32 }

  function U64(x: int): int { x % TWO_64 }

  function S32(x: int): int {
    if U32(x) < TWO_31 then U32(x) else U32(x) - TWO_32
  }

  function S64(x: int): int {
    if U64(x) < TWO_63 then U64(x) else U64(x) - TWO_64
  }

  lemma SmallU64(x: int)
    requires 0 <= x < TWO_64
    ensures U64(x) == x
  {
  }

  /** A value of the C++ type `long`. */
  predicate IsLong(x: int) { -TWO_63 <= x < TWO_63 }

  /** C++ `/` and `%`: the quotient is truncated toward zero. */
  function TruncDiv(x: int, d: int): int
    requires d > 0
  {
    if x >= 0 then x / d else -((-x) / d)
  }

  function TruncMod(x: int, d: int): int
    requires d > 0
  {
    x - TruncDiv(x, d) * d
  }

  function Pow256(n: nat): nat {
    if n == 0 then 1 else 256 * Pow256(n - 1)
  }

  /** The value of a little-endian byte string. */
  function LE(bs: seq<Byte>): nat {
    if bs == [] then 0 else bs[0] + 256 * LE(bs[1..])
  }

  /** The `n`-byte little-endian form of `x`. */
  function ToLE(x: nat, n: nat): (bs: seq<Byte>)
    ensures |bs| == n
  {
    if n == 0 then [] else [x % 256] + ToLE(x / 256, n - 1)
  }

  lemma {:induction false} LEOfToLE(x: nat, n: nat)
    requires x < Pow256(n)
    ensures LE(ToLE(x, n)) == x
  {
    if n > 0 {
      LEOfToLE(x / 256, n - 1);
      assert ToLE(x, n)[1..] == ToLE(x / 256, n - 1);
    }
  }

  lemma {:induction false} ToLEOfLE(bs: seq<Byte>)
    ensures LE(bs) < Pow256(|bs|)
    ensures ToLE(LE(bs), |bs|) == bs
  {
    if bs != [] {
      ToLEOfLE(bs[1..]);
      assert LE(bs) / 256 == LE(bs[1..]);
      assert bs == [bs[0]] + bs[1..];
    }
  }

  lemma Pow256Values()
    ensures Pow256(4) == TWO_32
    ensures Pow256(8) == TWO_64
  {
    assert Pow256(2) == 65536;
    assert Pow256(3) == TWO_24;
    assert Pow256(4) == TWO_32;
    assert Pow256(5) == 0x100_0000_0000;
    assert Pow256(6) == 0x1_0000_0000_0000;
    assert Pow256(7) == 0x100_0000_0000_0000;
  }

  lemma LE4(bs: seq<Byte>)
    requires |bs| == 4
    ensures LE(bs) == bs[0] + 256 * bs[1] + 65536 * bs[2] + TWO_24 * bs[3]
  {
    assert bs[1..][1..][1..] == [bs[3]];
    assert LE(bs[1..][1..][1..]) == bs[3];
    var v: int := bs[3];
    assert LE(bs[1..][1..]) == bs[2] + 256 * v;
  }

  /** Eight bytes written from a `long` read back as that `long`, and as its
      two's complement image when read unsigned. */
  lemma LongRoundTrip(x: int)
    ensures LE(ToLE(U64(x), 8)) == U64(x)
    ensures IsLong(x) ==> S64(LE(ToLE(U64(x), 8))) == x
  {
    hide ToLE, LE;
    Pow256Values();
    LEOfToLE(U64(x), 8);
  }

  /** A set is empty or has an element. */
  lemma EmptyOrNot(s: set<int>)
    ensures s == {} || exists x :: x in s
  {
    if forall x :: x !in s {
      assert s == {};
    }
  }

  ghost predicate NoDuplicates(s: seq<int>) {
    forall i, j :: 0 <= i < j < |s| ==> s[i] != s[j]
  }
}
