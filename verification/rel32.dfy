/** The rel32 encoder of src/utils.cpp: the four bytes that follow the E8
    opcode of a patched call. */
module Rel32 {
  import opened Words

  /** The four bytes, least significant first, that the digit loop produces:
      base-256 digits taken by truncating division, so that every digit of a
      negative number is the negated digit of its magnitude. */
  function Rel32Bytes(x: int): (bs: seq<Byte>)
    ensures |bs| == 4
  {
    var low24 := TruncMod(x, TWO_24);
    var low16 := TruncMod(low24, 65536);
    var low8 := TruncMod(low16, 256);
    [U8(low8), U8(TruncDiv(low16, 256)), U8(TruncDiv(low24, 65536)), U8(TruncDiv(x, TWO_24))]
  }

  method ConvertLong2VecUint8(input: int) returns (result: seq<Byte>)
    requires IsLong(input)
    ensures result == Rel32Bytes(input)
  {
    hide TruncDiv, TruncMod, U8;
    var tmp: seq<Byte> := [];
    var divisor := 256 * 256 * 256;
    var rest := input;
    var i := 0;
    ghost var low24 := TruncMod(input, TWO_24);
    ghost var low16 := TruncMod(low24, 65536);
    ghost var low8 := TruncMod(low16, 256);
    while i < 4
      invariant 0 <= i <= 4 && |tmp| == i
      invariant i == 0 ==> divisor == TWO_24 && rest == input
      invariant i == 1 ==> divisor == 65536 && rest == low24
      invariant i == 2 ==> divisor == 256 && rest == low16
      invariant i == 3 ==> divisor == 1 && rest == low8
      invariant i > 0 ==> tmp[0] == U8(TruncDiv(input, TWO_24))
      invariant i > 1 ==> tmp[1] == U8(TruncDiv(low24, 65536))
      invariant i > 2 ==> tmp[2] == U8(TruncDiv(low16, 256))
      invariant i > 3 ==> tmp[3] == U8(low8)
    {
      TruncDivOne(rest);
      var digit := TruncDiv(rest, divisor);
      rest := TruncMod(rest, divisor);
      tmp := tmp + [U8(digit)];
      divisor := divisor / 256;
      i := i + 1;
    }
    result := [];
    i := 3;
    while i >= 0
      invariant -1 <= i <= 3 && |result| == 3 - i
      invariant forall k :: 0 <= k < |result| ==> result[k] == tmp[3 - k]
    {
      result := result + [tmp[i]];
      i := i - 1;
    }
  }

  lemma TruncDivOne(x: int)
    ensures TruncDiv(x, 1) == x
  {
  }

  /** `y` has the base-256 digits `d2 d1 d0` below 2^24, and `d3` above. */
  predicate HasDigits(y: int, d0: int, d1: int, d2: int, d3: int) {
    && 0 <= d0 < 256 && 0 <= d1 < 256 && 0 <= d2 < 256 && 0 <= d3
    && y == d0 + 256 * d1 + 65536 * d2 + TWO_24 * d3
  }

  lemma Digits(y: nat) returns (d0: int, d1: int, d2: int, d3: int)
    ensures HasDigits(y, d0, d1, d2, d3)
  {
    var q1 := y / 256;
    var q2 := q1 / 256;
    d0, d1, d2, d3 := y % 256, q1 % 256, q2 % 256, q2 / 256;
  }

  lemma DivBy24(y: int, q: int, r: int)
    requires 0 <= r < TWO_24 && y == q * TWO_24 + r
    ensures y / TWO_24 == q && y % TWO_24 == r
  {
  }

  lemma DivBy16(y: int, q: int, r: int)
    requires 0 <= r < 65536 && y == q * 65536 + r
    ensures y / 65536 == q
  {
  }

  lemma DivBy8(y: int, q: int, r: int)
    requires 0 <= r < 256 && y == q * 256 + r
    ensures y / 256 == q
  {
  }

  lemma PositiveBytes(y: int, d0: int, d1: int, d2: int, d3: int)
    requires HasDigits(y, d0, d1, d2, d3)
    ensures Rel32Bytes(y) == [d0, d1, d2, U8(d3)]
  {
    DivBy24(y, d3, d0 + 256 * d1 + 65536 * d2);
    DivBy16(d0 + 256 * d1 + 65536 * d2, d2, d0 + 256 * d1);
    DivBy8(d0 + 256 * d1, d1, d0);
  }

  lemma NegativeBytes(x: int, d0: int, d1: int, d2: int, d3: int)
    requires HasDigits(0 - x, d0, d1, d2, d3)
    ensures Rel32Bytes(x) == [U8(0 - d0), U8(0 - d1), U8(0 - d2), U8(0 - d3)]
  {
    DivBy24(0 - x, d3, d0 + 256 * d1 + 65536 * d2);
    var low24 := TruncMod(x, TWO_24);
    assert TruncDiv(x, TWO_24) == 0 - d3;
    assert low24 == 0 - (d0 + 256 * d1 + 65536 * d2);
    DivBy16(0 - low24, d2, d0 + 256 * d1);
    var low16 := TruncMod(low24, 65536);
    assert TruncDiv(low24, 65536) == 0 - d2;
    assert low16 == 0 - (d0 + 256 * d1);
    DivBy8(0 - low16, d1, d0);
    assert TruncDiv(low16, 256) == 0 - d1;
    assert TruncMod(low16, 256) == 0 - d0;
  }

  /** What the bytes of a negative number are short of its two's complement:
      one borrow for each nonzero digit below the top one. */
  function MissedBorrow(d0: int, d1: int, d2: int): int {
    (if d0 == 0 then 0 else 256) + (if d1 == 0 then 0 else 65536) + (if d2 == 0 then 0 else TWO_24)
  }

  lemma NegatedDigit(d: int)
    requires 0 <= d < 256
    ensures U8(0 - d) as int == if d == 0 then 0 else 256 - d
  {
  }

  lemma NegatedTop(d3: int) returns (k: int)
    ensures U8(0 - d3) as int == 256 * k - d3
  {
    k := 0 - (0 - d3) / 256;
  }

  lemma ValueOfBytes(bs: seq<Byte>, x: int, k: int)
    requires |bs| == 4
    requires bs[0] + 256 * bs[1] + 65536 * bs[2] + TWO_24 * bs[3] == x - TWO_32 * k
    ensures LE(bs) == U32(x)
  {
    LE4(bs);
    ToLEOfLE(bs);
    Pow256Values();
    RemainderIs(x, k, LE(bs));
  }

  lemma RemainderIs(x: int, k: int, r: int)
    requires 0 <= r < TWO_32 && r == x - TWO_32 * k
    ensures U32(x) == r
  {
  }

  lemma EncodedPositive(y: int, d0: int, d1: int, d2: int, d3: int)
    requires HasDigits(y, d0, d1, d2, d3)
    ensures LE(Rel32Bytes(y)) == U32(y)
  {
    PositiveBytes(y, d0, d1, d2, d3);
    ValueOfBytes([d0, d1, d2, U8(d3)], y, d3 / 256);
  }

  lemma EncodedNegative(x: int, d0: int, d1: int, d2: int, d3: int)
    requires HasDigits(0 - x, d0, d1, d2, d3)
    ensures LE(Rel32Bytes(x)) == U32(x + MissedBorrow(d0, d1, d2))
  {
    NegativeBytes(x, d0, d1, d2, d3);
    NegatedDigit(d0); NegatedDigit(d1); NegatedDigit(d2);
    var k := NegatedTop(d3);
    ValueOfBytes([U8(0 - d0), U8(0 - d1), U8(0 - d2), U8(0 - d3)], x + MissedBorrow(d0, d1, d2), 0 - k);
  }

  lemma U32Changes(x: int, m: int)
    requires 0 <= m < TWO_32
    ensures U32(x + m) == U32(x) <==> m == 0
  {
    var q, r := x / TWO_32, x % TWO_32;
    assert (x + m) % TWO_32 == if r + m < TWO_32 then r + m else r + m - TWO_32;
  }

  lemma MultipleNegated(x: int, d0: int, d1: int, d2: int, d3: int)
    requires HasDigits(0 - x, d0, d1, d2, d3)
    ensures x % TWO_24 == 0 <==> MissedBorrow(d0, d1, d2) == 0
  {
    var r := d0 + 256 * d1 + 65536 * d2;
    if r == 0 {
      DivBy24(x, 0 - d3, 0);
    } else {
      DivBy24(x, 0 - d3 - 1, TWO_24 - r);
    }
  }

  /** The encoder is exact on the non-negative numbers and on the multiples of
      2^24, and on no other number. */
  lemma EncoderExact(x: int)
    ensures LE(Rel32Bytes(x)) == U32(x) <==> x >= 0 || x % TWO_24 == 0
  {
    var d0, d1, d2, d3 := Digits(if x >= 0 then x else 0 - x);
    if x >= 0 {
      EncodedPositive(x, d0, d1, d2, d3);
    } else {
      EncodedNegative(x, d0, d1, d2, d3);
      MultipleNegated(x, d0, d1, d2, d3);
      U32Changes(x, MissedBorrow(d0, d1, d2));
    }
  }

  /** A backward call that the encoder gets wrong: a distance of one byte back
      is written as FF 00 00 00, which decodes to 255 bytes forward. */
  lemma BackwardCallMisencoded()
    ensures Rel32Bytes(-1) == [0xFF, 0, 0, 0]
    ensures LE(Rel32Bytes(-1)) == 255
  {
    NegativeBytes(-1, 1, 0, 0, 0);
    LE4([0xFF, 0, 0, 0]);
  }
}
