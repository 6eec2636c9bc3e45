/** Hexadecimal text: the string conversions of src/utils.cpp and the printing
    that objdump and `std::hex` do. */
module Hex {
  import opened Words

  predicate IsHexDigit(c: char) { '0' <= c <= '9' || 'a' <= c <= 'f' }

  /** The value added for one character; any other character adds nothing. */
  function DigitValue(c: char): (d: nat)
    ensures d < 16
  {
    if 'a' <= c <= 'f' then c as int - 'a' as int + 10
    else if '0' <= c <= '9' then c as int - '0' as int
    else 0
  }

  /** Capital letters add nothing; neither does a prefix or a sign. */
  lemma OnlyLowerCase(c: char)
    ensures 'A' <= c <= 'F' || c == 'x' || c == '-' || c == ':' ==> DigitValue(c) == 0 && !IsHexDigit(c)
    ensures 'a' <= c <= 'f' ==> DigitValue(c) == c as int - 'a' as int + 10 && IsHexDigit(c)
    ensures '0' <= c <= '9' ==> DigitValue(c) == c as int - '0' as int && IsHexDigit(c)
  {
  }

  /** The number a string denotes in base 16. */
  function Value(s: string): nat {
    if s == [] then 0 else 16 * Value(s[..|s| - 1]) + DigitValue(s[|s| - 1])
  }

  lemma ValueLiteral()
    ensures Value("1f0c") == 0x1F0C
  {
    var s := "1f0c";
    assert s[..3] == "1f0" && "1f0"[..2] == "1f" && "1f"[..1] == "1" && "1"[..0] == "";
    assert Value("1f0") == 16 * Value("1f") + 0;
  }

  lemma S64Step(r: int, v: int, d: int)
    requires r == S64(v)
    ensures S64(r * 16) == S64(v * 16)
    ensures S64(r + d) == S64(v + d)
  {
    var k := v / TWO_64;
    if r == v - TWO_64 * k {
      S64Shift(r * 16, v * 16, 16 * k);
      S64Shift(r + d, v + d, k);
    } else {
      assert r == v - TWO_64 * (k + 1);
      S64Shift(r * 16, v * 16, 16 * (k + 1));
      S64Shift(r + d, v + d, k + 1);
    }
  }

  lemma S64Shift(x: int, y: int, k: int)
    requires x == y - TWO_64 * k
    ensures S64(x) == S64(y)
  {
    var r := y % TWO_64;
    var q := y / TWO_64;
    U64Is(x, q - k, r);
  }

  lemma U64Is(x: int, q: int, r: int)
    requires 0 <= r < TWO_64 && x == TWO_64 * q + r
    ensures U64(x) == r
  {
  }

  /** The Horner loop, in wrapping 64-bit arithmetic. */
  method ConvertStr2Long(str: string) returns (result: int)
    ensures result == S64(Value(str))
  {
    result := 0;
    var i := 0;
    while i < |str|
      invariant 0 <= i <= |str|
      invariant i < |str| ==> result == S64(16 * Value(str[..i]))
      invariant i == |str| ==> result == S64(Value(str))
    {
      ghost var v := 16 * Value(str[..i]);
      assert str[..i + 1][..i] == str[..i];
      if 'a' <= str[i] <= 'f' {
        S64Step(result, v, str[i] as int - 'a' as int + 10);
        result := S64(result + (str[i] as int - 'a' as int + 10));
      } else if '0' <= str[i] <= '9' {
        S64Step(result, v, str[i] as int - '0' as int);
        result := S64(result + (str[i] as int - '0' as int));
      }
      assert result == S64(Value(str[..i + 1]));
      if i != |str| - 1 {
        S64Step(result, Value(str[..i + 1]), 0);
        result := S64(result * 16);
      } else {
        assert str[..i + 1] == str;
      }
      i := i + 1;
    }
  }

  method IsHex(word: string) returns (r: bool)
    ensures r <==> word != [] && forall k :: 0 <= k < |word| ==> IsHexDigit(word[k])
  {
    if |word| == 0 {
      return false;
    }
    var i := 0;
    while i < |word|
      invariant 0 <= i <= |word|
      invariant forall k :: 0 <= k < i ==> IsHexDigit(word[k])
    {
      if !('0' <= word[i] <= '9' || 'a' <= word[i] <= 'f') {
        return false;
      }
      i := i + 1;
    }
    return true;
  }

  /** A byte token: two characters, both hexadecimal digits. */
  predicate IsByteToken(w: string) {
    |w| == 2 && IsHexDigit(w[0]) && IsHexDigit(w[1])
  }

  method ConvertStr2Uint8(str: string) returns (result: Byte)
    requires |str| == 2
    ensures result == Value(str)
  {
    PairValue(str);
    result := 0;
    if 'a' <= str[0] <= 'f' {
      result := U8(str[0] as int - 'a' as int + 10);
    } else if '0' <= str[0] <= '9' {
      result := U8(str[0] as int - '0' as int);
    }
    assert result == DigitValue(str[0]);
    var shifted: int := result * 16;
    result := U8(shifted);
    assert result == 16 * DigitValue(str[0]);
    var sum: int := result;
    if 'a' <= str[1] <= 'f' {
      sum := sum + (str[1] as int - 'a' as int + 10);
    } else if '0' <= str[1] <= '9' {
      sum := sum + (str[1] as int - '0' as int);
    }
    assert sum == Value(str);
    result := U8(sum);
  }

  lemma PairValue(s: string)
    requires |s| == 2
    ensures Value(s) == 16 * DigitValue(s[0]) + DigitValue(s[1]) < 256
  {
    assert s[..1][..0] == [];
    assert Value(s[..1]) == DigitValue(s[0]);
  }

  // Printing

  function Digit(d: nat): (c: char)
    requires d < 16
    ensures IsHexDigit(c) && DigitValue(c) == d
  {
    if d < 10 then '0' + d as char else 'a' + (d - 10) as char
  }

  /** A number without leading zeros, as `std::hex` and objdump print it. */
  function Printed(n: nat): (s: string)
    ensures s != [] && forall k :: 0 <= k < |s| ==> IsHexDigit(s[k])
    ensures |s| == 2 <==> 16 <= n < 256
    decreases n
  {
    if n < 16 then [Digit(n)] else Printed(n / 16) + [Digit(n % 16)]
  }

  /** One instruction byte as objdump prints it. */
  function ByteToken(b: Byte): (s: string)
    ensures IsByteToken(s)
  {
    [Digit(b / 16), Digit(b % 16)]
  }

  lemma {:induction false} ValueOfPrinted(n: nat)
    ensures Value(Printed(n)) == n
    decreases n
  {
    var s := Printed(n);
    if n < 16 {
      assert s[..|s| - 1] == [];
    } else {
      ValueOfPrinted(n / 16);
      assert s[..|s| - 1] == Printed(n / 16);
    }
  }

  lemma ValueOfByteToken(b: Byte)
    ensures Value(ByteToken(b)) == b
  {
    PairValue(ByteToken(b));
  }

  function ConvertLong2HexString(num: int): string { Printed(U64(num)) }

  /** Printing a 64-bit `long` in base 16 and reading it back is the identity,
      for negative numbers through their two's complement. */
  lemma PrintedLongReadsBack(num: int)
    requires IsLong(num)
    ensures S64(Value(ConvertLong2HexString(num))) == num
  {
    hide Value, Printed;
    ValueOfPrinted(U64(num));
    LongImage(num);
  }

  lemma LongImage(num: int)
    requires IsLong(num)
    ensures S64(U64(num)) == num
  {
    if num < 0 {
      U64Is(num, -1, num + TWO_64);
    } else {
      SmallU64(num);
    }
    SmallU64(U64(num));
  }

  /** The byte strings joined last byte first, as the relocation loop joins them. */
  function JoinedBackward(tokens: seq<string>): string {
    if tokens == [] then "" else JoinedBackward(tokens[1..]) + tokens[0]
  }

  function Tokens(bs: seq<Byte>): (ts: seq<string>)
    ensures |ts| == |bs|
    ensures forall k :: 0 <= k < |bs| ==> ts[k] == ByteToken(bs[k])
  {
    seq(|bs|, i requires 0 <= i < |bs| => ByteToken(bs[i]))
  }

  /** Joining printed bytes backward writes down their little-endian value. */
  lemma {:induction false} JoinedBackwardValue(bs: seq<Byte>)
    ensures Value(JoinedBackward(Tokens(bs))) == LE(bs)
  {
    if bs != [] {
      JoinedBackwardValue(bs[1..]);
      assert Tokens(bs)[1..] == Tokens(bs[1..]);
      var s, t := JoinedBackward(Tokens(bs[1..])), ByteToken(bs[0]);
      assert (s + t)[..|s| + 1] == s + t[..1];
      assert (s + t[..1])[..|s|] == s;
      assert Value(s + t[..1]) == 16 * Value(s) + DigitValue(t[0]);
    }
  }
}
