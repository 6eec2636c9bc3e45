/** Instructions in byte memory: the call, jump, branch and return encodings
    that code replacement has to preserve, and the creation of a function
    pointer. Every other opcode is a plain one-byte operation. */
module Code {
  import opened Words

  type Memory = map<int, Byte>

  datatype Operation =
    | Op(opcode: Byte)
    | Branch(negated: bool, target: int)
    | Jump(target: int)
    | Call(target: int)
    | CallSlot(slot: int)   // indirect call through an 8-byte cell, such as a v-table entry
    | CallData              // indirect call of a function pointer in a register
    | Point(target: int)    // the address of a function put into a register
    | Ret

  datatype Decoded = Undecodable | Inst(op: Operation, size: nat)

  predicate InRange(k: int, a: int, n: nat) { a <= k < a + n }

  function Range(a: int, n: nat): (s: set<int>)
    ensures forall k :: k in s <==> a <= k < a + n
  {
    set k: int | a <= k < a + n && InRange(k, a, n)
  }

  predicate Has(mem: Memory, a: int, n: nat) {
    forall k :: a <= k < a + n ==> k in mem
  }

  function Bytes(mem: Memory, a: int, n: nat): (bs: seq<Byte>)
    requires Has(mem, a, n)
    ensures |bs| == n
    ensures forall i :: 0 <= i < n ==> bs[i] == mem[a + i]
  {
    seq(n, i requires 0 <= i < n => mem[a + i])
  }

  function Displacement(mem: Memory, a: int): int
    requires Has(mem, a, 4)
  {
    S32(LE(Bytes(mem, a, 4)))
  }

  /** A displacement, byte by byte. */
  lemma DisplacementIs(m: Memory, a: int, b0: Byte, b1: Byte, b2: Byte, b3: Byte)
    requires Has(m, a, 4) && m[a] == b0 && m[a + 1] == b1 && m[a + 2] == b2 && m[a + 3] == b3
    ensures Displacement(m, a) == S32(b0 + 256 * b1 + 65536 * b2 + TWO_24 * b3)
  {
    LE4(Bytes(m, a, 4));
  }

  function Decode(mem: Memory, a: int): Decoded {
    if a !in mem then Undecodable
    else if mem[a] == 0xE8 then
      if Has(mem, a + 1, 4) then Inst(Call(U64(a + 5 + Displacement(mem, a + 1))), 5) else Undecodable
    else if mem[a] == 0xE9 then
      if Has(mem, a + 1, 4) then Inst(Jump(U64(a + 5 + Displacement(mem, a + 1))), 5) else Undecodable
    else if mem[a] == 0x0F then
      if Has(mem, a + 1, 5) && (mem[a + 1] == 0x84 || mem[a + 1] == 0x85) then
        Inst(Branch(mem[a + 1] == 0x85, U64(a + 6 + Displacement(mem, a + 2))), 6)
      else Undecodable
    else if mem[a] == 0xFF then
      if Has(mem, a + 1, 1) && mem[a + 1] == 0xD0 then Inst(CallData, 2)
      else if Has(mem, a + 1, 6) && mem[a + 1] == 0x14 && mem[a + 2] == 0x25 then
        Inst(CallSlot(U64(Displacement(mem, a + 3))), 7)
      else Undecodable
    else if mem[a] == 0x48 then
      if Has(mem, a + 1, 6) && mem[a + 1] == 0xC7 && mem[a + 2] == 0xC0 then
        Inst(Point(U64(Displacement(mem, a + 3))), 7)
      else Undecodable
    else if mem[a] == 0xC3 then Inst(Ret, 1)
    else Inst(Op(mem[a]), 1)
  }

  /** Two memories hold the same bytes at `n` addresses from `a` on. */
  predicate Agree(m: Memory, m': Memory, a: int, n: nat) {
    forall k :: a <= k < a + n ==> k in m && k in m' && m[k] == m'[k]
  }

  lemma BytesAgree(m: Memory, m': Memory, a: int, n: nat)
    requires Agree(m, m', a, n)
    ensures Has(m, a, n) && Has(m', a, n) && Bytes(m, a, n) == Bytes(m', a, n)
  {
  }

  lemma DecodedSize(m: Memory, a: int)
    requires Decode(m, a).Inst?
    ensures 1 <= Decode(m, a).size <= 7 && Has(m, a, Decode(m, a).size)
  {
  }

  /** Decoding depends on no byte outside the instruction. */
  lemma DecodeAgrees(m: Memory, m': Memory, a: int)
    requires Decode(m, a).Inst? && Agree(m, m', a, Decode(m, a).size)
    ensures Decode(m', a) == Decode(m, a)
  {
    DecodedSize(m, a);
    match Decode(m, a).op
    case Call(_) => BytesAgree(m, m', a + 1, 4);
    case Jump(_) => BytesAgree(m, m', a + 1, 4);
    case Branch(_, _) => BytesAgree(m, m', a + 2, 4);
    case CallSlot(_) => BytesAgree(m, m', a + 3, 4);
    case Point(_) => BytesAgree(m, m', a + 3, 4);
    case _ =>
  }
}
