/** The record stream shared by the writers and the two readers: an 8-byte
    address, an 8-byte length and the payload, all little-endian. Replaying
    records into memory overlays their payloads. */
module Records {
  import opened Words
  import opened Code

  datatype Record = Record(addr: int, payload: seq<Byte>)

  function Encode(r: Record): seq<Byte> {
    ToLE(U64(r.addr), 8) + ToLE(U64(|r.payload|), 8) + r.payload
  }

  /** The layout: the address in the first eight bytes, the length in the next
      eight, both least significant byte first, and then the payload. */
  lemma Layout(r: Record)
    ensures |Encode(r)| == 16 + |r.payload| && Encode(r)[16..] == r.payload
    ensures LE(Encode(r)[..8]) == U64(r.addr) && LE(Encode(r)[8..][..8]) == U64(|r.payload|)
  {
    Fields(r, []);
    assert Encode(r) + [] == Encode(r) && r.payload + [] == r.payload;
    LongRoundTrip(r.addr);
    LongRoundTrip(|r.payload|);
  }

  /** One patch at 4096, as it lies in the file. */
  lemma LayoutOfPatch()
    ensures Encode(Record(4096, [0xE8, 1, 2, 3, 4])) == [0, 16, 0, 0, 0, 0, 0, 0, 5, 0, 0, 0, 0, 0, 0, 0, 0xE8, 1, 2, 3, 4]
  {
    SmallU64(4096);
    SmallU64(5);
    EightBytes(4096, 0, 16);
    EightBytes(5, 5, 0);
  }

  lemma EightBytes(x: nat, b0: Byte, b1: Byte)
    requires x == b0 + 256 * b1
    ensures ToLE(x, 8) == [b0, b1, 0, 0, 0, 0, 0, 0]
  {
    assert x / 256 == b1 && x / 256 / 256 == 0;
    assert ToLE(0, 6) == [0, 0, 0, 0, 0, 0] by { ZeroLE(6); }
    assert ToLE(x / 256, 7) == [b1] + ToLE(0, 6);
  }

  lemma {:induction false} ZeroLE(n: nat)
    ensures forall i :: 0 <= i < n ==> ToLE(0, n)[i] == 0
  {
    if n > 0 {
      ZeroLE(n - 1);
    }
  }

  function EncodeAll(rs: seq<Record>): seq<Byte> {
    if rs == [] then [] else Encode(rs[0]) + EncodeAll(rs[1..])
  }

  lemma {:induction false} EncodeAllAppend(rs: seq<Record>, ss: seq<Record>)
    ensures EncodeAll(rs + ss) == EncodeAll(rs) + EncodeAll(ss)
  {
    if rs == [] {
      assert rs + ss == ss;
    } else {
      EncodeAllAppend(rs[1..], ss);
      assert (rs + ss)[1..] == rs[1..] + ss && (rs + ss)[0] == rs[0];
      AppendAssociative(Encode(rs[0]), EncodeAll(rs[1..]), EncodeAll(ss));
    }
  }

  lemma AppendAssociative(a: seq<Byte>, b: seq<Byte>, c: seq<Byte>)
    ensures a + b + c == a + (b + c)
  {
  }

  lemma EncodeAllSnoc(rs: seq<Record>, r: Record)
    ensures EncodeAll(rs + [r]) == EncodeAll(rs) + Encode(r)
  {
    EncodeAllAppend(rs, [r]);
    assert [r][1..] == [];
  }

  /** Where the fields of an encoded record lie. */
  lemma Fields(r: Record, tail: seq<Byte>)
    ensures (Encode(r) + tail)[..8] == ToLE(U64(r.addr), 8)
    ensures (Encode(r) + tail)[8..][..8] == ToLE(U64(|r.payload|), 8)
    ensures (Encode(r) + tail)[16..] == r.payload + tail
    ensures |Encode(r)| == 16 + |r.payload|
  {
  }

  // The checking reader of elf-extract

  datatype Parsed = Parsed(records: seq<Record>) | Panic | Undefined

  function Prepend(r: Record, p: Parsed): Parsed {
    if p.Parsed? then Parsed([r] + p.records) else p
  }

  /** What reading the stream means: unaligned 8-byte reads that leave the file
      are undefined, a bounds-checked index or slice that leaves it panics. */
  function Parse(file: seq<Byte>): Parsed {
    if file == [] then Parsed([])
    else if |file| < 8 then Undefined
    else if |file| == 8 then Panic
    else if |file| < 16 then Undefined
    else
      var size := LE(file[8..][..8]);
      if 16 + size > |file| then Panic
      else Prepend(Record(LE(file[..8]), file[16..][..size]), Parse(file[16 + size..]))
  }

  /** Records already parsed, followed by what the rest of the file parses to. */
  function Onto(v: seq<Record>, p: Parsed): Parsed {
    if p.Parsed? then Parsed(v + p.records) else p
  }

  lemma OntoNext(v: seq<Record>, r: Record, p: Parsed)
    ensures Onto(v, Prepend(r, p)) == Onto(v + [r], p)
  {
    if p.Parsed? {
      assert v + ([r] + p.records) == v + [r] + p.records;
    }
  }

  /** Where the fields lie when parsing has reached index `i`. */
  lemma AtIndex(file: seq<Byte>, i: nat)
    requires i + 16 <= |file|
    ensures file[i..][..8] == file[i..i + 8]
    ensures file[i..][8..][..8] == file[i + 8..i + 16]
    ensures forall n :: 0 <= n <= |file| - i - 16 ==> file[i..][16..][..n] == file[i + 16..i + 16 + n]
    ensures forall n :: 16 <= n <= |file| - i ==> file[i..][n..] == file[i + n..]
  {
  }

  method ParseYz(file: seq<Byte>) returns (r: Parsed)
    ensures r == Parse(file)
  {
    hide LE;
    var v: seq<Record> := [];
    var i := 0;
    assert file[0..] == file;
    while i < |file|
      invariant 0 <= i <= |file|
      invariant Parse(file) == Onto(v, Parse(file[i..]))
    {
      if i + 8 > |file| {
        return Undefined;
      }
      var addr := LE(file[i..i + 8]);
      if i + 8 >= |file| {
        return Panic;
      }
      if i + 16 > |file| {
        return Undefined;
      }
      AtIndex(file, i);
      var size := LE(file[i + 8..i + 16]);
      if i + 16 + size > |file| {
        return Panic;
      }
      var bytes := file[i + 16..i + 16 + size];
      OntoNext(v, Record(addr, bytes), Parse(file[i + (16 + size)..]));
      v := v + [Record(addr, bytes)];
      i := i + (16 + size);
    }
    return Parsed(v);
  }

  lemma SplitBody(file: seq<Byte>, payload: seq<Byte>, tail: seq<Byte>)
    requires |file| >= 16 && file[16..] == payload + tail
    ensures file[16..][..|payload|] == payload
    ensures file[16..][|payload|..] == tail
    ensures file[16 + |payload|..] == tail
  {
    assert file[16 + |payload|..] == file[16..][|payload|..];
  }

  predicate Unsigned(r: Record) {
    0 <= r.addr < TWO_64 && |r.payload| < TWO_64
  }

  /** Every sequence of records survives writing and parsing. */
  lemma {:induction false} ParseOfEncode(rs: seq<Record>)
    requires forall r :: r in rs ==> Unsigned(r)
    ensures Parse(EncodeAll(rs)) == Parsed(rs)
  {
    if rs != [] {
      var r, tail := rs[0], EncodeAll(rs[1..]);
      var file := Encode(r) + tail;
      ParseOfEncode(rs[1..]);
      Fields(r, tail);
      assert Unsigned(r);
      LongRoundTrip(r.addr);
      LongRoundTrip(|r.payload|);
      SmallU64(r.addr);
      SmallU64(|r.payload|);
      SplitBody(file, r.payload, tail);
      assert rs == [r] + rs[1..];
    }
  }

  /** What follows the records of a file ends the parse as it would alone. */
  lemma {:induction false} ParseOfTail(rs: seq<Record>, tail: seq<Byte>)
    requires forall r :: r in rs ==> Unsigned(r)
    ensures Parse(EncodeAll(rs) + tail) == Onto(rs, Parse(tail))
  {
    hide Parse, Encode;
    if rs == [] {
      assert EncodeAll(rs) + tail == tail;
    } else {
      var r, rest := rs[0], EncodeAll(rs[1..]) + tail;
      ParseOfTail(rs[1..], tail);
      AppendAssociative(Encode(r), EncodeAll(rs[1..]), tail);
      assert Unsigned(r);
      ParseFirst(r, rest);
      OntoShift(r, rs[1..], Parse(tail));
      assert rs == [r] + rs[1..];
    }
  }

  lemma OntoShift(r: Record, rs: seq<Record>, p: Parsed)
    ensures Prepend(r, Onto(rs, p)) == Onto([r] + rs, p)
  {
    if p.Parsed? {
      assert [r] + (rs + p.records) == [r] + rs + p.records;
    }
  }

  lemma ParseFirst(r: Record, rest: seq<Byte>)
    requires Unsigned(r)
    ensures Parse(Encode(r) + rest) == Prepend(r, Parse(rest))
  {
    var file := Encode(r) + rest;
    Fields(r, rest);
    LongRoundTrip(r.addr);
    LongRoundTrip(|r.payload|);
    SmallU64(r.addr);
    SmallU64(|r.payload|);
    SplitBody(file, r.payload, rest);
  }

  /** How a cut-off file ends: within the address or the length by a read past its
      end, between them and within the payload by a failed bounds check. */
  lemma ParseCutOff(r: Record, n: nat)
    requires Unsigned(r) && n < |Encode(r)|
    ensures Parse(Encode(r)[..n]) ==
      if n == 0 then Parsed([]) else if n == 8 || n >= 16 then Panic else Undefined
  {
    var file := Encode(r)[..n];
    if n >= 16 {
      Fields(r, []);
      LongRoundTrip(|r.payload|);
      SmallU64(|r.payload|);
      assert file[8..][..8] == (Encode(r) + [])[8..][..8];
    }
  }

  /** The parser accepts only files a writer can produce. */
  lemma {:induction false} EncodeOfParse(file: seq<Byte>)
    requires Parse(file).Parsed?
    ensures EncodeAll(Parse(file).records) == file
    ensures forall r :: r in Parse(file).records ==> Unsigned(r)
    decreases |file|
  {
    if file != [] {
      var size := LE(file[8..][..8]);
      var r, rest := Record(LE(file[..8]), file[16..][..size]), file[16 + size..];
      assert Parse(file) == Prepend(r, Parse(rest));
      EncodeOfParse(rest);
      assert Parse(file).records[1..] == Parse(rest).records;
      EncodeOfFields(file, size);
    }
  }

  lemma EncodeOfFields(file: seq<Byte>, size: nat)
    requires 16 + size <= |file| && size == LE(file[8..][..8])
    ensures Unsigned(Record(LE(file[..8]), file[16..][..size]))
    ensures Encode(Record(LE(file[..8]), file[16..][..size])) + file[16 + size..] == file
  {
    Pow256Values();
    ToLEOfLE(file[..8]);
    ToLEOfLE(file[8..][..8]);
    SmallU64(size);
    SmallU64(LE(file[..8]));
    Rejoin(file, size);
  }

  lemma Rejoin(file: seq<Byte>, size: nat)
    requires 16 + size <= |file|
    ensures file[..8] + file[8..][..8] + file[16..][..size] + file[16 + size..] == file
  {
  }

  // The fread loops of the insertion library

  /** `Aborted` is print_err_and_exit; `Broken` is a negative length, for which
      the buffer declaration has undefined behaviour. */
  datatype Ending = Finished | Aborted | Broken

  datatype Reading = Reading(records: seq<Record>, ending: Ending)

  /** What one pass of the loop reads: `file` shrinks by what was consumed. */
  datatype Item = End(ending: Ending) | Item(record: Record, rest: seq<Byte>)

  /** One record as the fread calls see it. A stream that stops inside the
      payload leaves the rest of the buffer uninitialised, here `pad`. */
  function ReadItem(file: seq<Byte>, pad: nat -> Byte): (it: Item)
    ensures it.Item? ==> |it.rest| + 17 <= |file| && it.record.payload != []
  {
    if |file| < 8 then End(Finished)
    else if |file| < 16 then End(Aborted)
    else
      var len := S64(LE(file[8..][..8]));
      var body := file[16..];
      if len < 0 then End(Broken)
      else if len == 0 || body == [] then End(Aborted)
      else if len <= |body| then Item(Record(S64(LE(file[..8])), body[..len]), body[len..])
      else Item(Record(S64(LE(file[..8])), body + seq(len - |body|, i requires 0 <= i < len - |body| => pad(i))), [])
  }

  function Read(file: seq<Byte>, pad: nat -> Byte): Reading
    decreases |file|
  {
    match ReadItem(file, pad)
    case End(e) => Reading([], e)
    case Item(r, rest) =>
      var tail := Read(rest, pad);
      Reading([r] + tail.records, tail.ending)
  }

  predicate Signed(r: Record) {
    IsLong(r.addr) && |r.payload| < TWO_63
  }

  lemma ReadItemOfEncode(r: Record, tail: seq<Byte>, pad: nat -> Byte)
    requires Signed(r)
    ensures ReadItem(Encode(r) + tail, pad) == if r.payload == [] then End(Aborted) else Item(r, tail)
  {
    var file := Encode(r) + tail;
    Fields(r, tail);
    LongRoundTrip(r.addr);
    LongRoundTrip(|r.payload|);
    SmallU64(|r.payload|);
    SplitBody(file, r.payload, tail);
    assert S64(LE(file[8..][..8])) == |r.payload|;
  }

  /** A stream that stops before the end of a record: a cut within the address is
      taken for the end, one within the length or before the payload ends the
      process, and one within the payload is filled up with what the buffer held. */
  lemma ReadCutOff(r: Record, n: nat, pad: nat -> Byte)
    requires Signed(r) && r.payload != [] && n < |Encode(r)|
    ensures n < 8 ==> ReadItem(Encode(r)[..n], pad) == End(Finished)
    ensures 8 <= n <= 16 ==> ReadItem(Encode(r)[..n], pad) == End(Aborted)
    ensures n > 16 ==> var it := ReadItem(Encode(r)[..n], pad);
      && it.Item? && it.rest == [] && it.record.addr == r.addr && |it.record.payload| == |r.payload|
      && forall i :: 0 <= i < |r.payload| ==> it.record.payload[i] == if i < n - 16 then r.payload[i] else pad(i - (n - 16))
  {
    hide Encode, LE, S64;
    EncodeSize(r);
    if n >= 16 {
      CutFields(r, n);
    }
  }

  /** A length with its top bit set is taken for a negative one. */
  lemma NegativeLength(file: seq<Byte>, pad: nat -> Byte)
    requires |file| >= 16 && LE(file[8..][..8]) >= TWO_63
    ensures ReadItem(file, pad) == End(Broken)
  {
    hide LE;
    ToLEOfLE(file[8..][..8]);
    Pow256Values();
    SmallU64(LE(file[8..][..8]));
  }

  lemma EncodeSize(r: Record)
    ensures |Encode(r)| == 16 + |r.payload|
  {
  }

  /** The fields of a record that is cut within its payload. */
  lemma CutFields(r: Record, n: nat)
    requires Signed(r) && 16 <= n < |Encode(r)|
    ensures var file := Encode(r)[..n];
      && S64(LE(file[..8])) == r.addr && S64(LE(file[8..][..8])) == |r.payload|
      && |Encode(r)| == 16 + |r.payload| && file[16..] == r.payload[..n - 16]
  {
    Fields(r, []);
    LongRoundTrip(r.addr);
    LongRoundTrip(|r.payload|);
    SmallU64(|r.payload|);
    hide LE, S64, ToLE;
    var file, whole := Encode(r)[..n], Encode(r) + [];
    assert file[8..][..8] == whole[8..][..8] && file[..8] == whole[..8];
    assert file[16..] == whole[16..][..n - 16];
  }

  /** The records before the first one with an empty payload. */
  function BeforeEmpty(rs: seq<Record>): seq<Record> {
    if rs == [] || rs[0].payload == [] then [] else [rs[0]] + BeforeEmpty(rs[1..])
  }

  /** For every written sequence: the fread loops return the records up to the
      first empty payload, and finish exactly when there is none. */
  lemma {:induction false} ReadOfEncode(rs: seq<Record>, pad: nat -> Byte)
    requires forall r :: r in rs ==> Signed(r)
    ensures Read(EncodeAll(rs), pad).records == BeforeEmpty(rs)
    ensures Read(EncodeAll(rs), pad).ending == if forall r :: r in rs ==> r.payload != [] then Finished else Aborted
  {
    if rs != [] {
      var r, tail := rs[0], EncodeAll(rs[1..]);
      var file := Encode(r) + tail;
      ReadOfEncode(rs[1..], pad);
      assert Signed(r);
      ReadItemOfEncode(r, tail, pad);
      assert EncodeAll(rs) == file;
      assert forall s :: s in rs <==> s == r || s in rs[1..];
    }
  }

  lemma {:induction false} BeforeEmptyIsAll(rs: seq<Record>)
    requires forall r :: r in rs ==> r.payload != []
    ensures BeforeEmpty(rs) == rs
  {
    if rs != [] {
      BeforeEmptyIsAll(rs[1..]);
      assert rs == [rs[0]] + rs[1..];
    }
  }

  /** The round trip of the insertion library, for every non-empty payload. */
  lemma ReadBack(rs: seq<Record>, pad: nat -> Byte)
    requires forall r :: r in rs ==> Signed(r) && r.payload != []
    ensures Read(EncodeAll(rs), pad) == Reading(rs, Finished)
  {
    ReadOfEncode(rs, pad);
    BeforeEmptyIsAll(rs);
  }

  // Replaying records into memory

  predicate Covers(r: Record, k: int) { r.addr <= k < r.addr + |r.payload| }

  predicate Covered(rs: seq<Record>, k: int) { exists r :: r in rs && Covers(r, k) }

  function Overlay(r: Record): (m: Memory)
    ensures forall k :: k in m <==> Covers(r, k)
    ensures forall k :: k in m ==> Covers(r, k) && m[k] == r.payload[k - r.addr]
  {
    map k | k in Range(r.addr, |r.payload|) :: r.payload[k - r.addr]
  }

  /** Copying the payloads one after the other. */
  function Replay(mem: Memory, rs: seq<Record>): Memory
    decreases |rs|
  {
    if rs == [] then mem else Replay(mem + Overlay(rs[0]), rs[1..])
  }

  lemma {:induction false} ReplayAppend(mem: Memory, rs: seq<Record>, ss: seq<Record>)
    ensures Replay(mem, rs + ss) == Replay(Replay(mem, rs), ss)
    decreases |rs|
  {
    if rs == [] {
      assert rs + ss == ss;
    } else {
      ReplayAppend(mem + Overlay(rs[0]), rs[1..], ss);
      assert (rs + ss)[1..] == rs[1..] + ss;
    }
  }

  lemma ReplayOne(mem: Memory, done: seq<Record>, r: Record)
    ensures Replay(mem, done + [r]) == Replay(mem, done) + Overlay(r)
  {
    ReplayAppend(mem, done, [r]);
    assert [r][1..] == [];
  }

  /** The first `m` bytes of a record, or all of it. */
  function Start(r: Record, m: nat): Record {
    if m < |r.payload| then Record(r.addr, r.payload[..m]) else r
  }

  /** What has been copied when the copying stops after `n` records and `m` bytes
      of the next one. */
  function Torn(rs: seq<Record>, n: nat, m: nat): seq<Record> {
    if n < |rs| then rs[..n] + [Start(rs[n], m)] else rs
  }

  lemma TornAppend(rs: seq<Record>, ss: seq<Record>, n: nat, m: nat)
    ensures Torn(rs + ss, n, m) == if n < |rs| then Torn(rs, n, m) else rs + Torn(ss, n - |rs|, m)
  {
    if n < |rs| {
      assert (rs + ss)[..n] == rs[..n];
    } else if n < |rs| + |ss| {
      assert (rs + ss)[..n] == rs + ss[..n - |rs|];
    }
  }

  /** A stop between two records leaves a prefix of the stream. */
  lemma TornBetween(mem: Memory, rs: seq<Record>, n: nat, m: nat)
    requires n < |rs|
    ensures m == 0 ==> Replay(mem, Torn(rs, n, m)) == Replay(mem, rs[..n])
    ensures m >= |rs[n].payload| ==> Torn(rs, n, m) == rs[..n + 1]
  {
    if m == 0 {
      var none := Start(rs[n], 0);
      ReplayAppend(mem, rs[..n], [none]);
      assert [none][1..] == [];
      assert Replay(mem, rs[..n]) + Overlay(none) == Replay(mem, rs[..n]);
    }
  }

  /** No two records disagree about a byte. */
  ghost predicate Consistent(rs: seq<Record>) {
    forall r, s, k :: r in rs && s in rs && Covers(r, k) && Covers(s, k) ==>
      r.payload[k - r.addr] == s.payload[k - s.addr]
  }

  predicate Apart(r: Record, s: Record) {
    r.addr + |r.payload| <= s.addr || s.addr + |s.payload| <= r.addr
  }

  /** No two records overlap. */
  ghost predicate Disjoint(rs: seq<Record>) {
    forall i, j :: 0 <= i < j < |rs| ==> Apart(rs[i], rs[j])
  }

  lemma DisjointIsConsistent(rs: seq<Record>)
    requires Disjoint(rs)
    ensures Consistent(rs)
  {
  }

  /** Bytes outside every record are unchanged. */
  lemma {:induction false} ReplayOutside(mem: Memory, rs: seq<Record>, k: int)
    requires !Covered(rs, k)
    ensures k in Replay(mem, rs) <==> k in mem
    ensures k in mem ==> Replay(mem, rs)[k] == mem[k]
    decreases |rs|
  {
    if rs != [] {
      assert rs[0] in rs;
      assert forall r :: r in rs[1..] ==> r in rs;
      ReplayOutside(mem + Overlay(rs[0]), rs[1..], k);
    }
  }

  lemma {:induction false} ReplayKeys(mem: Memory, rs: seq<Record>, k: int)
    ensures k in Replay(mem, rs) <==> k in mem || Covered(rs, k)
    decreases |rs|
  {
    if rs != [] {
      assert rs == [rs[0]] + rs[1..];
      ReplayKeys(mem + Overlay(rs[0]), rs[1..], k);
    }
  }

  /** Bytes inside a record of a consistent stream are that record's. */
  lemma {:induction false} ReplayInside(mem: Memory, rs: seq<Record>, r: Record, k: int)
    requires Consistent(rs) && r in rs && Covers(r, k)
    ensures k in Replay(mem, rs) && Replay(mem, rs)[k] == r.payload[k - r.addr]
    decreases |rs|
  {
    assert forall s :: s in rs[1..] ==> s in rs;
    if Covered(rs[1..], k) {
      var s :| s in rs[1..] && Covers(s, k);
      ReplayInside(mem + Overlay(rs[0]), rs[1..], s, k);
    } else {
      ReplayOutside(mem + Overlay(rs[0]), rs[1..], k);
      assert r == rs[0];
    }
  }

  /** Streams with the same records, in any order and any multiplicity, leave
      the same memory when no two records disagree about a byte. */
  lemma OrderIrrelevant(mem: Memory, rs: seq<Record>, ss: seq<Record>)
    requires Consistent(rs)
    requires forall r :: r in rs <==> r in ss
    ensures Replay(mem, rs) == Replay(mem, ss)
  {
    var m, n := Replay(mem, rs), Replay(mem, ss);
    forall k: int
      ensures k in m <==> k in n
      ensures k in m && k in n ==> m[k] == n[k]
    {
      if Covered(rs, k) {
        var r :| r in rs && Covers(r, k);
        ReplayInside(mem, rs, r, k);
        ReplayInside(mem, ss, r, k);
      } else {
        ReplayOutside(mem, rs, k);
        ReplayOutside(mem, ss, k);
      }
    }
  }

  /** Replaying any permutation of pairwise disjoint records. */
  lemma PermutationIrrelevant(mem: Memory, rs: seq<Record>, ss: seq<Record>)
    requires Disjoint(rs) && multiset(rs) == multiset(ss)
    ensures Replay(mem, rs) == Replay(mem, ss)
  {
    DisjointIsConsistent(rs);
    forall r
      ensures r in rs <==> r in ss
    {
      assert r in rs <==> r in multiset(rs);
      assert r in ss <==> r in multiset(ss);
    }
    OrderIrrelevant(mem, rs, ss);
  }
}
